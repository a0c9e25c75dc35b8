/** What the operator reads off a child workload: readiness, and why a pod is not ready. */
module Readiness {
  import opened Wrappers
  import opened Conditions

  datatype ConditionValue = ValueTrue | ValueFalse | ValueUnknown

  datatype DeploymentCondition = DeploymentCondition(isAvailableType: bool, status: ConditionValue)

  datatype Deployment = Deployment(conditions: seq<DeploymentCondition>)

  datatype StatefulSet = StatefulSet(
    generation: int,
    replicas: Option<int>,
    observedGeneration: int,
    readyReplicas: int)

  datatype Waiting = Waiting(reason: string, message: string)

  datatype Terminated = Terminated(exitCode: int, reason: string, message: string)

  datatype ContainerStatus = ContainerStatus(name: string, waiting: Option<Waiting>, terminated: Option<Terminated>)

  datatype Pod = Pod(initContainers: seq<ContainerStatus>, containers: seq<ContainerStatus>)

  /** The first condition of type Available decides; without one the answer is no. */
  function DeploymentAvailable(conds: seq<DeploymentCondition>): bool {
    if conds == [] then false
    else if conds[0].isAvailableType then conds[0].status == ValueTrue
    else DeploymentAvailable(conds[1..])
  }

  /** There is a condition of type Available, and the first one is true. */
  lemma {:induction false} DeploymentAvailableIff(conds: seq<DeploymentCondition>)
    ensures DeploymentAvailable(conds) <==>
            exists i :: 0 <= i < |conds| && conds[i] == DeploymentCondition(true, ValueTrue) && forall j :: 0 <= j < i ==> !conds[j].isAvailableType
  {
    if conds != [] && !conds[0].isAvailableType {
      var rest := conds[1..];
      DeploymentAvailableIff(rest);
      if DeploymentAvailable(rest) {
        var i :| 0 <= i < |rest| && rest[i] == DeploymentCondition(true, ValueTrue) && forall j :: 0 <= j < i ==> !rest[j].isAvailableType;
        assert conds[i + 1] == rest[i];
        forall j | 0 <= j < i + 1 ensures !conds[j].isAvailableType {
          assert j == 0 || conds[j] == rest[j - 1];
        }
      }
      if i :| 0 <= i < |conds| && conds[i] == DeploymentCondition(true, ValueTrue) && forall j :: 0 <= j < i ==> !conds[j].isAvailableType {
        assert rest[i - 1] == conds[i];
        forall j | 0 <= j < i - 1 ensures !rest[j].isAvailableType {
          assert rest[j] == conds[j + 1];
        }
      }
    }
  }

  method IsDeploymentAvailable(dep: Option<Deployment>) returns (available: bool)
    ensures available <==> dep.Some? && DeploymentAvailable(dep.value.conditions)
    ensures available <==> dep.Some? && exists i :: 0 <= i < |dep.value.conditions|
                                                    && dep.value.conditions[i] == DeploymentCondition(true, ValueTrue)
                                                    && forall j :: 0 <= j < i ==> !dep.value.conditions[j].isAvailableType
  {
    if dep.None? {
      return false;
    }
    var conds := dep.value.conditions;
    var k := 0;
    while k < |conds|
      invariant 0 <= k <= |conds|
      invariant forall j :: 0 <= j < k ==> !conds[j].isAvailableType
      invariant DeploymentAvailable(conds) == DeploymentAvailable(conds[k..])
    {
      if conds[k].isAvailableType {
        return conds[k].status == ValueTrue;
      }
      k := k + 1;
    }
    return false;
  }

  /** An absent replica count means one replica. */
  function StatefulSetReady(sts: StatefulSet): bool {
    var desired := if sts.replicas.Some? then sts.replicas.value else 1;
    sts.observedGeneration >= sts.generation && sts.readyReplicas >= desired
  }

  method IsStatefulSetReady(sts: Option<StatefulSet>) returns (ready: bool)
    ensures ready <==> sts.Some? && StatefulSetReady(sts.value)
    ensures ready <==>
              && sts.Some?
              && sts.value.observedGeneration >= sts.value.generation
              && (sts.value.replicas.Some? ==> sts.value.readyReplicas >= sts.value.replicas.value)
              && (sts.value.replicas.None? ==> sts.value.readyReplicas >= 1)
  {
    if sts.None? {
      return false;
    }
    var desired := 1;
    if sts.value.replicas.Some? {
      desired := sts.value.replicas.value;
    }
    return sts.value.observedGeneration >= sts.value.generation && sts.value.readyReplicas >= desired;
  }

  datatype Detail = Detail(reason: string, message: Message)

  const NO_DETAIL := Detail("", Text(""))

  /** What one container has to say: nothing, or a reason and a message. */
  function ContainerDetail(cs: ContainerStatus): Option<Detail> {
    if cs.waiting.Some? && cs.waiting.value.reason != "" then
      var w := cs.waiting.value;
      Some(Detail(w.reason, if w.message == "" then ContainerIs(cs.name, w.reason) else Text(w.message)))
    else if cs.terminated.Some? && cs.terminated.value.exitCode != 0 then
      var t := cs.terminated.value;
      Some(Detail(if t.reason == "" then "ContainerTerminated" else t.reason,
                  if t.message == "" then ContainerExited(cs.name, t.exitCode) else Text(t.message)))
    else
      None
  }

  function FirstDetail(statuses: seq<ContainerStatus>): Option<Detail> {
    if statuses == [] then None
    else if ContainerDetail(statuses[0]).Some? then ContainerDetail(statuses[0])
    else FirstDetail(statuses[1..])
  }

  function PodDetail(pod: Option<Pod>): Detail {
    if pod.None? then NO_DETAIL
    else
      match FirstDetail(pod.value.initContainers + pod.value.containers)
      case Some(d) => d
      case None => NO_DETAIL
  }

  /** It waits for a stated reason, or ended with a nonzero code. */
  predicate Informative(cs: ContainerStatus) {
    || (cs.waiting.Some? && cs.waiting.value.reason != "")
    || (cs.terminated.Some? && cs.terminated.value.exitCode != 0)
  }

  /**
   What an informative container is quoted with: the wait before the exit, its own reason
   and message where it has them, and a reason that is never empty.
   */
  lemma ContainerDetailSays(cs: ContainerStatus)
    ensures ContainerDetail(cs).Some? <==> Informative(cs)
    ensures ContainerDetail(cs).Some? ==>
              var d := ContainerDetail(cs).value;
              && d.reason != ""
              && (cs.waiting.Some? && cs.waiting.value.reason != "" ==>
                    && d.reason == cs.waiting.value.reason
                    && (cs.waiting.value.message != "" ==> d.message == Text(cs.waiting.value.message))
                    && (cs.waiting.value.message == "" ==> d.message == ContainerIs(cs.name, cs.waiting.value.reason)))
              && (cs.waiting.None? || cs.waiting.value.reason == "" ==>
                    && (cs.terminated.value.reason != "" ==> d.reason == cs.terminated.value.reason)
                    && (cs.terminated.value.reason == "" ==> d.reason == "ContainerTerminated")
                    && (cs.terminated.value.message != "" ==> d.message == Text(cs.terminated.value.message))
                    && (cs.terminated.value.message == "" ==> d.message == ContainerExited(cs.name, cs.terminated.value.exitCode)))
  {
  }

  lemma {:induction false} FirstDetailIsFirst(statuses: seq<ContainerStatus>)
    ensures FirstDetail(statuses) == None <==> forall i :: 0 <= i < |statuses| ==> ContainerDetail(statuses[i]) == None
    ensures FirstDetail(statuses).Some? ==>
              exists i :: 0 <= i < |statuses| && ContainerDetail(statuses[i]) == FirstDetail(statuses)
                          && forall j :: 0 <= j < i ==> ContainerDetail(statuses[j]) == None
  {
    if statuses != [] {
      var rest := statuses[1..];
      FirstDetailIsFirst(rest);
      if ContainerDetail(statuses[0]).None? {
        assert forall i :: 0 < i < |statuses| ==> statuses[i] == rest[i - 1];
        if FirstDetail(rest).Some? {
          var i :| 0 <= i < |rest| && ContainerDetail(rest[i]) == FirstDetail(rest)
                   && forall j :: 0 <= j < i ==> ContainerDetail(rest[j]) == None;
          assert ContainerDetail(statuses[i + 1]) == FirstDetail(statuses);
        } else {
          forall i | 0 <= i < |statuses| ensures ContainerDetail(statuses[i]) == None {
            assert i == 0 || statuses[i] == rest[i - 1];
          }
        }
      }
    }
  }

  lemma FirstDetailSkips(statuses: seq<ContainerStatus>, k: nat)
    requires k < |statuses| && ContainerDetail(statuses[k]) == None
    ensures FirstDetail(statuses[k..]) == FirstDetail(statuses[k + 1..])
  {
    assert statuses[k..][1..] == statuses[k + 1..];
  }

  /** The detail of a pod is that of its first informative container, and empty only without one. */
  lemma PodDetailIsFirst(pod: Option<Pod>)
    ensures PodDetail(pod).reason == "" <==>
            pod.None? || forall i :: 0 <= i < |pod.value.initContainers + pod.value.containers| ==>
                           !Informative((pod.value.initContainers + pod.value.containers)[i])
    ensures PodDetail(pod).reason != "" ==>
              var all := pod.value.initContainers + pod.value.containers;
              exists i :: 0 <= i < |all| && Some(PodDetail(pod)) == ContainerDetail(all[i]) && forall j :: 0 <= j < i ==> !Informative(all[j])
  {
    hide ContainerDetail, Informative;
    if pod.Some? {
      var all := pod.value.initContainers + pod.value.containers;
      FirstDetailIsFirst(all);
      forall i | 0 <= i < |all|
        ensures ContainerDetail(all[i]).Some? <==> Informative(all[i])
        ensures ContainerDetail(all[i]).Some? ==> ContainerDetail(all[i]).value.reason != ""
      {
        ContainerDetailSays(all[i]);
      }
    }
  }

  /**
   The reason is that of the first informative container, init containers
   before main ones, and it is empty only when no container is informative.
   */
  method PodNotReadyDetail(pod: Option<Pod>) returns (reason: string, message: Message)
    ensures Detail(reason, message) == PodDetail(pod)
    ensures reason == "" <==>
            pod.None? || forall i :: 0 <= i < |pod.value.initContainers + pod.value.containers| ==>
                           !Informative((pod.value.initContainers + pod.value.containers)[i])
    ensures reason != "" ==>
              var all := pod.value.initContainers + pod.value.containers;
              exists i :: 0 <= i < |all| && Some(Detail(reason, message)) == ContainerDetail(all[i]) && forall j :: 0 <= j < i ==> !Informative(all[j])
  {
    hide Informative;
    PodDetailIsFirst(pod);
    if pod.None? {
      return "", Text("");
    }
    var groups := [pod.value.initContainers, pod.value.containers];
    var all := pod.value.initContainers + pod.value.containers;
    var g := 0;
    ghost var seen := 0;
    while g < 2
      invariant 0 <= g <= 2
      invariant seen == (if g == 0 then 0 else if g == 1 then |groups[0]| else |all|)
      invariant FirstDetail(all) == FirstDetail(all[seen..])
    {
      var statuses := groups[g];
      ghost var start := seen;
      var k := 0;
      while k < |statuses|
        invariant 0 <= k <= |statuses|
        invariant seen == start + k
        invariant FirstDetail(all) == FirstDetail(all[seen..])
      {
        var cs := statuses[k];
        assert all[seen] == cs;
        if cs.waiting.Some? && cs.waiting.value.reason != "" {
          var w := cs.waiting.value;
          var msg := Text(w.message);
          if w.message == "" {
            msg := ContainerIs(cs.name, w.reason);
          }
          return w.reason, msg;
        }
        if cs.terminated.Some? && cs.terminated.value.exitCode != 0 {
          var t := cs.terminated.value;
          var why := t.reason;
          if why == "" {
            why := "ContainerTerminated";
          }
          var msg := Text(t.message);
          if t.message == "" {
            msg := ContainerExited(cs.name, t.exitCode);
          }
          return why, msg;
        }
        FirstDetailSkips(all, seen);
        k, seen := k + 1, seen + 1;
      }
      g := g + 1;
    }
    return "", Text("");
  }
}
