/**
 One custom resource, its children, its key in the work queue and the worker
 that reconciles it. Every change of the resource or of a child it owns puts the
 key in the queue; at most one worker runs on the key; errors and RequeueAfter
 put it back later. Children are read one by one while anything may change.
 */
module Agreement {
  import opened Wrappers
  import opened Conditions
  import opened Readiness
  import opened Status

  datatype Child = DeploymentChild(deployment: Deployment) | StatefulSetChild(sts: StatefulSet)

  /** The errors a reconcile carries into its status update and its result. */
  datatype Errors = Errors(timelineErr: Option<string>, createErr: Option<string>)

  const NO_ERRORS := Errors(None, None)

  datatype Worker =
    | Idle
    | Working(copy: Object)
    | Observing(errs: Errors, seen: seq<Option<Child>>)
    | Patching(errs: Errors, seen: seq<Option<Child>>, current: Object, ins: Inputs, clock: nat -> int)
    | Ending(errs: Errors)

  datatype System = System(
    resource: Object,
    children: seq<Option<Child>>,
    queued: bool,
    delayed: bool,
    worker: Worker)

  datatype Step =
    | ChildChanges(i: nat, child: Option<Child>)
    | ObjectChanges(generation: nat, id: string, status: Status)
    | Start
    | AssignID(id: string, accepted: bool)
    | GiveUp
    | Work(errs: Errors, children: seq<Option<Child>>)
    | Observe
    | ReadStatus(pod: Read<Pod>, clock: nat -> int, failed: bool)
    | PatchStatus(rejected: bool)
    | End
    | Timer

  // ---- Shape -------------------------------------------------------------------

  function Arity(kind: Kind): nat {
    if kind == ClusterKind then 2 else 1
  }

  /** A cluster has two Deployments, a branch one; the servers have a StatefulSet. */
  predicate ChildOf(kind: Kind, c: Option<Child>) {
    c.Some? ==> if kind == ClusterKind || kind == BranchKind then c.value.DeploymentChild? else c.value.StatefulSetChild?
  }

  predicate ChildrenOf(kind: Kind, cs: seq<Option<Child>>) {
    |cs| <= Arity(kind) && forall i :: 0 <= i < |cs| ==> ChildOf(kind, cs[i])
  }

  predicate Watched(kind: Kind) {
    kind != ProjectKind
  }

  predicate ErrorsOf(kind: Kind, errs: Errors) {
    errs.timelineErr.Some? ==> kind == BranchKind && errs.createErr.None?
  }

  function DeploymentRead(c: Option<Child>): Read<Deployment> {
    if c.Some? && c.value.DeploymentChild? then Found(c.value.deployment) else NotFound
  }

  function StatefulSetRead(c: Option<Child>): Read<StatefulSet> {
    if c.Some? && c.value.StatefulSetChild? then Found(c.value.sts) else NotFound
  }

  /** What the status closure captures after the children were read. */
  function Captured(kind: Kind, errs: Errors, seen: seq<Option<Child>>, pod: Read<Pod>): Inputs
    requires Watched(kind) && |seen| == Arity(kind)
  {
    match kind
    case ClusterKind => ClusterInputs(errs.createErr, DeploymentRead(seen[0]), DeploymentRead(seen[1]))
    case BranchKind => BranchInputs(errs.timelineErr, errs.createErr, DeploymentRead(seen[0]))
    case PageserverKind => StatefulSetInputs("Pageserver", errs.createErr, StatefulSetRead(seen[0]), pod)
    case SafekeeperKind => StatefulSetInputs("Safekeeper", errs.createErr, StatefulSetRead(seen[0]), pod)
  }

  // ---- Steps -------------------------------------------------------------------

  predicate NeedsID(o: Object) {
    o.kind == BranchKind && o.id == ""
  }

  function Changed(s: System, o: Object): System {
    s.(resource := o.(version := s.resource.version + 1), queued := true)
  }

  function Failed(s: System): System {
    s.(delayed := true, worker := Idle)
  }

  predicate Enabled(s: System, step: Step) {
    match step
    case ChildChanges(i, c) => i < |s.children| && ChildOf(s.resource.kind, c)
    case ObjectChanges(_, _, _) => true
    case Start => s.queued && s.worker.Idle?
    case AssignID(id, _) => s.worker.Working? && NeedsID(s.worker.copy) && id != ""
    case GiveUp => s.worker.Working?
    case Work(errs, cs) => s.worker.Working? && !NeedsID(s.worker.copy) && ErrorsOf(s.resource.kind, errs)
                           && |cs| == Arity(s.resource.kind) && ChildrenOf(s.resource.kind, cs)
    case Observe => s.worker.Observing? && |s.worker.seen| < Arity(s.resource.kind)
    case ReadStatus(_, _, _) => s.worker.Observing? && |s.worker.seen| == Arity(s.resource.kind)
    case PatchStatus(_) => s.worker.Patching?
    case End => s.worker.Ending?
    case Timer => s.delayed
  }

  function Next(s: System, step: Step): System
    requires Shape(s) && Enabled(s, step)
  {
    match step
    case ChildChanges(i, c) => s.(children := s.children[i := c], queued := true)
    case ObjectChanges(g, id, status) => Changed(s, s.resource.(generation := g, id := id, status := status))
    case Start => s.(queued := false, worker := Working(s.resource))
    case AssignID(id, accepted) =>
      // An accepted patch asks to be called again after a second, a rejected one is retried.
      Failed(if accepted then Changed(s, s.resource.(generation := s.resource.generation + 1, id := id)) else s)
    case GiveUp => Failed(s)
    case Work(errs, cs) =>
      s.(children := cs, queued := s.queued || cs != s.children, worker := Observing(errs, []))
    case Observe =>
      s.(worker := Observing(s.worker.errs, s.worker.seen + [s.children[|s.worker.seen|]]))
    case ReadStatus(pod, clock, failed) =>
      if failed then Failed(s)
      else
        var ins := Captured(s.resource.kind, s.worker.errs, s.worker.seen, pod);
        if Mutate(s.resource, ins, clock) == s.resource.status then s.(worker := Ending(s.worker.errs))
        else s.(worker := Patching(s.worker.errs, s.worker.seen, s.resource, ins, clock))
    case PatchStatus(rejected) =>
      var w := s.worker;
      if rejected || w.current.version != s.resource.version then Failed(s)
      else Changed(s, s.resource.(status := Mutate(w.current, w.ins, w.clock))).(worker := Ending(w.errs))
    case End =>
      if s.worker.errs != NO_ERRORS then Failed(s) else s.(worker := Idle)
    case Timer => s.(queued := true, delayed := false)
  }

  ghost predicate Shape(s: System) {
    && Watched(s.resource.kind)
    && |s.children| == Arity(s.resource.kind)
    && ChildrenOf(s.resource.kind, s.children)
    && match s.worker
       case Idle => true
       case Working(copy) => copy.kind == s.resource.kind
       case Observing(errs, seen) => ErrorsOf(s.resource.kind, errs) && ChildrenOf(s.resource.kind, seen)
       case Patching(errs, seen, current, ins, _) =>
         && ErrorsOf(s.resource.kind, errs) && ChildrenOf(s.resource.kind, seen) && |seen| == Arity(s.resource.kind)
         && current.kind == s.resource.kind
         && (exists pod :: ins == Captured(s.resource.kind, errs, seen, pod))
         && (current.version == s.resource.version ==> current == s.resource)
         && current.version <= s.resource.version
       case Ending(errs) => ErrorsOf(s.resource.kind, errs)
  }

  // ---- Agreement ---------------------------------------------------------------

  predicate ChildReady(c: Option<Child>) {
    c.Some? && match c.value
               case DeploymentChild(d) => DeploymentAvailable(d.conditions)
               case StatefulSetChild(sts) => StatefulSetReady(sts)
  }

  predicate AllReady(cs: seq<Option<Child>>) {
    forall i :: 0 <= i < |cs| ==> ChildReady(cs[i])
  }

  /** Available says what the children are now. */
  predicate Agrees(o: Object, cs: seq<Option<Child>>) {
    Is(o.status.conditions, Available, if AllReady(cs) then StatusTrue else StatusFalse)
  }

  /**
   In the fields of the children: a Cluster or Branch in agreement is Available iff each of its
   Deployments exists and has its first Available condition true, a Pageserver or Safekeeper iff its
   StatefulSet exists, is observed at its generation and has its replicas ready.
   */
  lemma AgreementSpelledOut(o: Object, cs: seq<Option<Child>>)
    requires Watched(o.kind) && |cs| == Arity(o.kind) && ChildrenOf(o.kind, cs) && Agrees(o, cs)
    ensures o.kind == ClusterKind || o.kind == BranchKind ==>
              (Is(o.status.conditions, Available, StatusTrue) <==>
                 forall k :: 0 <= k < |cs| ==> cs[k].Some? && FirstAvailableIsTrue(cs[k].value.deployment.conditions))
    ensures o.kind == PageserverKind || o.kind == SafekeeperKind ==>
              (Is(o.status.conditions, Available, StatusTrue) <==>
                 && cs[0].Some?
                 && var sts := cs[0].value.sts;
                    && sts.observedGeneration >= sts.generation
                    && sts.readyReplicas >= if sts.replicas.Some? then sts.replicas.value else 1)
  {
    forall k | 0 <= k < |cs| ensures ChildOf(o.kind, cs[k]) {
    }
    if o.kind == ClusterKind || o.kind == BranchKind {
      forall k | 0 <= k < |cs| && cs[k].Some?
        ensures DeploymentAvailable(cs[k].value.deployment.conditions) <==> FirstAvailableIsTrue(cs[k].value.deployment.conditions)
      {
        DeploymentAvailableIff(cs[k].value.deployment.conditions);
      }
      assert AllReady(cs) <==> forall k :: 0 <= k < |cs| ==> ChildReady(cs[k]);
    }
  }

  ghost predicate FirstAvailableIsTrue(conds: seq<DeploymentCondition>) {
    exists i :: 0 <= i < |conds| && conds[i] == DeploymentCondition(true, ValueTrue) && forall j :: 0 <= j < i ==> !conds[j].isAvailableType
  }

  predicate Pending(s: System) {
    s.queued || s.delayed || !s.worker.Idle?
  }

  /** A mutation without errors reports exactly the readiness of the children it saw. */
  lemma MutateAgrees(o: Object, seen: seq<Option<Child>>, pod: Read<Pod>, clock: nat -> int)
    requires Watched(o.kind) && |seen| == Arity(o.kind) && ChildrenOf(o.kind, seen)
    ensures Fits(o.kind, Captured(o.kind, NO_ERRORS, seen, pod))
    ensures Agrees(o.(status := Mutate(o, Captured(o.kind, NO_ERRORS, seen, pod), clock)), seen)
  {
    var ins := Captured(o.kind, NO_ERRORS, seen, pod);
    MutateShows(o, ins, clock);
    var conds := Mutate(o, ins, clock).conditions;
    AvailableUpdate(o.kind, seen, pod, o.id);
    var k := if o.kind == ClusterKind then 2 else if o.kind == BranchKind then 3 else 1;
    var u := Updates(ins, o.id)[k];
    assert Shows(conds, u.t, u.status, u.reason);
  }

  lemma AvailableUpdate(kind: Kind, seen: seq<Option<Child>>, pod: Read<Pod>, id: string)
    requires Watched(kind) && |seen| == Arity(kind) && ChildrenOf(kind, seen)
    ensures var us := Updates(Captured(kind, NO_ERRORS, seen, pod), id);
            var k := if kind == ClusterKind then 2 else if kind == BranchKind then 3 else 1;
            k < |us| && us[k].t == Available && us[k].status == if AllReady(seen) then StatusTrue else StatusFalse
  {
    assert ChildOf(kind, seen[0]);
    if kind == ClusterKind {
      assert ChildOf(kind, seen[1]);
      assert AllReady(seen) <==> ChildReady(seen[0]) && ChildReady(seen[1]);
    } else {
      assert AllReady(seen) <==> ChildReady(seen[0]);
    }
  }

  /** Unless the key is queued again, what the worker saw is still so. */
  ghost predicate Inv(s: System) {
    && Shape(s)
    && match s.worker
       case Idle => s.queued || s.delayed || Agrees(s.resource, s.children)
       case Working(_) => true
       case Observing(_, seen) => s.queued || seen == s.children[..|seen|]
       case Patching(_, seen, _, _, _) => s.queued || seen == s.children
       case Ending(errs) => s.queued || errs != NO_ERRORS || Agrees(s.resource, s.children)
  }

  lemma NextKeepsShape(s: System, step: Step)
    requires Shape(s) && Enabled(s, step)
    ensures Shape(Next(s, step))
  {
    hide Mutate;
  }

  lemma NextKeepsInv(s: System, step: Step)
    requires Inv(s) && Enabled(s, step)
    ensures Inv(Next(s, step))
  {
    hide Mutate, Agrees;
    NextKeepsShape(s, step);
    var n := Next(s, step);
    match step
    case Observe =>
      assert s.queued || n.worker.seen == s.children[..|n.worker.seen|];
    case ReadStatus(pod, clock, failed) =>
      var seen := s.worker.seen;
      assert s.children[..|s.children|] == s.children;
      if n.worker.Ending? && !s.queued && s.worker.errs == NO_ERRORS {
        assert seen == s.children;
        MutateAgrees(s.resource, seen, pod, clock);
        assert s.resource.(status := s.resource.status) == s.resource;
      }
    case _ =>
  }

  function Run(s: System, steps: seq<Step>): System
    requires Shape(s) && AllEnabled(s, steps)
    decreases |steps|
  {
    if steps == [] then s
    else
      NextKeepsShape(s, steps[0]);
      Run(Next(s, steps[0]), steps[1..])
  }

  predicate AllEnabled(s: System, steps: seq<Step>)
    requires Shape(s)
    decreases |steps|
  {
    steps != [] ==>
      && Enabled(s, steps[0])
      && (NextKeepsShape(s, steps[0]); AllEnabled(Next(s, steps[0]), steps[1..]))
  }

  /** Every change of the resource or of a child, the operator's own included, puts the key in the queue. */
  lemma ChangesAreQueued(s: System, step: Step)
    requires Shape(s) && Enabled(s, step)
    ensures Next(s, step).resource != s.resource || Next(s, step).children != s.children ==> Next(s, step).queued
  {
    hide Mutate;
  }

  /** The errors of a reconcile are told by the status it writes, whatever the children are. */
  lemma ErrorsAreTold(o: Object, errs: Errors, seen: seq<Option<Child>>, pod: Read<Pod>, clock: nat -> int)
    requires Watched(o.kind) && |seen| == Arity(o.kind) && ChildrenOf(o.kind, seen)
    ensures var conds := Mutate(o, Captured(o.kind, errs, seen, pod), clock).conditions;
            && (o.kind == BranchKind ==>
                  && (Is(conds, TimelineCreated, StatusFalse) <==> errs.timelineErr.Some?)
                  && (Because(conds, ComputeReady, ResourceCreateFailed) <==> errs.createErr.Some?))
            && (o.kind != BranchKind ==> (Because(conds, Available, ResourceCreateFailed) <==> errs.createErr.Some?))
            && (errs != NO_ERRORS && ErrorsOf(o.kind, errs) ==> !Is(conds, Available, StatusTrue))
  {
    hide Mutate, Reflects, Is, Because;
    var ins := Captured(o.kind, errs, seen, pod);
    MutationReflects(o, ins, clock, o.version);
    var told := o.(version := o.version, status := Mutate(o, ins, clock));
    match o.kind
    case ClusterKind => ClusterStatusTells(told, ins);
    case BranchKind => BranchStatusTells(told, ins);
    case _ => StatefulSetStatusTells(told, ins);
  }

  /** A resource that the informer has just listed. */
  ghost predicate Initial(s: System) {
    Shape(s) && s.queued && !s.delayed && s.worker.Idle?
  }

  lemma {:induction false} RunKeepsInv(s: System, steps: seq<Step>)
    requires Inv(s) && AllEnabled(s, steps)
    ensures Inv(Run(s, steps))
    decreases |steps|
  {
    hide Inv, Next, Enabled;
    if steps != [] {
      assert Shape(s) by { InvIsShape(s); }
      NextKeepsInv(s, steps[0]);
      RunKeepsInv(Next(s, steps[0]), steps[1..]);
    }
  }

  lemma InvIsShape(s: System)
    requires Inv(s)
    ensures Shape(s)
  {
  }

  /**
   In every reachable state there is work pending, or the Available condition
   agrees with the readiness the children have now.
   */
  lemma LevelTriggeredAgreement(s: System, steps: seq<Step>)
    requires Initial(s) && AllEnabled(s, steps)
    ensures var t := Run(s, steps); Pending(t) || Agrees(t.resource, t.children)
  {
    RunKeepsInv(s, steps);
  }

  // ---- All resources together ----------------------------------------------------

  /** Every watched resource by its key; each child belongs to the one resource that owns it. */
  type Systems = map<string, System>

  ghost predicate AllInv(m: Systems) {
    forall k :: k in m ==> Inv(m[k])
  }

  ghost predicate Interleaved(m: Systems, steps: seq<(string, Step)>, states: seq<Systems>) {
    && |states| == |steps| + 1 && states[0] == m
    && forall i :: 0 <= i < |steps| ==> Taken(states[i], steps[i].0, steps[i].1, states[i + 1])
  }

  ghost predicate Taken(m: Systems, key: string, step: Step, n: Systems) {
    key in m && Shape(m[key]) && Enabled(m[key], step) && n == m[key := Next(m[key], step)]
  }

  /** The same for all resources at once, whatever the order in which they take steps. */
  lemma {:induction false} EveryResourceAgrees(m: Systems, steps: seq<(string, Step)>, states: seq<Systems>, i: nat, key: string)
    requires forall k :: k in m ==> Initial(m[k])
    requires Interleaved(m, steps, states) && i < |states| && key in m
    ensures key in states[i] && (Pending(states[i][key]) || Agrees(states[i][key].resource, states[i][key].children))
  {
    EveryInv(m, steps, states, i);
    assert Inv(states[i][key]);
  }

  lemma {:induction false} EveryInv(m: Systems, steps: seq<(string, Step)>, states: seq<Systems>, i: nat)
    requires forall k :: k in m ==> Initial(m[k])
    requires Interleaved(m, steps, states) && i < |states|
    ensures states[i].Keys == m.Keys && AllInv(states[i])
  {
    hide Next, Enabled, Agrees;
    if i > 0 {
      EveryInv(m, steps, states, i - 1);
      var (key, step) := steps[i - 1];
      assert Taken(states[i - 1], key, step, states[i]);
      NextKeepsInv(states[i - 1][key], step);
    }
  }
}
