/**
 The status closures as the controllers run them: on a private copy of the
 object, one SetCondition call after the other, each reading the clock.
 */
module StatusClosures {
  import opened Wrappers
  import opened Conditions
  import opened Messages
  import opened Readiness
  import opened Status

  class StatusCopy {
    const generation: int
    const id: string
    const clock: nat -> int
    var observedGeneration: int
    var conditions: seq<Condition>
    var ticks: nat
    ghost var start: seq<Condition>
    ghost var written: seq<Update>

    /** The list is the one copied, with what has been written so far. */
    ghost predicate Valid()
      reads this
    {
      && ticks == |written|
      && conditions == SetAll(start, written, generation, clock, 0)
    }

    constructor (o: Object, clock: nat -> int)
      ensures Valid() && written == [] && start == o.status.conditions
      ensures generation == o.generation && id == o.id && this.clock == clock
      ensures observedGeneration == o.status.observedGeneration
    {
      generation, id, this.clock := o.generation, o.id, clock;
      observedGeneration, conditions, ticks := o.status.observedGeneration, o.status.conditions, 0;
      start, written := o.status.conditions, [];
    }

    /** Update the entry of type t, or append one. */
    method SetCondition(t: ConditionType, status: ConditionStatus, reason: Reason, message: Message)
      requires Valid()
      modifies this
      ensures Valid() && start == old(start) && written == old(written) + [Update(t, status, reason, message)]
      ensures observedGeneration == old(observedGeneration)
    {
      ghost var u := Update(t, status, reason, message);
      SetAllAppend(start, written, u, generation, clock, 0);
      var now := clock(ticks);
      ticks := ticks + 1;
      written := written + [u];
      var k := 0;
      while k < |conditions|
        invariant 0 <= k <= |conditions|
        invariant forall j :: 0 <= j < k ==> conditions[j].t != t
      {
        if conditions[k].t == t {
          break;
        }
        k := k + 1;
      }
      if k == |conditions| {
        conditions := conditions + [Condition(t, status, reason, message, generation, now)];
      } else {
        FindIsFirst(conditions, k);
        var c := conditions[k];
        if c.status != status {
          c := c.(status := status, lastTransitionTime := now);
        }
        c := c.(reason := reason, message := message, observedGeneration := generation);
        conditions := conditions[k := c];
      }
    }

    /** deploymentState: a read-only classification of one child Deployment. */
    method ClassifyDeployment(dep: Read<Deployment>, workload: string) returns (v: Verdict)
      ensures v == DeploymentState(dep, workload)
    {
      if dep.NotFound? {
        return Verdict(StatusFalse, ChildResourceMissing, Text(workload + MSG_DEPLOYMENT_HAS_NOT_BEEN_OBSERVED_YET));
      }
      if dep.ReadFailed? {
        return Verdict(StatusUnknown, ChildResourceMissing, Text(dep.error));
      }
      var available := IsDeploymentAvailable(Some(dep.value));
      if available {
        return Verdict(StatusTrue, AsExpected, Text(workload + MSG_DEPLOYMENT_IS_AVAILABLE));
      }
      return Verdict(StatusFalse, ChildDeploymentNotAvailable, Text(workload + MSG_DEPLOYMENT_IS_NOT_YET_AVAILABLE));
    }

    method MutateCluster(ins: Inputs)
      requires Valid() && written == [] && ins.ClusterInputs?
      modifies this
      ensures Valid() && start == old(start) && written == Updates(ins, id)
      ensures observedGeneration == generation
    {
      var sc := ClassifyDeployment(ins.controller, MSG_STORAGE_CONTROLLER);
      var sb := ClassifyDeployment(ins.broker, MSG_STORAGE_BROKER);
      observedGeneration := generation;
      if ins.clusterErr.Some? {
        SetCondition(Available, StatusFalse, ResourceCreateFailed, Text(ins.clusterErr.value));
        SetCondition(Progressing, StatusTrue, Reconciling, Text(MSG_RETRYING_AFTER_RESOURCE_CREATION_FAILURE));
        SetCondition(StorageControllerAvailable, sc.status, sc.reason, sc.message);
        SetCondition(StorageBrokerAvailable, sb.status, sb.reason, sb.message);
        return;
      }
      SetCondition(StorageControllerAvailable, sc.status, sc.reason, sc.message);
      SetCondition(StorageBrokerAvailable, sb.status, sb.reason, sb.message);
      if sc.status == StatusTrue && sb.status == StatusTrue {
        SetCondition(Available, StatusTrue, AsExpected, Text(MSG_CLUSTER_COMPONENTS_ARE_AVAILABLE));
        SetCondition(Progressing, StatusFalse, AsExpected, Text(MSG_CLUSTER_IS_AT_DESIRED_STATE));
      } else {
        SetCondition(Available, StatusFalse, ChildDeploymentNotAvailable, Text(MSG_ONE_OR_MORE_CLUSTER_COMPONENTS_ARE_NOT_AVAILABLE));
        SetCondition(Progressing, StatusTrue, Reconciling, Text(MSG_WAITING_FOR_CHILD_DEPLOYMENTS_TO_BECOME_AVAILABLE));
      }
    }

    method MutateProject(ins: Inputs)
      requires Valid() && written == [] && ins.ProjectInputs?
      modifies this
      ensures Valid() && start == old(start) && written == Updates(ins, id)
      ensures observedGeneration == generation
    {
      observedGeneration := generation;
      if ins.tenantIDErr.Some? {
        SetCondition(TenantIDAssigned, StatusFalse, TenantIDPending, Text(ins.tenantIDErr.value));
      } else if id != "" {
        SetCondition(TenantIDAssigned, StatusTrue, AsExpected, Text(MSG_TENANT_ID_IS_ASSIGNED));
      } else {
        SetCondition(TenantIDAssigned, StatusFalse, TenantIDPending, Text(MSG_TENANT_ID_HAS_NOT_BEEN_GENERATED_YET));
      }
      if ins.tenantIDErr.Some? {
        SetCondition(Attached, StatusFalse, TenantIDPending, Text(MSG_TENANT_ID_ASSIGNMENT_FAILED));
      } else if ins.attachErr.Some? {
        var reason := AttachFailed;
        if ins.attachErr.value.isConnectionError {
          reason := StorageControllerUnreachable;
        }
        SetCondition(Attached, StatusFalse, reason, Text(ins.attachErr.value.text));
      } else if id == "" {
        SetCondition(Attached, StatusFalse, TenantIDPending, Text(MSG_TENANT_ID_HAS_NOT_BEEN_ASSIGNED));
      } else {
        SetCondition(Attached, StatusTrue, AsExpected, Text(MSG_TENANT_ATTACHED_ON_STORAGE_CONTROLLER));
      }
      if ins.tenantIDErr.None? && ins.attachErr.None? && id != "" {
        SetCondition(Available, StatusTrue, AsExpected, Text(MSG_PROJECT_IS_AVAILABLE));
        SetCondition(Progressing, StatusFalse, AsExpected, Text(MSG_PROJECT_IS_AT_DESIRED_STATE));
      } else {
        SetCondition(Available, StatusFalse, Reconciling, Text(MSG_PROJECT_IS_NOT_YET_AVAILABLE));
        SetCondition(Progressing, StatusTrue, Reconciling, Text(MSG_WORKING_TOWARD_DESIRED_STATE));
      }
    }

    /** The switch of the branch closure over its three compute variables. */
    method ClassifyCompute(createErr: Option<string>, dep: Read<Deployment>) returns (v: Verdict)
      ensures v == ComputeVerdict(createErr, dep)
    {
      var computeReady := StatusFalse;
      var computeReason := ChildDeploymentNotAvailable;
      var computeMessage := Text(MSG_COMPUTE_DEPLOYMENT_IS_NOT_AVAILABLE_YET);
      if createErr.Some? {
        computeReason := ResourceCreateFailed;
        computeMessage := Text(createErr.value);
      } else if dep.NotFound? {
        computeReason := ChildResourceMissing;
        computeMessage := Text(MSG_COMPUTE_DEPLOYMENT_HAS_NOT_BEEN_OBSERVED_YET);
      } else if dep.ReadFailed? {
        computeReady := StatusUnknown;
        computeReason := ChildResourceMissing;
        computeMessage := Text(dep.error);
      } else {
        var available := IsDeploymentAvailable(Some(dep.value));
        if available {
          computeReady := StatusTrue;
          computeReason := AsExpected;
          computeMessage := Text(MSG_COMPUTE_DEPLOYMENT_IS_AVAILABLE);
        }
      }
      return Verdict(computeReady, computeReason, computeMessage);
    }

    method MutateBranch(ins: Inputs)
      requires Valid() && written == [] && ins.BranchInputs?
      modifies this
      ensures Valid() && start == old(start) && written == Updates(ins, id)
      ensures observedGeneration == generation
    {
      hide SetAll;
      observedGeneration := generation;
      if id != "" {
        SetCondition(TimelineIDAssigned, StatusTrue, AsExpected, Text(MSG_TIMELINE_ID_IS_ASSIGNED));
      } else {
        SetCondition(TimelineIDAssigned, StatusFalse, TimelineIDPending, Text(MSG_TIMELINE_ID_HAS_NOT_BEEN_GENERATED_YET));
      }
      if ins.timelineErr.Some? {
        SetCondition(TimelineCreated, StatusFalse, TimelineCreationFailed, Text(ins.timelineErr.value));
      } else {
        SetCondition(TimelineCreated, StatusTrue, AsExpected, Text(MSG_TIMELINE_CREATED_ON_STORAGE_CONTROLLER));
      }
      var v := ClassifyCompute(ins.createErr, ins.compute);
      var computeReady, computeReason, computeMessage := v.status, v.reason, v.message;
      SetCondition(ComputeReady, computeReady, computeReason, computeMessage);
      SetBranchOverall(ins.timelineErr.None? && computeReady == StatusTrue, computeReason, computeMessage);
    }

    /** The end of the branch closure: Available and Progressing. */
    method SetBranchOverall(up: bool, reason: Reason, message: Message)
      requires Valid()
      modifies this
      ensures Valid() && start == old(start)
      ensures written == old(written) + BranchOverall(up, reason, message)
      ensures observedGeneration == old(observedGeneration)
    {
      hide SetAll;
      if up {
        SetCondition(Available, StatusTrue, AsExpected, Text(MSG_BRANCH_IS_AVAILABLE));
        SetCondition(Progressing, StatusFalse, AsExpected, Text(MSG_BRANCH_IS_AT_DESIRED_STATE));
      } else {
        SetCondition(Available, StatusFalse, reason, message);
        SetCondition(Progressing, StatusTrue, Reconciling, Text(MSG_WORKING_TOWARD_DESIRED_STATE));
      }
    }

    method MutateStatefulSetBacked(ins: Inputs)
      requires Valid() && written == [] && ins.StatefulSetInputs?
      modifies this
      ensures Valid() && start == old(start) && written == Updates(ins, id)
      ensures observedGeneration == generation
    {
      hide SetAll;
      observedGeneration := generation;
      if ins.reconcileErr.Some? {
        var msg := Text(ins.reconcileErr.value);
        SetCondition(ResourcesReady, StatusFalse, ResourceCreateFailed, msg);
        SetCondition(Available, StatusFalse, ResourceCreateFailed, msg);
        SetCondition(Progressing, StatusTrue, Reconciling, Text(MSG_RETRYING_AFTER_RESOURCE_CREATION_FAILURE));
        return;
      }
      SetCondition(ResourcesReady, StatusTrue, AsExpected, Text(MSG_CHILD_RESOURCES_RECONCILED));
      if ins.sts.NotFound? {
        SetCondition(Available, StatusFalse, ChildResourceMissing, Text(ins.workload + MSG_STATEFULSET_HAS_NOT_BEEN_OBSERVED_YET));
        SetCondition(Progressing, StatusTrue, Reconciling, Text(MSG_WAITING_FOR_CHILD_STATEFULSET_TO_APPEAR));
        return;
      }
      if ins.sts.ReadFailed? {
        SetCondition(Available, StatusUnknown, ChildResourceMissing, Text(ins.sts.error));
        SetCondition(Progressing, StatusTrue, Reconciling, Text(MSG_COULD_NOT_READ_CHILD_STATEFULSET));
        return;
      }
      var ready := IsStatefulSetReady(Some(ins.sts.value));
      if ready {
        SetCondition(Available, StatusTrue, AsExpected, Text(ins.workload + MSG_STATEFULSET_IS_READY));
        SetCondition(Progressing, StatusFalse, AsExpected, Text(ins.workload + MSG_IS_AT_DESIRED_STATE));
        return;
      }
      var reason, message := "", Text("");
      if ins.pod.Found? {
        reason, message := PodNotReadyDetail(Some(ins.pod.value));
      }
      var stated := Kubelet(reason);
      if reason == "" {
        stated := ChildPodNotReady;
        message := Text(ins.workload + MSG_STATEFULSET_IS_NOT_READY);
      }
      SetCondition(Available, StatusFalse, stated, message);
      SetCondition(Progressing, StatusTrue, Reconciling, Text(MSG_WAITING_FOR + ins.workload + MSG_STATEFULSET_READINESS));
    }
  }

  /** mutate(updated): the closure of the object's kind, run on a copy. */
  method RunClosure(o: Object, ins: Inputs, clock: nat -> int) returns (s: Status)
    ensures s == Mutate(o, ins, clock)
  {
    var copy := new StatusCopy(o, clock);
    match ins {
      case ClusterInputs(_, _, _) => copy.MutateCluster(ins);
      case ProjectInputs(_, _) => copy.MutateProject(ins);
      case BranchInputs(_, _, _) => copy.MutateBranch(ins);
      case StatefulSetInputs(_, _, _, _) => copy.MutateStatefulSetBacked(ins);
    }
    return Status(copy.observedGeneration, copy.conditions);
  }
}
