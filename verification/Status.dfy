/**
 The status mutations of the five controllers. Each is a fixed sequence of
 SetCondition calls under branching; it is given here as a list of updates
 computed from what the reconcile observed, and as methods that write the
 conditions one by one.
 */
module Status {
  import opened Wrappers
  import opened Conditions
  import opened Messages
  import opened Readiness

  datatype Kind = ClusterKind | ProjectKind | BranchKind | PageserverKind | SafekeeperKind

  datatype Status = Status(observedGeneration: int, conditions: seq<Condition>)

  /** A custom resource; id is the tenant or timeline ID, empty while not assigned. */
  datatype Object = Object(kind: Kind, version: nat, generation: nat, id: string, status: Status)

  datatype AttachError = AttachError(isConnectionError: bool, text: string)

  /** Everything a status closure captures: error values and child reads. */
  datatype Inputs =
    | ClusterInputs(clusterErr: Option<string>, controller: Read<Deployment>, broker: Read<Deployment>)
    | ProjectInputs(tenantIDErr: Option<string>, attachErr: Option<AttachError>)
    | BranchInputs(timelineErr: Option<string>, createErr: Option<string>, compute: Read<Deployment>)
    | StatefulSetInputs(workload: string, reconcileErr: Option<string>, sts: Read<StatefulSet>, pod: Read<Pod>)

  predicate Fits(kind: Kind, ins: Inputs) {
    match kind
    case ClusterKind => ins.ClusterInputs?
    case ProjectKind => ins.ProjectInputs?
    case BranchKind => ins.BranchInputs?
    case PageserverKind => ins.StatefulSetInputs? && ins.workload == "Pageserver"
    case SafekeeperKind => ins.StatefulSetInputs? && ins.workload == "Safekeeper"
  }

  // ---- The updates of each kind ---------------------------------------------

  datatype Verdict = Verdict(status: ConditionStatus, reason: Reason, message: Message)

  function DeploymentState(dep: Read<Deployment>, workload: string): Verdict {
    match dep
    case NotFound => Verdict(StatusFalse, ChildResourceMissing, Text(workload + MSG_DEPLOYMENT_HAS_NOT_BEEN_OBSERVED_YET))
    case ReadFailed(e) => Verdict(StatusUnknown, ChildResourceMissing, Text(e))
    case Found(d) =>
      if DeploymentAvailable(d.conditions)
      then Verdict(StatusTrue, AsExpected, Text(workload + MSG_DEPLOYMENT_IS_AVAILABLE))
      else Verdict(StatusFalse, ChildDeploymentNotAvailable, Text(workload + MSG_DEPLOYMENT_IS_NOT_YET_AVAILABLE))
  }

  function Write(t: ConditionType, v: Verdict): Update {
    Update(t, v.status, v.reason, v.message)
  }

  function ClusterUpdates(ins: Inputs): seq<Update>
    requires ins.ClusterInputs?
  {
    var sc := DeploymentState(ins.controller, MSG_STORAGE_CONTROLLER);
    var sb := DeploymentState(ins.broker, MSG_STORAGE_BROKER);
    if ins.clusterErr.Some? then
      [ Write(Available, Verdict(StatusFalse, ResourceCreateFailed, Text(ins.clusterErr.value))),
        Write(Progressing, Verdict(StatusTrue, Reconciling, Text(MSG_RETRYING_AFTER_RESOURCE_CREATION_FAILURE))),
        Write(StorageControllerAvailable, sc),
        Write(StorageBrokerAvailable, sb) ]
    else
      var up := sc.status == StatusTrue && sb.status == StatusTrue;
      [ Write(StorageControllerAvailable, sc),
        Write(StorageBrokerAvailable, sb),
        Write(Available, if up then Verdict(StatusTrue, AsExpected, Text(MSG_CLUSTER_COMPONENTS_ARE_AVAILABLE))
                         else Verdict(StatusFalse, ChildDeploymentNotAvailable, Text(MSG_ONE_OR_MORE_CLUSTER_COMPONENTS_ARE_NOT_AVAILABLE))),
        Write(Progressing, if up then Verdict(StatusFalse, AsExpected, Text(MSG_CLUSTER_IS_AT_DESIRED_STATE))
                           else Verdict(StatusTrue, Reconciling, Text(MSG_WAITING_FOR_CHILD_DEPLOYMENTS_TO_BECOME_AVAILABLE))) ]
  }

  function TenantVerdict(ins: Inputs, id: string): Verdict
    requires ins.ProjectInputs?
  {
    if ins.tenantIDErr.Some? then Verdict(StatusFalse, TenantIDPending, Text(ins.tenantIDErr.value))
    else if id != "" then Verdict(StatusTrue, AsExpected, Text(MSG_TENANT_ID_IS_ASSIGNED))
    else Verdict(StatusFalse, TenantIDPending, Text(MSG_TENANT_ID_HAS_NOT_BEEN_GENERATED_YET))
  }

  function AttachVerdict(ins: Inputs, id: string): Verdict
    requires ins.ProjectInputs?
  {
    if ins.tenantIDErr.Some? then Verdict(StatusFalse, TenantIDPending, Text(MSG_TENANT_ID_ASSIGNMENT_FAILED))
    else if ins.attachErr.Some? then
      Verdict(StatusFalse,
              if ins.attachErr.value.isConnectionError then StorageControllerUnreachable else AttachFailed,
              Text(ins.attachErr.value.text))
    else if id == "" then Verdict(StatusFalse, TenantIDPending, Text(MSG_TENANT_ID_HAS_NOT_BEEN_ASSIGNED))
    else Verdict(StatusTrue, AsExpected, Text(MSG_TENANT_ATTACHED_ON_STORAGE_CONTROLLER))
  }

  function ProjectUpdates(ins: Inputs, id: string): seq<Update>
    requires ins.ProjectInputs?
  {
    var up := ins.tenantIDErr.None? && ins.attachErr.None? && id != "";
    [ Write(TenantIDAssigned, TenantVerdict(ins, id)),
      Write(Attached, AttachVerdict(ins, id)),
      Write(Available, if up then Verdict(StatusTrue, AsExpected, Text(MSG_PROJECT_IS_AVAILABLE))
                       else Verdict(StatusFalse, Reconciling, Text(MSG_PROJECT_IS_NOT_YET_AVAILABLE))),
      Write(Progressing, if up then Verdict(StatusFalse, AsExpected, Text(MSG_PROJECT_IS_AT_DESIRED_STATE))
                         else Verdict(StatusTrue, Reconciling, Text(MSG_WORKING_TOWARD_DESIRED_STATE))) ]
  }

  function TimelineIDVerdict(id: string): Verdict {
    if id != "" then Verdict(StatusTrue, AsExpected, Text(MSG_TIMELINE_ID_IS_ASSIGNED))
    else Verdict(StatusFalse, TimelineIDPending, Text(MSG_TIMELINE_ID_HAS_NOT_BEEN_GENERATED_YET))
  }

  function TimelineVerdict(err: Option<string>): Verdict {
    if err.Some? then Verdict(StatusFalse, TimelineCreationFailed, Text(err.value))
    else Verdict(StatusTrue, AsExpected, Text(MSG_TIMELINE_CREATED_ON_STORAGE_CONTROLLER))
  }

  function ComputeVerdict(createErr: Option<string>, dep: Read<Deployment>): Verdict {
    if createErr.Some? then Verdict(StatusFalse, ResourceCreateFailed, Text(createErr.value))
    else
      match dep
      case NotFound => Verdict(StatusFalse, ChildResourceMissing, Text(MSG_COMPUTE_DEPLOYMENT_HAS_NOT_BEEN_OBSERVED_YET))
      case ReadFailed(e) => Verdict(StatusUnknown, ChildResourceMissing, Text(e))
      case Found(d) =>
        if DeploymentAvailable(d.conditions)
        then Verdict(StatusTrue, AsExpected, Text(MSG_COMPUTE_DEPLOYMENT_IS_AVAILABLE))
        else Verdict(StatusFalse, ChildDeploymentNotAvailable, Text(MSG_COMPUTE_DEPLOYMENT_IS_NOT_AVAILABLE_YET))
  }

  function BranchUpdates(ins: Inputs, id: string): seq<Update>
    requires ins.BranchInputs?
  {
    var compute := ComputeVerdict(ins.createErr, ins.compute);
    var up := ins.timelineErr.None? && compute.status == StatusTrue;
    [ Write(TimelineIDAssigned, TimelineIDVerdict(id)),
      Write(TimelineCreated, TimelineVerdict(ins.timelineErr)),
      Write(ComputeReady, compute) ] + BranchOverall(up, compute.reason, compute.message)
  }

  function BranchOverall(up: bool, reason: Reason, message: Message): seq<Update> {
    [ Write(Available, if up then Verdict(StatusTrue, AsExpected, Text(MSG_BRANCH_IS_AVAILABLE)) else Verdict(StatusFalse, reason, message)),
      Write(Progressing, if up then Verdict(StatusFalse, AsExpected, Text(MSG_BRANCH_IS_AT_DESIRED_STATE))
                         else Verdict(StatusTrue, Reconciling, Text(MSG_WORKING_TOWARD_DESIRED_STATE))) ]
  }

  /** The caller replaces an empty detail by its own reason. */
  function NotReadyVerdict(workload: string, pod: Read<Pod>): Verdict {
    var d := if pod.Found? then PodDetail(Some(pod.value)) else NO_DETAIL;
    if d.reason == ""
    then Verdict(StatusFalse, ChildPodNotReady, Text(workload + MSG_STATEFULSET_IS_NOT_READY))
    else Verdict(StatusFalse, Kubelet(d.reason), d.message)
  }

  function StatefulSetAvailable(ins: Inputs): Verdict
    requires ins.StatefulSetInputs?
  {
    if ins.reconcileErr.Some? then Verdict(StatusFalse, ResourceCreateFailed, Text(ins.reconcileErr.value))
    else
      match ins.sts
      case NotFound => Verdict(StatusFalse, ChildResourceMissing, Text(ins.workload + MSG_STATEFULSET_HAS_NOT_BEEN_OBSERVED_YET))
      case ReadFailed(e) => Verdict(StatusUnknown, ChildResourceMissing, Text(e))
      case Found(sts) =>
        if StatefulSetReady(sts) then Verdict(StatusTrue, AsExpected, Text(ins.workload + MSG_STATEFULSET_IS_READY))
        else NotReadyVerdict(ins.workload, ins.pod)
  }

  function StatefulSetProgressing(ins: Inputs): Verdict
    requires ins.StatefulSetInputs?
  {
    if ins.reconcileErr.Some? then Verdict(StatusTrue, Reconciling, Text(MSG_RETRYING_AFTER_RESOURCE_CREATION_FAILURE))
    else
      match ins.sts
      case NotFound => Verdict(StatusTrue, Reconciling, Text(MSG_WAITING_FOR_CHILD_STATEFULSET_TO_APPEAR))
      case ReadFailed(e) => Verdict(StatusTrue, Reconciling, Text(MSG_COULD_NOT_READ_CHILD_STATEFULSET))
      case Found(sts) =>
        if StatefulSetReady(sts) then Verdict(StatusFalse, AsExpected, Text(ins.workload + MSG_IS_AT_DESIRED_STATE))
        else Verdict(StatusTrue, Reconciling, Text(MSG_WAITING_FOR + ins.workload + MSG_STATEFULSET_READINESS))
  }

  function StatefulSetUpdates(ins: Inputs): seq<Update>
    requires ins.StatefulSetInputs?
  {
    [ Write(ResourcesReady, if ins.reconcileErr.Some? then Verdict(StatusFalse, ResourceCreateFailed, Text(ins.reconcileErr.value))
                            else Verdict(StatusTrue, AsExpected, Text(MSG_CHILD_RESOURCES_RECONCILED))),
      Write(Available, StatefulSetAvailable(ins)),
      Write(Progressing, StatefulSetProgressing(ins)) ]
  }

  function Updates(ins: Inputs, id: string): seq<Update> {
    match ins
    case ClusterInputs(_, _, _) => ClusterUpdates(ins)
    case ProjectInputs(_, _) => ProjectUpdates(ins, id)
    case BranchInputs(_, _, _) => BranchUpdates(ins, id)
    case StatefulSetInputs(_, _, _, _) => StatefulSetUpdates(ins)
  }

  /** The status after the closure ran on o; its k-th SetCondition reads clock(k). */
  function Mutate(o: Object, ins: Inputs, clock: nat -> int): Status {
    Status(o.generation, SetAll(o.status.conditions, Updates(ins, o.id), o.generation, clock, 0))
  }

  // ---- What every mutation guarantees ---------------------------------------

  function KindTypes(kind: Kind): set<ConditionType> {
    match kind
    case ClusterKind => {Available, Progressing, StorageControllerAvailable, StorageBrokerAvailable}
    case ProjectKind => {Available, Progressing, TenantIDAssigned, Attached}
    case BranchKind => {Available, Progressing, TimelineIDAssigned, TimelineCreated, ComputeReady}
    case PageserverKind => {Available, Progressing, ResourcesReady}
    case SafekeeperKind => {Available, Progressing, ResourcesReady}
  }

  lemma ClusterTypes(ins: Inputs)
    requires ins.ClusterInputs?
    ensures DistinctTypes(ClusterUpdates(ins)) && Types(ClusterUpdates(ins)) == KindTypes(ClusterKind)
  {
    var us := ClusterUpdates(ins);
    assert us == [us[0], us[1], us[2], us[3]];
    assert Types(us) == {us[0].t, us[1].t, us[2].t, us[3].t};
  }

  lemma ProjectTypes(ins: Inputs, id: string)
    requires ins.ProjectInputs?
    ensures DistinctTypes(ProjectUpdates(ins, id)) && Types(ProjectUpdates(ins, id)) == KindTypes(ProjectKind)
  {
    var us := ProjectUpdates(ins, id);
    assert us == [us[0], us[1], us[2], us[3]];
    assert Types(us) == {us[0].t, us[1].t, us[2].t, us[3].t};
  }

  lemma BranchTypes(ins: Inputs, id: string)
    requires ins.BranchInputs?
    ensures DistinctTypes(BranchUpdates(ins, id)) && Types(BranchUpdates(ins, id)) == KindTypes(BranchKind)
  {
    var us := BranchUpdates(ins, id);
    assert us == [us[0], us[1], us[2], us[3], us[4]];
    assert Types(us) == {us[0].t, us[1].t, us[2].t, us[3].t, us[4].t};
  }

  lemma StatefulSetTypes(ins: Inputs)
    requires ins.StatefulSetInputs?
    ensures DistinctTypes(StatefulSetUpdates(ins))
    ensures Types(StatefulSetUpdates(ins)) == {Available, Progressing, ResourcesReady}
  {
    var us := StatefulSetUpdates(ins);
    assert us == [us[0], us[1], us[2]];
    assert Types(us) == {us[0].t, us[1].t, us[2].t};
  }

  /** Whichever branches are taken, a mutation sets each type of its kind exactly once. */
  lemma UpdatesCoverTheKind(kind: Kind, ins: Inputs, id: string)
    requires Fits(kind, ins)
    ensures DistinctTypes(Updates(ins, id))
    ensures Types(Updates(ins, id)) == KindTypes(kind)
  {
    match ins
    case ClusterInputs(_, _, _) => ClusterTypes(ins);
    case ProjectInputs(_, _) => ProjectTypes(ins, id);
    case BranchInputs(_, _, _) => BranchTypes(ins, id);
    case StatefulSetInputs(_, _, _, _) => StatefulSetTypes(ins);
  }

  /** Writing the status again from the same observations, at any later time, changes nothing. */
  lemma MutateIsIdempotent(o: Object, ins: Inputs, clock: nat -> int, version: nat, later: nat -> int)
    requires Fits(o.kind, ins)
    ensures var written := o.(version := version, status := Mutate(o, ins, clock));
            Mutate(written, ins, later) == written.status
  {
    UpdatesCoverTheKind(o.kind, ins, o.id);
    SetAllIsIdempotent(o.status.conditions, Updates(ins, o.id), o.generation, clock, 0, later, 0);
  }

  predicate Is(conds: seq<Condition>, t: ConditionType, status: ConditionStatus) {
    match Lookup(conds, t)
    case None => false
    case Some(c) => c.status == status
  }

  /** The value a condition has when all is well. */
  function Healthy(t: ConditionType): ConditionStatus {
    if t == Progressing then StatusFalse else StatusTrue
  }

  /** The branch that is reported unavailable with the reason of its healthy compute. */
  predicate TimelineFailedComputeUp(kind: Kind, conds: seq<Condition>) {
    kind == BranchKind && Is(conds, TimelineCreated, StatusFalse) && Is(conds, ComputeReady, StatusTrue)
  }

  ghost predicate ReasonsCoherent(kind: Kind, conds: seq<Condition>) {
    forall t :: t in KindTypes(kind) ==>
      Lookup(conds, t).Some? &&
      var c := Lookup(conds, t).value;
      && c.reason != Kubelet("")
      && (c.reason == AsExpected <==> c.status == Healthy(t) || (t == Available && TimelineFailedComputeUp(kind, conds)))
  }

  ghost predicate Coherent(kind: Kind, conds: seq<Condition>) {
    && Lookup(conds, Available).Some? && Lookup(conds, Progressing).Some?
    && (Is(conds, Available, StatusTrue) <==> Is(conds, Progressing, StatusFalse))
    && match kind
       case ClusterKind =>
         Is(conds, Available, StatusTrue) ==> Is(conds, StorageControllerAvailable, StatusTrue) && Is(conds, StorageBrokerAvailable, StatusTrue)
       case ProjectKind =>
         Is(conds, Available, StatusTrue) <==> Is(conds, TenantIDAssigned, StatusTrue) && Is(conds, Attached, StatusTrue)
       case BranchKind =>
         Is(conds, Available, StatusTrue) <==> Is(conds, TimelineCreated, StatusTrue) && Is(conds, ComputeReady, StatusTrue)
       case PageserverKind => Is(conds, Available, StatusTrue) ==> Is(conds, ResourcesReady, StatusTrue)
       case SafekeeperKind => Is(conds, Available, StatusTrue) ==> Is(conds, ResourcesReady, StatusTrue)
  }

  /** The entry for t shows this status and reason. */
  ghost predicate Shows(conds: seq<Condition>, t: ConditionType, status: ConditionStatus, reason: Reason) {
    var l := Lookup(conds, t);
    l.Some? && l.value.status == status && l.value.reason == reason
  }

  /** A verdict on a condition that is healthy when True. */
  predicate Sound(v: Verdict) {
    v.reason != Kubelet("") && (v.reason == AsExpected <==> v.status == StatusTrue)
  }

  lemma VerdictsAreSound(ins: Inputs, id: string)
    ensures ins.ClusterInputs? ==> Sound(DeploymentState(ins.controller, MSG_STORAGE_CONTROLLER)) && Sound(DeploymentState(ins.broker, MSG_STORAGE_BROKER))
    ensures ins.ProjectInputs? ==> Sound(TenantVerdict(ins, id)) && Sound(AttachVerdict(ins, id))
    ensures ins.BranchInputs? ==> Sound(TimelineIDVerdict(id)) && Sound(TimelineVerdict(ins.timelineErr)) && Sound(ComputeVerdict(ins.createErr, ins.compute))
    ensures ins.StatefulSetInputs? ==> Sound(StatefulSetAvailable(ins))
  {
  }

  lemma MutateShows(o: Object, ins: Inputs, clock: nat -> int)
    requires Fits(o.kind, ins)
    ensures forall i :: 0 <= i < |Updates(ins, o.id)| ==>
              var u := Updates(ins, o.id)[i]; Shows(Mutate(o, ins, clock).conditions, u.t, u.status, u.reason)
  {
    var us := Updates(ins, o.id);
    UpdatesCoverTheKind(o.kind, ins, o.id);
    SetAllHolds(o.status.conditions, us, o.generation, clock, 0);
    forall i | 0 <= i < |us| ensures Shows(Mutate(o, ins, clock).conditions, us[i].t, us[i].status, us[i].reason) {
      assert Holds(Mutate(o, ins, clock).conditions, us[i], o.generation);
    }
  }

  lemma ClusterCoherent(conds: seq<Condition>, failed: bool, sc: Verdict, sb: Verdict)
    requires Sound(sc) && Sound(sb)
    requires Shows(conds, StorageControllerAvailable, sc.status, sc.reason) && Shows(conds, StorageBrokerAvailable, sb.status, sb.reason)
    requires var up := !failed && sc.status == StatusTrue && sb.status == StatusTrue;
             if up then Shows(conds, Available, StatusTrue, AsExpected) && Shows(conds, Progressing, StatusFalse, AsExpected)
             else Shows(conds, Progressing, StatusTrue, Reconciling)
                  && Shows(conds, Available, StatusFalse, if failed then ResourceCreateFailed else ChildDeploymentNotAvailable)
    ensures Coherent(ClusterKind, conds) && ReasonsCoherent(ClusterKind, conds)
  {
  }

  lemma ProjectCoherent(conds: seq<Condition>, tenant: Verdict, attach: Verdict)
    requires Sound(tenant) && Sound(attach)
    requires Shows(conds, TenantIDAssigned, tenant.status, tenant.reason) && Shows(conds, Attached, attach.status, attach.reason)
    requires if tenant.status == StatusTrue && attach.status == StatusTrue
             then Shows(conds, Available, StatusTrue, AsExpected) && Shows(conds, Progressing, StatusFalse, AsExpected)
             else Shows(conds, Available, StatusFalse, Reconciling) && Shows(conds, Progressing, StatusTrue, Reconciling)
    ensures Coherent(ProjectKind, conds) && ReasonsCoherent(ProjectKind, conds)
  {
  }

  lemma BranchCoherent(conds: seq<Condition>, identified: Verdict, created: Verdict, compute: Verdict)
    requires Sound(identified) && Sound(created) && Sound(compute) && created.status != StatusUnknown
    requires Shows(conds, TimelineIDAssigned, identified.status, identified.reason)
    requires Shows(conds, TimelineCreated, created.status, created.reason)
    requires Shows(conds, ComputeReady, compute.status, compute.reason)
    requires if created.status == StatusTrue && compute.status == StatusTrue
             then Shows(conds, Available, StatusTrue, AsExpected) && Shows(conds, Progressing, StatusFalse, AsExpected)
             else Shows(conds, Available, StatusFalse, compute.reason) && Shows(conds, Progressing, StatusTrue, Reconciling)
    ensures Coherent(BranchKind, conds) && ReasonsCoherent(BranchKind, conds)
  {
  }

  lemma StatefulSetCoherent(kind: Kind, conds: seq<Condition>, failed: bool, available: Verdict)
    requires kind == PageserverKind || kind == SafekeeperKind
    requires Sound(available) && (failed ==> available.status == StatusFalse)
    requires Shows(conds, ResourcesReady, if failed then StatusFalse else StatusTrue, if failed then ResourceCreateFailed else AsExpected)
    requires Shows(conds, Available, available.status, available.reason)
    requires if available.status == StatusTrue then Shows(conds, Progressing, StatusFalse, AsExpected)
             else Shows(conds, Progressing, StatusTrue, Reconciling)
    ensures Coherent(kind, conds) && ReasonsCoherent(kind, conds)
  {
  }

  /** Every status the operator writes is coherent, whatever it observed. */
  lemma MutateIsCoherent(o: Object, ins: Inputs, clock: nat -> int)
    requires Fits(o.kind, ins)
    ensures Coherent(o.kind, Mutate(o, ins, clock).conditions)
    ensures ReasonsCoherent(o.kind, Mutate(o, ins, clock).conditions)
  {
    match ins
    case ClusterInputs(_, _, _) => ClusterMutation(o, ins, clock);
    case ProjectInputs(_, _) => ProjectMutation(o, ins, clock);
    case BranchInputs(_, _, _) => BranchMutation(o, ins, clock);
    case StatefulSetInputs(_, _, _, _) => StatefulSetMutation(o, ins, clock);
  }

  lemma ClusterMutation(o: Object, ins: Inputs, clock: nat -> int)
    requires o.kind == ClusterKind && Fits(o.kind, ins)
    ensures Coherent(o.kind, Mutate(o, ins, clock).conditions) && ReasonsCoherent(o.kind, Mutate(o, ins, clock).conditions)
  {
    var conds := Mutate(o, ins, clock).conditions;
    MutateShows(o, ins, clock);
    VerdictsAreSound(ins, o.id);
    var us := ClusterUpdates(ins);
    assert Shows(conds, us[0].t, us[0].status, us[0].reason) && Shows(conds, us[1].t, us[1].status, us[1].reason);
    assert Shows(conds, us[2].t, us[2].status, us[2].reason) && Shows(conds, us[3].t, us[3].status, us[3].reason);
    ClusterCoherent(conds, ins.clusterErr.Some?, DeploymentState(ins.controller, MSG_STORAGE_CONTROLLER), DeploymentState(ins.broker, MSG_STORAGE_BROKER));
  }

  lemma ProjectMutation(o: Object, ins: Inputs, clock: nat -> int)
    requires o.kind == ProjectKind && Fits(o.kind, ins)
    ensures Coherent(o.kind, Mutate(o, ins, clock).conditions) && ReasonsCoherent(o.kind, Mutate(o, ins, clock).conditions)
  {
    var conds := Mutate(o, ins, clock).conditions;
    MutateShows(o, ins, clock);
    VerdictsAreSound(ins, o.id);
    var us := ProjectUpdates(ins, o.id);
    assert Shows(conds, us[0].t, us[0].status, us[0].reason) && Shows(conds, us[1].t, us[1].status, us[1].reason);
    assert Shows(conds, us[2].t, us[2].status, us[2].reason) && Shows(conds, us[3].t, us[3].status, us[3].reason);
    ProjectCoherent(conds, TenantVerdict(ins, o.id), AttachVerdict(ins, o.id));
  }

  lemma BranchMutation(o: Object, ins: Inputs, clock: nat -> int)
    requires o.kind == BranchKind && Fits(o.kind, ins)
    ensures Coherent(o.kind, Mutate(o, ins, clock).conditions) && ReasonsCoherent(o.kind, Mutate(o, ins, clock).conditions)
  {
    var conds := Mutate(o, ins, clock).conditions;
    MutateShows(o, ins, clock);
    VerdictsAreSound(ins, o.id);
    var us := BranchUpdates(ins, o.id);
    assert Shows(conds, us[0].t, us[0].status, us[0].reason) && Shows(conds, us[1].t, us[1].status, us[1].reason);
    assert Shows(conds, us[2].t, us[2].status, us[2].reason) && Shows(conds, us[3].t, us[3].status, us[3].reason);
    assert Shows(conds, us[4].t, us[4].status, us[4].reason);
    BranchCoherent(conds, TimelineIDVerdict(o.id), TimelineVerdict(ins.timelineErr), ComputeVerdict(ins.createErr, ins.compute));
  }

  lemma StatefulSetMutation(o: Object, ins: Inputs, clock: nat -> int)
    requires ins.StatefulSetInputs? && Fits(o.kind, ins)
    ensures Coherent(o.kind, Mutate(o, ins, clock).conditions) && ReasonsCoherent(o.kind, Mutate(o, ins, clock).conditions)
  {
    var conds := Mutate(o, ins, clock).conditions;
    MutateShows(o, ins, clock);
    VerdictsAreSound(ins, o.id);
    var us := StatefulSetUpdates(ins);
    assert Shows(conds, us[0].t, us[0].status, us[0].reason) && Shows(conds, us[1].t, us[1].status, us[1].reason);
    assert Shows(conds, us[2].t, us[2].status, us[2].reason);
    StatefulSetCoherent(o.kind, conds, ins.reconcileErr.Some?, StatefulSetAvailable(ins));
  }

  // ---- What a status tells -----------------------------------------------------

  /** The status of o is up to date and holds every update that the observations call for. */
  ghost predicate Reflects(o: Object, ins: Inputs) {
    && Fits(o.kind, ins)
    && o.status.observedGeneration == o.generation
    && Coherent(o.kind, o.status.conditions) && ReasonsCoherent(o.kind, o.status.conditions)
    && forall i :: 0 <= i < |Updates(ins, o.id)| ==> Holds(o.status.conditions, Updates(ins, o.id)[i], o.generation)
  }

  lemma MutationReflects(o: Object, ins: Inputs, clock: nat -> int, version: nat)
    requires Fits(o.kind, ins)
    ensures Reflects(o.(version := version, status := Mutate(o, ins, clock)), ins)
  {
    hide Coherent, ReasonsCoherent, Updates;
    MutateIsCoherent(o, ins, clock);
    UpdatesCoverTheKind(o.kind, ins, o.id);
    SetAllHolds(o.status.conditions, Updates(ins, o.id), o.generation, clock, 0);
  }

  lemma FitsTheKind(o: Object, ins: Inputs)
    requires Reflects(o, ins)
    ensures Fits(o.kind, ins)
  {
  }

  predicate Up(dep: Read<Deployment>) {
    dep.Found? && DeploymentAvailable(dep.value.conditions)
  }

  /** The reason that a condition shows. */
  predicate Because(conds: seq<Condition>, t: ConditionType, reason: Reason) {
    Lookup(conds, t).Some? && Lookup(conds, t).value.reason == reason
  }

  /** The message that a condition carries. */
  predicate Says(conds: seq<Condition>, t: ConditionType, message: Message) {
    Lookup(conds, t).Some? && Lookup(conds, t).value.message == message
  }

  /** What a condition about one Deployment tells: up, missing, not up, or unreadable with the error quoted. */
  ghost predicate TellsDeployment(conds: seq<Condition>, t: ConditionType, dep: Read<Deployment>) {
    && (Is(conds, t, StatusTrue) <==> Up(dep))
    && (Is(conds, t, StatusUnknown) <==> dep.ReadFailed?)
    && (Because(conds, t, ChildResourceMissing) <==> !dep.Found?)
    && (dep.ReadFailed? ==> Says(conds, t, Message.Text(dep.error)))
    && (Shows(conds, t, StatusFalse, ChildDeploymentNotAvailable) <==> dep.Found? && !Up(dep))
  }

  lemma DeploymentTold(conds: seq<Condition>, t: ConditionType, dep: Read<Deployment>, workload: string, gen: int)
    requires Holds(conds, Write(t, DeploymentState(dep, workload)), gen)
    ensures TellsDeployment(conds, t, dep)
  {
  }

  lemma ComputeTold(conds: seq<Condition>, dep: Read<Deployment>, gen: int)
    requires Holds(conds, Write(ComputeReady, ComputeVerdict(None, dep)), gen)
    ensures TellsDeployment(conds, ComputeReady, dep)
  {
  }

  /** One condition gives the reason and the message of the other. */
  predicate SameWords(conds: seq<Condition>, t: ConditionType, u: ConditionType) {
    && Lookup(conds, t).Some? && Lookup(conds, u).Some?
    && Lookup(conds, t).value.reason == Lookup(conds, u).value.reason
    && Lookup(conds, t).value.message == Lookup(conds, u).value.message
  }

  /** Whatever is not Available is still being worked on. */
  ghost predicate WorksOn(conds: seq<Condition>) {
    Shows(conds, Progressing, StatusTrue, Reconciling) <==> !Is(conds, Available, StatusTrue)
  }

  /** A Cluster is Available iff nothing failed and both components are up, and quotes creation's error iff that failed. */
  lemma ClusterStatusTells(o: Object, ins: Inputs)
    requires o.kind == ClusterKind && Reflects(o, ins)
    ensures var conds := o.status.conditions;
            && (Is(conds, Available, StatusTrue) <==> ins.clusterErr.None? && Up(ins.controller) && Up(ins.broker))
            && (Because(conds, Available, ResourceCreateFailed) <==> ins.clusterErr.Some?)
            && (ins.clusterErr.Some? ==> Says(conds, Available, Message.Text(ins.clusterErr.value)))
            && (Shows(conds, Available, StatusFalse, ChildDeploymentNotAvailable) <==>
                  ins.clusterErr.None? && !(Up(ins.controller) && Up(ins.broker)))
            && WorksOn(conds)
            && TellsDeployment(conds, StorageControllerAvailable, ins.controller)
            && TellsDeployment(conds, StorageBrokerAvailable, ins.broker)
  {
    hide Coherent, ReasonsCoherent, Lookup, TellsDeployment;
    var us, conds, gen := Updates(ins, o.id), o.status.conditions, o.generation;
    assert Holds(conds, us[0], gen) && Holds(conds, us[1], gen) && Holds(conds, us[2], gen) && Holds(conds, us[3], gen);
    DeploymentTold(conds, StorageControllerAvailable, ins.controller, MSG_STORAGE_CONTROLLER, gen);
    DeploymentTold(conds, StorageBrokerAvailable, ins.broker, MSG_STORAGE_BROKER, gen);
  }

  /** A Project is Available iff its ID is stored and it was attached; why not is told apart and quoted. */
  lemma ProjectStatusTells(o: Object, ins: Inputs)
    requires o.kind == ProjectKind && Reflects(o, ins)
    ensures var conds := o.status.conditions;
            && (Is(conds, Available, StatusTrue) <==> ins.tenantIDErr.None? && ins.attachErr.None? && o.id != "")
            && (!Is(conds, Available, StatusTrue) ==> Shows(conds, Available, StatusFalse, Reconciling))
            && WorksOn(conds)
            && (Is(conds, TenantIDAssigned, StatusTrue) <==> ins.tenantIDErr.None? && o.id != "")
            && (!Is(conds, TenantIDAssigned, StatusTrue) ==> Shows(conds, TenantIDAssigned, StatusFalse, TenantIDPending))
            && (Is(conds, Attached, StatusTrue) <==> ins.tenantIDErr.None? && ins.attachErr.None? && o.id != "")
            && (Shows(conds, Attached, StatusFalse, TenantIDPending) <==> ins.tenantIDErr.Some? || (ins.attachErr.None? && o.id == ""))
            && (ins.tenantIDErr.Some? ==> Says(conds, TenantIDAssigned, Message.Text(ins.tenantIDErr.value)))
            && (Because(conds, Attached, StorageControllerUnreachable) <==>
                  ins.tenantIDErr.None? && ins.attachErr.Some? && ins.attachErr.value.isConnectionError)
            && (Because(conds, Attached, AttachFailed) <==>
                  ins.tenantIDErr.None? && ins.attachErr.Some? && !ins.attachErr.value.isConnectionError)
            && (ins.tenantIDErr.None? && ins.attachErr.Some? ==> Says(conds, Attached, Message.Text(ins.attachErr.value.text)))
  {
    hide Coherent, ReasonsCoherent, Lookup;
    var us, conds, gen := Updates(ins, o.id), o.status.conditions, o.generation;
    assert Holds(conds, us[0], gen) && Holds(conds, us[1], gen) && Holds(conds, us[2], gen) && Holds(conds, us[3], gen);
  }

  /** The timeline failed, no child did, and the compute is up. */
  predicate OnlyTheTimelineFailed(ins: Inputs) {
    ins.BranchInputs? && ins.timelineErr.Some? && ins.createErr.None? && Up(ins.compute)
  }

  /** A Branch is Available iff nothing failed and its compute is up; TimelineCreated and ComputeReady say and quote what failed. */
  lemma BranchStatusTells(o: Object, ins: Inputs)
    requires o.kind == BranchKind && Reflects(o, ins)
    ensures var conds := o.status.conditions;
            && (Is(conds, Available, StatusTrue) <==> ins.timelineErr.None? && ins.createErr.None? && Up(ins.compute))
            && WorksOn(conds)
            && (Is(conds, TimelineIDAssigned, StatusTrue) <==> o.id != "")
            && (Shows(conds, TimelineIDAssigned, StatusFalse, TimelineIDPending) <==> o.id == "")
            && (Is(conds, TimelineCreated, StatusFalse) <==> ins.timelineErr.Some?)
            && (Because(conds, TimelineCreated, TimelineCreationFailed) <==> ins.timelineErr.Some?)
            && (ins.timelineErr.Some? ==> Says(conds, TimelineCreated, Message.Text(ins.timelineErr.value)))
            && (Because(conds, ComputeReady, ResourceCreateFailed) <==> ins.createErr.Some?)
            && (ins.createErr.Some? ==> Says(conds, ComputeReady, Message.Text(ins.createErr.value)))
            && (ins.createErr.None? ==> TellsDeployment(conds, ComputeReady, ins.compute))
            && (Is(conds, ComputeReady, StatusTrue) <==> ins.createErr.None? && Up(ins.compute))
            && (Is(conds, ComputeReady, StatusUnknown) <==> ins.createErr.None? && ins.compute.ReadFailed?)
            && (!Is(conds, Available, StatusTrue) ==>
                  Is(conds, Available, StatusFalse) && SameWords(conds, Available, ComputeReady))
            && (Shows(conds, Available, StatusFalse, AsExpected) <==> OnlyTheTimelineFailed(ins))
  {
    hide Coherent, ReasonsCoherent, Lookup, TellsDeployment;
    var us, conds, gen := Updates(ins, o.id), o.status.conditions, o.generation;
    assert Holds(conds, us[0], gen) && Holds(conds, us[1], gen) && Holds(conds, us[2], gen) && Holds(conds, us[3], gen) && Holds(conds, us[4], gen);
    if ins.createErr.None? {
      ComputeTold(conds, ins.compute, gen);
    }
  }

  /** Read, its generation observed, and as many replicas ready as are wanted, which is one where none are stated. */
  predicate ReplicasReady(sts: Read<StatefulSet>) {
    && sts.Found?
    && sts.value.observedGeneration >= sts.value.generation
    && match sts.value.replicas
       case Some(n) => sts.value.readyReplicas >= n
       case None => sts.value.readyReplicas >= 1
  }

  /**
   A Pageserver or Safekeeper is Available iff nothing failed and its StatefulSet was read and has its
   replicas ready. Until then it quotes the error, or what the first informative container of the pod says.
   */
  lemma StatefulSetStatusTells(o: Object, ins: Inputs)
    requires ins.StatefulSetInputs? && Reflects(o, ins)
    ensures var conds := o.status.conditions;
            && (Is(conds, Available, StatusTrue) <==> ins.reconcileErr.None? && ReplicasReady(ins.sts))
            && (Is(conds, Available, StatusUnknown) <==> ins.reconcileErr.None? && ins.sts.ReadFailed?)
            && WorksOn(conds)
            && (Is(conds, ResourcesReady, StatusTrue) <==> ins.reconcileErr.None?)
            && (Is(conds, ResourcesReady, StatusFalse) <==> ins.reconcileErr.Some?)
            && (Because(conds, ResourcesReady, ResourceCreateFailed) <==> ins.reconcileErr.Some?)
            && (Because(conds, Available, ResourceCreateFailed) <==> ins.reconcileErr.Some?)
            && (ins.reconcileErr.Some? ==> Says(conds, Available, Message.Text(ins.reconcileErr.value)))
            && (Because(conds, Available, ChildResourceMissing) <==> ins.reconcileErr.None? && !ins.sts.Found?)
            && (ins.reconcileErr.None? && ins.sts.Found? && !ReplicasReady(ins.sts) ==>
                  var d := if ins.pod.Found? then PodDetail(Some(ins.pod.value)) else NO_DETAIL;
                  if d.reason == "" then Because(conds, Available, ChildPodNotReady)
                  else Because(conds, Available, Kubelet(d.reason)) && Says(conds, Available, d.message))
  {
    hide Coherent, ReasonsCoherent, Lookup, PodDetail;
    var us, conds, gen := Updates(ins, o.id), o.status.conditions, o.generation;
    assert Holds(conds, us[0], gen) && Holds(conds, us[1], gen) && Holds(conds, us[2], gen);
  }

  /**
   Unavailable with the reason AsExpected: of all five kinds, exactly a Branch whose
   timeline failed while its children did not and its Deployment is available.
   */
  lemma UnavailableAsExpectedIff(o: Object, ins: Inputs, clock: nat -> int)
    requires Fits(o.kind, ins)
    ensures Shows(Mutate(o, ins, clock).conditions, Available, StatusFalse, AsExpected) <==> OnlyTheTimelineFailed(ins)
  {
    hide Mutate, Lookup, SetAll;
    var conds := Mutate(o, ins, clock).conditions;
    MutationReflects(o, ins, clock, o.version);
    if o.kind == BranchKind {
      BranchStatusTells(o.(status := Mutate(o, ins, clock)), ins);
    } else {
      assert ReasonsCoherent(o.kind, conds) && Available in KindTypes(o.kind);
    }
  }

  /** Such a branch: the storage controller refused its timeline, and its compute runs on. */
  lemma AnUnavailableBranchAsExpected(clock: nat -> int)
    ensures var o := Object(BranchKind, 1, 1, "0", Status(0, []));
            var ins := BranchInputs(Some("refused"), None, Found(Deployment([DeploymentCondition(true, ValueTrue)])));
            Shows(Mutate(o, ins, clock).conditions, Available, StatusFalse, AsExpected)
  {
    var o := Object(BranchKind, 1, 1, "0", Status(0, []));
    UnavailableAsExpectedIff(o, BranchInputs(Some("refused"), None, Found(Deployment([DeploymentCondition(true, ValueTrue)]))), clock);
  }
}
