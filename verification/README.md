# Verification of the Neon operator's reconcile machinery

A Dafny model of the Kubernetes operator in this repository, and proofs about it.
Five controllers (Cluster, Project, Branch, Pageserver, Safekeeper) share one way of
working: read a custom resource, create or repair its children, observe them, and write
conditions to its status. A small HTTP control plane decodes the labels of compute
Deployments back to branches and refreshes their configuration. The model follows both,
branch by branch, and the theorems are about whole runs: any interleaving, any number of
writers, any failing calls.

## How the model is laid out

- **Conditions and status.** `Conditions` is the condition list and its one operation;
  `Readiness` the read-only classifications; `Status` what each controller writes and what
  every such status guarantees; `StatusClosures` the status functions as methods over a
  mutable copy; `StatusStore` many writers racing on one store, with the merge patch of
  section 2 of RFC 7396; `PatchStatus` the status writer against a mutable server.
- **One resource and its queue.** `Agreement` is a watched resource, its children, the work
  queue and the worker; `Quiescence` shows that such a system comes to rest.
- **Children.** `Values` has specifications, drift and apply, `Paths` what they mean path by path;
  `Names` the naming scheme; `Contents` what stands in the children after a pass;
  `Children` the create-or-apply step; `Plans` ordered creation with fail-fast returns;
  `Interleaving` the same call by call, with others acting in between; `Bodies`, `ComputeObjects`,
  `BranchReconcile` and `ServerReconcile` the concrete children.
- **Identifiers and keys.** `Identifiers` is the one field that is assigned once, `Assignment`
  the calls that assign it, `Keys` the signing keys.
- **Whole reconciles.** `Controllers` (Cluster, Pageserver, Safekeeper and what all share),
  `BranchController` and `ProjectController` join all of this.
- **The control plane.** `Hex`, `ComputeSpec` and `Routes`.

Code that changes state is a class or a method with a loop, proved against a function of
its inputs or of the old state; the theorems are about that function.

## Assumptions

- Reads are linearizable. The one stale read is the subject of
  `Identifiers.StaleReadReplacesTheID`.
- The work queue hands one key to one worker at a time, an event during processing queues the
  key again, and an error or a requeue request adds it back later.
- The drift test (`equality.Semantic.DeepDerivative`, from apimachinery, which is not part of
  this model) ignores null, zero and empty parts of the intended value and compares lists by
  prefix. That a number zero counts as empty is assumed here, not read off that library. Were zeros
  compared, an intended zero under a defaulted number, such as the absent targetPort of
  specs/pageserver/service.go, would be drift that no apply removes. Server-side apply with force
  overlays the intended value on the current one.
- What the server does to a body it stores keeps what was intended (`KeepsIntended`);
  `Values.DefaultsKeepIntended` shows this of filling in defaults. Without it an object would
  be patched for ever.
- A reason copied from a container state differs from the operator's own reasons: it is a
  constructor of its own.
- Signatures are symbolic: a token verifies under exactly the public half of its signing key.
- Agreement and quiescence let child reads fail with not-found only, and speak of the status
  of the Available condition, not of reasons or messages, since pods, the parent Cluster's
  image and the bucket Secret are read but not watched. The Project watches no child, so it is
  not part of these two.

## What turned out not to hold

- The two Services of a Cluster carry no kind, so the apply step refuses them. A Cluster
  converges if and only if neither is present and drifted (`ServerReconcile.ClusterConvergence`,
  with a store in `ServerReconcile.AClusterThatNeverConverges`).
- A branch whose timeline failed while its compute is up is reported unavailable with reason
  AsExpected; this is the only such case (`Status.UnavailableAsExpectedIff`,
  with an example in `Status.AnUnavailableBranchAsExpected`).
- The shard map is built with shard number zero for every shard, so it equals the map with one
  entry per shard if and only if all numbers are zero modulo 256; with the numbers of the
  fallback request that means at most one shard (`ComputeSpec.ShardFoldIsRightIffAllZero`,
  `ComputeSpec.FallbackIsRightForOneShardOnly`).
- ID patches carry no optimistic lock, so a reconcile with an old copy replaces an assigned ID
  (`Identifiers.ReplacementNeedsAnOldCopy`, with a run in `Identifiers.StaleReadReplacesTheID`).
- The label round trip fails for namesakes: compute IDs are branch names, which are unique in a
  namespace only, and the first listed wins. `ComputeSpec.ResolvesIff` and
  `ComputeSpec.LabelRoundTripIff` say exactly when it holds, `ComputeSpec.NamesakesShareAComputeID`
  what happens when it does not.
- Pageserver addresses end in the namespace neon, but the Services are created in the resource's
  own namespace (`Names.PageserverAddressIff`).
- The attach route has a branch that answers 404 for an empty list, but its finder turns an
  empty list into an error: the branch is dead (`Routes.NotifyAttach`).

## Model

| member | source | states |
|---|---|---|
| Conditions.SetFrame | utils/status.go:77-91 | setting one condition type keeps the entries of every other type, the positions already taken and the uniqueness of types |
| Conditions.ConditionHistory | utils/status.go:75-91 | after any sequence of calls from an empty list types are unique, a type is present iff it was set, and each entry is explained by the history: contents of the last call of its type, transition time of the last call that created it or changed its status |
| Conditions.SetAllHolds | utils/status.go:77-91 | a list of updates of distinct types, applied in order under an advancing clock, leaves every one of them in force at the given generation |
| Conditions.SetAllIsIdempotent | utils/status.go:77-91 | applying the same updates again at any later times gives the very same list, transition times included |
| Conditions.SetAllCoversGeneration | utils/status.go:83-90 | updates covering all types present leave every condition at the object's generation |
| Readiness.IsDeploymentAvailable | utils/status.go:221-231 | true iff the Deployment exists and the first condition of the Available type, the one that decides, is true |
| Readiness.DeploymentAvailableIff | utils/status.go:221-231 | a list of conditions counts as available iff its first condition of the Available type is true |
| Readiness.IsStatefulSetReady | utils/status.go:177-186 | true iff the StatefulSet exists, its observed generation has caught up, and at least as many replicas are ready as are stated, or one where none are |
| Readiness.FirstDetailIsFirst | utils/status.go:192-219 | the detail is that of the first container with something to say, and is absent iff no container has |
| Readiness.ContainerDetailSays | utils/status.go:196-216 | a container is quoted iff it waits for a stated reason or ended with a nonzero code, the wait first, in its own words where it has any, and with a reason that is never empty |
| Readiness.PodNotReadyDetail | utils/status.go:188-219 | the loop gives the first informative container in init-then-main order; the reason is empty iff there is no pod or no container is informative |
| Readiness.PodDetailIsFirst | utils/status.go:192-219 | a pod's detail is that of the first informative container among init and main containers, and empty iff there is none |
| Status.UpdatesCoverTheKind | utils/status.go:118-175 | whichever branches are taken, a status function sets each condition type of its kind exactly once |
| Status.MutateIsIdempotent | utils/status.go:101-106 | each kind's mutation, repeated from the same observations at any later time, changes nothing, so the compare step sees equality |
| Status.VerdictsAreSound | internal/controller/cluster_controller.go:139-152 | every component verdict has reason AsExpected iff it is True, and never an empty reason |
| Status.MutateIsCoherent | utils/status.go:118-175 | every status that any of the five functions can produce is coherent, whatever was there before; AsExpected occurs iff a condition has its healthy value, with the one exact exception, and no reason is empty |
| Status.MutationReflects | utils/status.go:101-106 | the status any closure produces is at the object's generation, coherent, and shows every update its observations call for |
| Status.ClusterStatusTells | internal/controller/cluster_controller.go:113-136 | such a Cluster is Available iff creation did not fail and both Deployments are up, blames and quotes creation iff that failed, and tells for each Deployment whether it is up, down, missing or unreadable |
| Status.ProjectStatusTells | internal/controller/project_controller.go:122-159 | such a Project is Available iff its ID is stored and it was attached; each condition, reason and quoted error tells a failed assignment, an unreachable storage controller and a refusal apart |
| Status.BranchStatusTells | internal/controller/branch_controller.go:149-193 | such a Branch is Available iff timeline, children and compute are all right; TimelineCreated and ComputeReady tell and quote which one failed, and until then Available gives the words of ComputeReady |
| Status.StatefulSetStatusTells | utils/status.go:132-174 | such a Pageserver or Safekeeper is Available iff nothing failed and its StatefulSet was read, observed at its generation and has its replicas ready; until then it quotes the error or the pod's first informative container |
| Status.UnavailableAsExpectedIff | internal/controller/branch_controller.go:186-192 | of all kinds and inputs, exactly a Branch whose timeline failed, whose children did not, and whose Deployment is available is written unavailable with reason AsExpected |
| Status.AnUnavailableBranchAsExpected | internal/controller/branch_controller.go:186-192 | a concrete branch and reconcile for which that happens |
| StatusClosures.StatusCopy.SetCondition | utils/status.go:77-91 | the search loop over the list in place does what replaying one more update does |
| StatusClosures.StatusCopy.ClassifyDeployment | internal/controller/cluster_controller.go:139-152 | the deployment's verdict: missing, unreadable, available or not |
| StatusClosures.StatusCopy.ClassifyCompute | internal/controller/branch_controller.go:149-166 | the compute verdict the closure builds up in three variables |
| StatusClosures.StatusCopy.MutateCluster | internal/controller/cluster_controller.go:113-136 | the closure writes exactly the updates of its inputs, in order |
| StatusClosures.StatusCopy.MutateProject | internal/controller/project_controller.go:122-159 | the same for a Project |
| StatusClosures.StatusCopy.MutateBranch | internal/controller/branch_controller.go:149-193 | the same for a Branch |
| StatusClosures.StatusCopy.MutateStatefulSetBacked | utils/status.go:128-174 | the same for a Pageserver or Safekeeper |
| StatusClosures.RunClosure | utils/status.go:101-103 | running the right closure on a copy of the object gives the status that the theorems speak of |
| StatusStore.NextKeepsInv | utils/status.go:93-116 | every step of any writer, editor or deleter keeps: statuses well-formed, observed generations bounded, copies either old or exact |
| StatusStore.NoLostUpdate | utils/status.go:93-116 | after any run, an accepted patch leaves the mutation of exactly the version it replaced; a losing patch changes nothing |
| StatusStore.UndisturbedWriteLands | utils/status.go:93-116 | a writer that nobody disturbs stores the mutation of what it read and changes no other object, and writes nothing when the mutation is empty |
| StatusStore.StatusIsSerializable | utils/status.go:93-116 | after any interleaving of any number of writers the status is that of running the accepted mutations one after another |
| StatusStore.ReachableStatus | utils/status.go:83-90 | in every reachable state observed generations never exceed the object's and equal those of all its conditions, types are unique, and a written status is coherent |
| StatusStore.ObservedGenerationNeverDecreases | utils/status.go:101-109 | over any run an object's observed generation never goes down |
| StatusStore.WithoutTheLockUpdatesAreLost | utils/status.go:107-109 | the lock is needed: the same patch merged into a newer status lowers the observed generation and yields no mutation of what it replaced |
| StatusStore.FirstWriteSettles | utils/status.go:101-106 | from fixed observations the first accepted write makes every later mutation empty |
| StatusStore.AtMostOneStatusWrite | utils/status.go:101-106 | any number of writers with the same observations, in any interleaving, make at most one status write, and none once settled |
| PatchStatus.VersionIdentifiesContent | utils/status.go:93-116 | an object that shows an old resource version after a run is the object of that version, unchanged |
| PatchStatus.ApiServer.PatchStatus | utils/status.go:93-116 | with arbitrary steps of others between read and patch and either call failing: it patches iff not rejected and the version is unmoved, and then the result is the mutation of the version met; nothing to do iff the mutation changes nothing |
| PatchStatus.ApiServer.PatchID | internal/controller/project_controller.go:193-209 | a merge patch of one field made from an earlier copy: it lands on whatever is stored, unless it is empty |
| Agreement.MutateAgrees | internal/controller/branch_controller.go:144-194 | without errors the Available value written is the readiness of the children seen |
| Agreement.AgreementSpelledOut | internal/controller/cluster_controller.go:113-136 | agreement in the fields of the children: first Available condition of every Deployment, or generation and replica counts of the StatefulSet |
| Agreement.ChangesAreQueued | internal/controller/branch_controller.go:294-302 | every step that changes the resource or a child puts the key in the queue |
| Agreement.ErrorsAreTold | internal/controller/branch_controller.go:144-194 | the errors a reconcile carries are told by the status it writes: a refused timeline, failed creation, and never Available |
| Agreement.NextKeepsInv | internal/controller/branch_controller.go:101-142 | every step of the worker, the environment or a timer keeps the inductive agreement invariant |
| Agreement.LevelTriggeredAgreement | internal/controller/branch_controller.go:117-142 | in every reachable state a watched resource has work pending or its Available value agrees with the readiness of its children now |
| Agreement.EveryResourceAgrees | internal/controller/cluster_controller.go:90-137 | the same for every resource of a system of Clusters, Branches, Pageservers and Safekeepers whose steps interleave |
| Quiescence.CalmStepDecreases | internal/controller/branch_controller.go:101-142 | once the environment is quiet every step lowers a rank: repairs of missing or drifted children, status writes, and the events they cause included |
| Quiescence.NoDeadlock | internal/controller/branch_controller.go:294-302 | a system with work pending can always take a quiet step, and creation without an error leaves every child in place |
| Quiescence.StatusWritesDoNotRetriggerForever | utils/status.go:101-106 | from any reachable state a quiet run is bounded by a fixed number of steps and, when it can go no further, is idle and in agreement |
| Values.ApplyRemovesDrift | utils/reconcile.go:46-57 | applying an intended value to any current one removes the drift |
| Values.DriftIffApplyChanges | utils/reconcile.go:46-57 | the drift test fires iff applying would change something |
| Values.DerivativeTransitive | utils/reconcile.go:46-48 | being specified by carries over: what is intended stays so when more is set |
| Values.DefaultsKeepIntended | utils/reconcile.go:46-57 | a server that only fills in defaults keeps what was intended |
| Paths.DriftIff | utils/reconcile.go:46-52 | drift is reported iff some path of the intended value is missing in the current one or a leaf it sets has another value there; lists by position |
| Paths.ApplySets | utils/reconcile.go:53-57 | after an apply every leaf that the intended value sets stands at its path |
| Paths.ApplyKeeps | utils/reconcile.go:53-57 | after an apply every path that the intended value says nothing about holds what it held |
| Names.DecimalRoundTrip | specs/pageserver/names.go:9-15 | decimal rendering of a node ID reads back as that number |
| Names.DecimalSpelled | specs/pageserver/names.go:9-15 | the numeral starts with its highest digit |
| Names.NamesSpelled | specs/compute/service.go:20-21 | each child's name as its format string spells it |
| Names.NamesDoNotCollide | specs/safekeeper/names.go:9-15 | two derived children of one kind with one name are the same child, for all cluster, branch and server names and IDs |
| Names.ChildrenAreDistinct | specs/compute/service.go:20-21 | two owners, or two children of an owner, never share an object of one kind and name |
| Names.AddressesNameTheService | specs/compute/spec.go:318-325 | the first label of the host in a pageserver or safekeeper address is the name of the Service created for that node |
| Names.PageserverAddressIff | specs/compute/spec.go:372-375 | the whole host is that Service's iff the Service was created in namespace neon |
| Names.SafekeeperAddressIff | specs/compute/spec.go:477-483 | the whole host is that Service's iff the Service was created in the namespace the address is made with |
| Names.PageserverURLInjective | specs/compute/spec.go:372-375 | a pageserver address determines its cluster and node |
| Children.InlineRefinesSSA | internal/controller/branch_create.go:105-145 | the hand-written form has the effect of ReconcileSSA for every store and fault and fails with it; the errors named differ iff read and owner both fail |
| Children.ReconcileSSA | utils/reconcile.go:19-60 | the method does what the function of the old state says, for every fault |
| Children.StepSpelledOut | utils/reconcile.go:19-60 | the step by what stands in the store: a body that extends the intended one is not written; a missing child gets owner, labels, annotations and body as intended; any other is changed where it differs and nowhere else; a fault changes nothing |
| Children.StepOutcome | utils/reconcile.go:19-60 | success means in place; failure or in place before means no change; a write repairs, sets the owner and touches no other object |
| Children.FaultFreeStep | utils/reconcile.go:53-57 | without faults the step fails iff the object has no kind and the child is drifted |
| Plans.StepPaysItsWrite | utils/reconcile.go:31-59 | each write lowers the number of missing or drifted children by exactly one |
| Plans.PassPaysItsWrites | internal/controller/pageserver_create.go:18-51 | the same for a whole pass, whatever fails in it |
| Plans.ChildWritesAreBounded | utils/reconcile.go:31-59 | for single items in any order, any faults and changes by others between any two: child writes are bounded by the children out of place at first plus the plan size for each change |
| Plans.OnePassConverges | internal/controller/cluster_create.go:26-41 | one fault-free pass leaves every child in place, and the next writes nothing whatever fails in it, iff no untyped child is present and drifted |
| Interleaving.UndisturbedIsSSA | utils/reconcile.go:19-60 | a read and the write decided on it, with nothing between, are the create-or-apply step, for every fault |
| Interleaving.PassIsARun | internal/controller/pageserver_create.go:18-51 | a pass is the run of its reads and writes with nothing between, for every fault |
| Interleaving.WriteEndsOrGoesOn | utils/reconcile.go:37-59 | a refused write or a lost answer ends the pass, the children changed iff the write landed; an accepted or unneeded one goes on |
| Interleaving.LandedOutcome | utils/reconcile.go:31-59 | a write that lands puts its own child in place and touches no other, however old the read it was decided on |
| Interleaving.EventPays | utils/reconcile.go:31-59 | no read, write, failure or lost answer makes more writes than the potential pays for; a change by others buys a bounded amount |
| Interleaving.FinitelyManyWrites | utils/reconcile.go:19-60 | with changes by others between any read and write, intentions that grow old in the middle of a pass, and any failures: finitely many changes mean finitely many child writes, with the bound stated |
| Interleaving.PrefixIsKept | internal/controller/safekeeper_create.go:18-46 | whatever fails, is edited or newly intended between any two calls, and wherever passes are cut off, the children present form a prefix of the creation order |
| BranchReconcile.BranchPlanKeysAreDistinct | internal/controller/branch_create.go:22-46 | the four children of a branch are four different objects |
| BranchReconcile.ReconcileConfigMap | internal/controller/branch_create.go:48-103 | reads cluster, secret and key first and writes nothing when one is missing; otherwise the hand-written step on the ConfigMap |
| BranchReconcile.ReconcileDeployment | internal/controller/branch_create.go:105-145 | is the hand-written step on the compute Deployment |
| BranchReconcile.ReconcileAdminService | internal/controller/branch_create.go:147-188 | is the hand-written step on the admin Service |
| BranchReconcile.ReconcilePostgresService | internal/controller/branch_create.go:190-231 | is the hand-written step on the Postgres Service |
| BranchReconcile.CreateBranchResources | internal/controller/branch_create.go:22-46 | the four hand-written functions together do what a pass of ReconcileSSA over the branch's plan does, and fail with it; without an error cluster, secret and key were there and all four objects exist |
| Contents.BranchStands | internal/controller/branch_create.go:22-46 | after a pass without an error the ConfigMap holds the key, the Deployment its ConfigMap, version and labels, and both Services their port and the Deployment's selector |
| Contents.ComputeIsCreatedLabelled | specs/compute/deployment.go:18-30 | a created compute Deployment carries exactly these labels and annotations, which name branch, project's cluster, tenant and timeline |
| Contents.BranchChildrenAreCreatedLabelled | specs/compute/service.go:20-45 | and its created ConfigMap and Services carry exactly these labels |
| Contents.ComputeServicesSelect | specs/compute/service.go:20-54 | the admin and Postgres Services select the pods of the compute Deployment |
| Assignment.AssignID | internal/controller/branch_controller.go:196-216 | second read and unlocked patch with steps of others around them: succeeds iff the read succeeds, the object exists at read and patch and the patch is accepted, and then the stored object carries the generated ID, one generation later; and it is one step of the machine in Identifiers |
| BranchController.BranchReconciler.EnsureTimeline | internal/controller/branch_controller.go:246-289 | makes one call for the tenant and timeline pair; accepted iff answered 200, 201 or 409 |
| BranchController.BranchReconciler.UpdateStatus | internal/controller/branch_controller.go:144-194 | reads the compute Deployment, then leaves a status that shows exactly what was observed, or returns an error |
| BranchController.ComputeKeyIsThePlans | internal/controller/branch_controller.go:144-149 | the Deployment read for the status is the one the plan creates |
| BranchController.BranchReconciler.Conclude | internal/controller/branch_controller.go:117-141 | posts the timeline, then and only then creates the children, then writes the status; result, children, custom resources and trace are determined, and whatever is written is trace safe |
| BranchController.BranchReconciler.Reconcile | internal/controller/branch_controller.go:61-142 | the whole reconcile for every environment: deleted, unreadable, ID assignment, missing project, or conclusion; and the read-then-assign, read-then-call or give-up step of Identifiers that it is |
| BranchController.BranchIsToldApart | internal/controller/branch_controller.go:144-194 | after a reconcile whose status call returned nil, TimelineCreated is False iff the POST was refused, ComputeReady blames creation iff creation failed, and Available is True iff neither and the Deployment is up |
| BranchReconcile.PassIsTraceSafe | internal/controller/branch_controller.go:111-128 | every child write of a reconcile comes after an accepted timeline POST for the pair that the Deployment's labels carry |
| BranchReconcile.BranchConverges | internal/controller/branch_create.go:22-46 | a branch converges in one fault-free pass from any store, and the next pass writes nothing |
| BranchReconcile.BranchKeepsItsNames | internal/controller/branch_create.go:22-46 | however a branch, its project and the key change, its children keep their names and order |
| BranchReconcile.DeploymentHasItsConfigMap | internal/controller/branch_create.go:22-46 | with any failures, and edits by others between any two calls, the Postgres Service implies the admin Service implies the Deployment implies the ConfigMap |
| ServerReconcile.CreatePageserverResources | internal/controller/pageserver_create.go:18-51 | four children with two reads between them, in order, stopping at the first failure; without an error both reads succeeded and all four exist |
| Contents.PageserverStands | specs/pageserver/statefulset.go:27-72 | after a pass without an error the ConfigMap holds the text made from the bucket secret, the StatefulSet its image, replica and governing Service, both Services their ports and selectors |
| Contents.PageserverChildrenAreCreatedLabelled | specs/pageserver/labels.go:5-11 | its created children carry cluster, component and own name as labels, and its owner |
| Contents.ServerServicesSelect | specs/pageserver/service.go:10-38 | the Services of a Pageserver and of a Safekeeper select the pods of its StatefulSet |
| ServerReconcile.ReconcilePageserverConfig | internal/controller/pageserver_create.go:53-63 | the ConfigMap only after the bucket Secret was read |
| ServerReconcile.PageserverConverges | internal/controller/pageserver_create.go:18-63 | a Pageserver converges in one fault-free pass from any store |
| ServerReconcile.PageserverPrefix | internal/controller/pageserver_create.go:18-51 | a StatefulSet implies its headless Service, that its Service, that the ConfigMap, under any faults and edits |
| ServerReconcile.CreateSafekeeperResources | internal/controller/safekeeper_create.go:18-46 | two Services, a read of the image and the StatefulSet, in order, stopping at the first failure; without an error the image was read and all three exist |
| Contents.SafekeeperStands | specs/safekeeper/service.go:10-38 | the same contents for a Safekeeper, with its own ports |
| Contents.SafekeeperChildrenAreCreatedLabelled | specs/safekeeper/labels.go:5-11 | the same for a Safekeeper |
| ServerReconcile.SafekeeperConverges | internal/controller/safekeeper_create.go:18-46 | a Safekeeper converges in one fault-free pass from any store |
| ServerReconcile.SafekeeperPrefix | internal/controller/safekeeper_create.go:18-46 | the creation-prefix invariant for a Safekeeper, under any faults and edits |
| ServerReconcile.ReconcileStorageController | internal/controller/cluster_create.go:89-101 | Deployment, then Service unless the first failed |
| ServerReconcile.ReconcileStorageBroker | internal/controller/cluster_create.go:103-115 | the same for the broker |
| ServerReconcile.CreateClusterResources | internal/controller/cluster_create.go:26-41 | keys, storage controller and broker, in order, stopping at the first failure; without an error the keys were there, and the Deployment and Service of both components exist in the cluster's namespace |
| Contents.ClusterStands | internal/controller/cluster_create.go:89-115 | after a pass without an error both components stand: image and port of the Deployment, selector and ports of its Service |
| Contents.ComponentServicesSelect | specs/storagecontroller/service.go:11-35 | each component's Service selects the pods of its Deployment |
| ServerReconcile.ClusterPrefix | internal/controller/cluster_create.go:26-41 | the broker's Service implies its Deployment implies the controller's Service implies the controller's Deployment, under any faults and edits |
| ServerReconcile.ClusterConvergence | internal/controller/cluster_create.go:89-115 | one fault-free pass brings a Cluster's children in place, without an error, iff neither of its untyped Services is present and drifted |
| ServerReconcile.AClusterThatNeverConverges | specs/storagecontroller/service.go:11-35 | a store with a drifted controller Service on which a fault-free pass fails and leaves a child out of place |
| Plans.SuccessMeansInPlace | internal/controller/pageserver_create.go:18-51 | a pass that reports no error has left every child present and undrifted, from any store and whatever faults it met |
| Plans.SuccessMeansPresent | internal/controller/pageserver_create.go:18-51 | such a pass also met every read it needs, and every child of the plan exists |
| Plans.CreatedAsIntended | utils/reconcile.go:37-44 | and a child that was missing before has exactly the intended owner, labels, annotations and body |
| Controllers.WriteStatus | utils/status.go:93-116 | for all kinds, with steps of others before and during the call: an error, or a stored status that shows exactly what was observed; all other resources as others left them |
| Controllers.UpdateSTSBackedStatus | utils/status.go:118-175 | reads the StatefulSet from the children, then the same for a Pageserver or Safekeeper |
| Controllers.UpdateClusterStatus | internal/controller/cluster_controller.go:109-137 | reads both Deployments from the children, then the same for a Cluster |
| Controllers.PageserverIsTold | utils/status.go:118-175 | after a status call that returned nil, Available is True iff creation succeeded and the StatefulSet of that name exists, could be read, is observed at its generation and has its replicas ready; a failed creation is quoted |
| Controllers.SafekeeperIsTold | utils/status.go:118-175 | the same for a Safekeeper and its own StatefulSet |
| Controllers.ClusterIsTold | internal/controller/cluster_controller.go:109-137 | the same for a Cluster and its two Deployments, each told on its own |
| Controllers.ReconcilePageserver | internal/controller/pageserver_controller.go:50-109 | a deleted resource changes nothing; otherwise the plan of the stored resource is run, success of it means every child is in place, the status shows its outcome and the StatefulSet read, and nil iff creation and status call succeeded |
| Controllers.ReconcileSafekeeper | internal/controller/safekeeper_controller.go:49-108 | the same for a Safekeeper |
| Controllers.ReconcileCluster | internal/controller/cluster_controller.go:63-107 | the same for a Cluster that exists |
| Identifiers.GeneratedID | utils/ids.go:8-15 | an ID is 32 hexadecimal digits, so never empty |
| Identifiers.ReplacementNeedsAnOldCopy | internal/controller/branch_controller.go:196-216 | in every well-formed state an operator step replaces an assigned ID iff a patch from an old copy with another ID gets through |
| Identifiers.IDsAreWriteOnce | internal/controller/project_controller.go:193-209 | if no other write falls between a reconcile's read and its patch, no later operator step changes an assigned ID, and all calls made with it carry that one value |
| Identifiers.SerializedIsUndisturbed | internal/controller/branch_controller.go:104-109 | one worker at a time with fresh reads meets that hypothesis |
| Identifiers.QueuedReconcilesAssignOnce | internal/controller/project_controller.go:93-106 | so every call to the storage controller from a queued reconcile carries the one assigned, non-empty ID |
| Identifiers.TookIsARun | internal/controller/branch_controller.go:104-109 | what a reconcile does to the field, with writes of others between its read and its patch, is a run of the machine |
| Identifiers.CallSendsWhatWasRead | internal/controller/branch_controller.go:246-260 | a call carries the ID that the reconcile read, whatever was written since |
| Identifiers.StaleReadReplacesTheID | internal/controller/branch_controller.go:196-216 | the hypothesis is needed: for any two different random values a stale-read run calls with one ID and then replaces it by another |
| ProjectController.ProjectReconciler.EnsureTenantOnPageserver | internal/controller/project_controller.go:211-248 | one call for the tenant; attached iff answered 2xx |
| ProjectController.ProjectReconciler.Reconcile | internal/controller/project_controller.go:60-120 | the whole reconcile for every environment: an ID is assigned and nobody called, with the failure told in the status, or one call is made and its outcome told; and the step of Identifiers that it is |
| Keys.SecretStore.ReconcileJWTKeys | internal/controller/cluster_create.go:43-87 | an existing secret is never touched; a missing one is created, or lost to a concurrent creator with an error |
| Keys.NewManagerIff | utils/jwtmanager.go:22-69 | a manager is made iff both halves are there, and of exactly these |
| Keys.GeneratedKeyWorks | utils/jwtmanager.go:72-94 | a generated pair makes a manager whose tokens verify under its own public key and no other pair's |
| Keys.KeyPairIsStable | internal/controller/cluster_create.go:43-87 | over any interleaving of cluster reconciles, including several that saw not-found, the key pair never changes once created |
| Keys.TokensVerifyUnderEveryConfigMap | specs/compute/spec.go:188-213 | a token signed at any time verifies under the JWK put into any compute ConfigMap at any other time |
| Keys.KeysAreMadeAndUsed | internal/controller/cluster_create.go:43-87 | the first creation that gets through makes the pair, and whoever reads it puts that public half in the ConfigMap and signs with that private half |
| Hex.DecodeEncode | specs/compute/spec.go:31-34 | decoding the hexadecimal form of bytes gives the bytes (section 8 of RFC 4648) |
| Hex.EncodeDecode | specs/compute/spec.go:50-53 | encoding what was decoded gives the string in lower case |
| Hex.DecodeDomain | specs/compute/spec.go:50-53 | a string decodes iff it has even length and only hexadecimal digits |
| ComputeSpec.ShardIndexRoundTrip | specs/compute/spec.go:31-59 | printing and parsing are inverse up to letter case, and parsing accepts exactly four hexadecimal digits |
| ComputeSpec.PrintSpelled | specs/compute/spec.go:31-34 | two lower-case hexadecimal digits of the number, then two of the count, high digit first |
| ComputeSpec.ShardIndexCell.UnmarshalJSON | specs/compute/spec.go:41-59 | fills both fields, or leaves both as they were |
| ComputeSpec.BuildShards | specs/compute/spec.go:362-380 | the loop builds at most one entry, naming the last shard's node |
| ComputeSpec.ShardFoldIsRightIffAllZero | specs/compute/spec.go:362-404 | the map built is the one with an entry per shard iff every shard number is zero modulo 256 |
| ComputeSpec.FallbackIsRightForOneShardOnly | specs/compute/spec.go:347-359 | with the fallback's numbering it is right iff there is at most one shard |
| ComputeSpec.FindComputeDeployment | specs/compute/spec.go:492-513 | the first compute Deployment in listing order with the given annotation |
| ComputeSpec.FindProjectAndBranch | specs/compute/spec.go:531-573 | the first project of the tenant, then the first branch of that timeline in that project |
| ComputeSpec.GenerateComputeSpec | specs/compute/spec.go:260-413 | fails exactly where a lookup fails, else the spec of the branch and project found, with the shards requested or asked for |
| ComputeSpec.GeneratedNamesLastNode | specs/compute/spec.go:330-404 | the shard part of a generated spec: empty iff no shards were requested or answered, else one entry under number zero and the count modulo 256, with the last node and the address of its Service |
| ComputeSpec.SettingNamesTheServices | specs/compute/spec.go:615-622 | the safekeepers setting lists host and port of the first three safekeeper Services |
| ComputeSpec.ResolvesIff | specs/compute/spec.go:271-306 | in any store a compute ID resolves to a cluster, project and branch iff the first compute Deployment listed with that ID names cluster, tenant and timeline, the project is its tenant's first, and the branch its timeline's first in the project |
| ComputeSpec.LabelRoundTripIff | specs/compute/deployment.go:18-30 | where the operator made the compute Deployments, the round trip holds iff no namesake with another cluster, tenant or timeline is listed before the first one with the branch's, and project and branch are the first of their tenant and timeline |
| ComputeSpec.LabelRoundTrip | specs/compute/deployment.go:18-30 | so it holds when compute ID, tenant ID and timeline are unique |
| ComputeSpec.GeneratedSpecIsTheBranchs | specs/compute/spec.go:271-328 | whenever the round trip holds the generated spec exists iff the keys are usable and shards are known, and names that branch's timeline, tenant, the public half in the cluster's secret, and the safekeeper Services |
| ComputeSpec.NamesakesShareAComputeID | specs/compute/spec.go:504-510 | in lists of any length a branch listed after a namesake with another cluster, tenant or timeline never round-trips; its ID resolves to what the first namesake names, or to nothing |
| ComputeSpec.RefreshConfiguration | specs/compute/spec.go:153-249 | sends the spec generated for the notification's shards, whose shard part names their last node, or nothing and an error |
| ComputeSpec.AttachRefreshIff | specs/compute/spec.go:153-249 | it sends something iff the Deployment names a compute and a cluster, the compute resolves, both key reads succeed, the admin Service exists and the node answers 2xx |
| ComputeSpec.RefreshSafekeepersConfiguration | specs/compute/spec.go:456-489 | sends the generated spec with safekeepers and their generation replaced and all else kept |
| ComputeSpec.SafekeepersRefreshIff | specs/compute/spec.go:456-489 | it sends something iff the storage controller answered and all that an attach refresh needs is there |
| ComputeSpec.SafekeepersRefreshSays | specs/compute/spec.go:477-486 | for each safekeeper notified, in order, the address of its Service in the compute's namespace, the generation notified, and everything else as generated |
| Routes.MatchedExactly | specs/compute/spec.go:421-454 | a listing holds exactly the Deployments with the labels asked for, each as often as it is in the store |
| Routes.MatchedInOrder | specs/compute/spec.go:421-454 | what is listed keeps its order |
| Routes.FoundExactly | specs/compute/spec.go:421-454 | the tenant finder fails iff the listing fails or nothing carries the label, the other iff the listing fails; both return what carries the labels asked for |
| Routes.NotifyAttach | internal/controlplane/routes.go:82-140 | each match is attempted once, in order, with the spec for the notification's shards, whatever failed before; 200 iff read, parsed, found some and all refreshes succeeded; never 404 |
| Routes.NotifySafekeepers | internal/controlplane/routes.go:142-196 | the same; 404 iff parsed and listed with no match, 400 iff unparsable |

## Left out

- HTTP clients, timeouts, retries inside a client, JSON encoding and logging: a remote call is an outcome given as a parameter.
- The classification of network errors in internal/controller/project_controller.go:161-177: it only chooses between two reasons, and is a parameter.
- Ed25519, PEM, PKCS8 and JWT encodings, token expiry and claims: keys and signatures are symbols.
- Object trees below the fields used for names, labels, owners and drift: containers, volumes, environment, scripts, the TOML text of a Pageserver.
- Field ownership in server-side apply: the model's apply never removes a field that an earlier apply set and the present one does not.
- Constant entries of a compute spec and the stripe size of an attach request, which no decision depends on.
- The fixed texts of condition messages: they are constants that no theorem pins; quoted errors and container messages are pinned.
- Wrapping of error texts: an error is its final text or a constructor.
- The Cluster controller goes on after a read that found nothing and would dereference a missing object (internal/controller/cluster_controller.go:63-87): a Cluster is taken to exist in Agreement and in Controllers.ReconcileCluster.
- The compute-spec and health routes (internal/controlplane/routes.go:55-80): they only pass a result on.
- Controllers.ReconcileCluster: whether a child exists is read from the store, its readiness is a parameter, since the kubelet decides it; that later readings are told is in Agreement. No one else acts on the children in the middle of this method; that is in Interleaving.
- Interleaving.FinitelyManyWrites: one pass at a time works on a resource, as the queue has it; the identity of the resource behind a name is not followed through deletion.
- Quiescence.StatusWritesDoNotRetriggerForever: which children have drifted is a parameter; a quiet creation step is one step there, and its single calls are in Interleaving.
- Deletion of children and garbage collection through owner references.
- BranchReconcile.DeploymentHasItsConfigMap: the branch keeps its name and namespace over the run, as names of Kubernetes objects do.
- Children.StepOutcome: the owner reference is set only when an object is written, since drift looks at the body alone; an object made by others that has not drifted keeps its owner.
- Agreement.EveryResourceAgrees: covers the status of Available of the four kinds that watch children, not reasons and messages, and not the Project.
- Keys.KeyPairIsStable: no step deletes the secret.
