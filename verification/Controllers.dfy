/**
 What whole reconciles share, and those of a Cluster, a Pageserver and a Safekeeper:
 the children are created or repaired, the deciding child is read, and the outcome
 is written to the status. The children and the custom resources are two parts of
 one API server that share no object.
 */
module Controllers {
  import opened Wrappers
  import opened Values
  import opened Names
  import opened Status
  import Conditions
  import Readiness
  import Children
  import opened Plans
  import opened ServerReconcile
  import StatusStore
  import PatchStatus

  /** What a reconcile returns. */
  datatype Result = Done | RequeueAfter(seconds: nat) | Failed

  // ---- The custom resources while a reconcile runs ------------------------------

  type Steps = seq<StatusStore.Step>

  /** Objects of different kinds never share a key. */
  ghost predicate KindStable(steps: Steps, key: StatusStore.Key, kind: Kind) {
    forall i :: 0 <= i < |steps| && steps[i].Create? && steps[i].key == key ==> steps[i].kind == kind
  }

  ghost predicate HasKind(w: StatusStore.World, key: StatusStore.Key, kind: Kind) {
    key in w.objects ==> w.objects[key].kind == kind
  }

  lemma {:induction false} KindIsKept(w: StatusStore.World, steps: Steps, key: StatusStore.Key, kind: Kind)
    requires HasKind(w, key, kind) && KindStable(steps, key, kind)
    ensures HasKind(StatusStore.Run(w, steps), key, kind)
    decreases |steps|
  {
    hide Mutate;
    if steps != [] {
      assert KindStable(steps[1..], key, kind) by {
        assert forall i :: 0 <= i < |steps[1..]| ==> steps[1..][i] == steps[i + 1];
      }
      KindIsKept(StatusStore.Next(w, steps[0]), steps[1..], key, kind);
    }
  }

  /** The store as a reconcile of this kind may find it under this key. */
  ghost predicate Ready(w: StatusStore.World, key: StatusStore.Key, kind: Kind) {
    PatchStatus.Bounded(w) && HasKind(w, key, kind)
  }

  lemma ReadyAfter(w: StatusStore.World, steps: Steps, key: StatusStore.Key, kind: Kind)
    requires Ready(w, key, kind) && KindStable(steps, key, kind)
    ensures Ready(StatusStore.Run(w, steps), key, kind)
  {
    KindIsKept(w, steps, key, kind);
    PatchStatus.VersionIdentifiesContent(w, steps, key);
  }

  /** Others act before the status is read and again before it is patched; either call may fail. */
  datatype StatusCall = StatusCall(before: Steps, getFails: bool, between: Steps, clock: nat -> int, rejected: bool)

  ghost predicate Fair(call: StatusCall, key: StatusStore.Key, kind: Kind) {
    KindStable(call.before, key, kind) && KindStable(call.between, key, kind)
  }

  /** The status call returned nil. */
  predicate Returned(written: PatchStatus.PatchResult) {
    written.NothingToDo? || written.Patched?
  }

  /** All custom resources after a status call: others acted, and at most one status was replaced. */
  function AfterCall(w: StatusStore.World, key: StatusStore.Key, call: StatusCall, written: PatchStatus.PatchResult): StatusStore.World {
    var read := StatusStore.Run(w, call.before);
    var met := StatusStore.Run(read, call.between);
    match written
    case NothingToDo => read
    case GetError => read
    case PatchError => met
    case Patched(status) => if key in met.objects then StatusStore.Put(met, key, met.objects[key].(status := status)) else met
  }

  /** A status call that returned nil leaves a status that shows exactly what was observed. */
  ghost predicate Told(w: StatusStore.World, key: StatusStore.Key, written: PatchStatus.PatchResult, ins: Inputs) {
    Returned(written) ==> key in w.objects && Reflects(w.objects[key], ins)
  }

  method WriteStatus(statuses: PatchStatus.ApiServer, key: StatusStore.Key, kind: Kind, ins: Inputs, call: StatusCall)
    returns (written: PatchStatus.PatchResult)
    requires Ready(statuses.world, key, kind) && Fair(call, key, kind) && Fits(kind, ins)
    modifies statuses
    ensures Told(statuses.world, key, written, ins)
    ensures statuses.world == AfterCall(old(statuses.world), key, call, written)
  {
    hide Mutate, Reflects;
    ReadyAfter(statuses.world, call.before, key, kind);
    statuses.Interfere(call.before);
    ghost var read := statuses.world;
    written := statuses.PatchStatus(key, call.getFails, ins, call.clock, call.between, call.rejected);
    if written.NothingToDo? {
      var o := read.objects[key];
      MutationReflects(o, ins, call.clock, o.version);
      assert o.(version := o.version, status := Mutate(o, ins, call.clock)) == o;
    }
    if written.Patched? {
      ghost var met := StatusStore.Run(read, call.between);
      KindIsKept(read, call.between, key, kind);
      MutationReflects(met.objects[key], ins, call.clock, met.revision + 1);
    }
  }

  // ---- The children while a reconcile runs ----------------------------------------

  /** Whether the child that decides readiness is there is up to the store, its state to the cluster. */
  datatype Sight<T> = Sight(fails: bool, state: T)

  function Seen<T>(s: Children.Store, key: Children.Key, sight: Sight<T>): Read<T> {
    if sight.fails then ReadFailed("") else if key in s then Found(sight.state) else NotFound
  }

  method Observe<T>(children: Children.ApiServer, key: Children.Key, sight: Sight<T>) returns (r: Read<T>)
    ensures r == Seen(children.api.store, key, sight)
  {
    var current := children.Get(key, sight.fails);
    match current {
      case ReadFailed(e) => return ReadFailed("");
      case NotFound => return NotFound;
      case Found(_) => return Found(sight.state);
    }
  }

  /** The text of the error that creation ended with, if it did. */
  function ErrorText(created: Option<Children.Error>, text: Children.Error -> string): Option<string> {
    if created.Some? then Some(text(created.value)) else None
  }

  lemma InPlaceOnSuccess(api: Children.Api, plan: seq<Item>, owner: string, faults: nat -> Children.Faults, admit: Value -> Value)
    requires KeepsIntended(admit) && DistinctKeys(plan)
    ensures var r := Pass(api, plan, owner, faults, admit, 0);
            r.error.None? ==> AllInPlace(r.api.store, plan)
  {
    assert plan[0..] == plan;
    SuccessMeansInPlace(api, plan, 0, owner, faults, admit);
  }

  /** The plan was run on api; where no error came of it every child is in place. */
  ghost predicate Ran(api: Children.Api, plan: seq<Item>, owner: string, faults: nat -> Children.Faults,
                      children: Children.ApiServer, created: Option<Children.Error>)
    reads children
  {
    && Children.Outcome(children.api, created) == Pass(api, plan, owner, faults, children.admit, 0)
    && (created.None? && KeepsIntended(children.admit) ==> AllInPlace(children.api.store, plan))
  }

  // ---- Pageserver, Safekeeper and Cluster ----------------------------------------------

  /** What a reconcile meets besides the two stores. */
  datatype Environment = Environment(
    getFails: bool,
    faults: nat -> Children.Faults,
    text: Children.Error -> string,
    sts: Sight<Readiness.StatefulSet>,
    pod: Read<Readiness.Pod>,
    controller: Sight<Readiness.Deployment>,
    broker: Sight<Readiness.Deployment>,
    call: StatusCall)

  method UpdateSTSBackedStatus(statuses: PatchStatus.ApiServer, children: Children.ApiServer, key: StatusStore.Key, kind: Kind,
                               workload: string, stsKey: Children.Key, err: Option<string>, env: Environment)
    returns (written: PatchStatus.PatchResult)
    requires Ready(statuses.world, key, kind) && Fair(env.call, key, kind)
    requires (kind == PageserverKind && workload == "Pageserver") || (kind == SafekeeperKind && workload == "Safekeeper")
    modifies statuses
    ensures Told(statuses.world, key, written, StatefulSetInputs(workload, err, Seen(children.api.store, stsKey, env.sts), env.pod))
    ensures statuses.world == AfterCall(old(statuses.world), key, env.call, written)
  {
    hide Told, AfterCall, Seen;
    var sts := Observe(children, stsKey, env.sts);
    written := WriteStatus(statuses, key, kind, StatefulSetInputs(workload, err, sts, env.pod), env.call);
  }

  /** The StatefulSet that carries a server. */
  function SetKey(s: Server, child: Child): Children.Key {
    Children.Key(StatefulSet, s.namespace, Name(child))
  }

  /**
   A reconcile of the resource that the store holds: the children of its plan, its
   status, and nil iff both succeeded. spec reads the specification off the resource.
   */
  method ReconcilePageserver(children: Children.ApiServer, statuses: PatchStatus.ApiServer, key: StatusStore.Key,
                             spec: Object -> Server, toml: Option<string>, image: Option<string>, env: Environment)
    returns (ok: bool, created: Option<Children.Error>, written: PatchStatus.PatchResult)
    requires Ready(statuses.world, key, PageserverKind) && Fair(env.call, key, PageserverKind)
    modifies children, statuses
    ensures env.getFails || key !in old(statuses.world).objects ==>
              ok == !env.getFails && statuses.world == old(statuses.world) && children.api == old(children.api)
    ensures !env.getFails && key in old(statuses.world).objects ==>
              var s := spec(old(statuses.world).objects[key]);
              && Ran(old(children.api), PageserverPlan(s, toml, image), s.uid, env.faults, children, created)
              && Told(statuses.world, key, written,
                      StatefulSetInputs("Pageserver", ErrorText(created, env.text),
                                        Seen(children.api.store, SetKey(s, PageserverStatefulSet(s.cluster, s.id)), env.sts), env.pod))
              && statuses.world == AfterCall(old(statuses.world), key, env.call, written)
              && (ok <==> created.None? && Returned(written))
  {
    hide Told, AfterCall, Pass, PageserverPlan, KeepsIntended, AllInPlace, Seen, SetKey;
    created, written := None, PatchStatus.GetError;
    if env.getFails || key !in statuses.world.objects {
      return !env.getFails, created, written;
    }
    var s := spec(statuses.world.objects[key]);
    ghost var start := children.api;
    created := CreatePageserverResources(children, s, toml, image, env.faults);
    if KeepsIntended(children.admit) {
      PageserverPlanKeysAreDistinct(s, toml, image);
      InPlaceOnSuccess(start, PageserverPlan(s, toml, image), s.uid, env.faults, children.admit);
    }
    written := UpdateSTSBackedStatus(statuses, children, key, PageserverKind, "Pageserver",
                                     SetKey(s, PageserverStatefulSet(s.cluster, s.id)), ErrorText(created, env.text), env);
    ok := created.None? && Returned(written);
  }

  method ReconcileSafekeeper(children: Children.ApiServer, statuses: PatchStatus.ApiServer, key: StatusStore.Key,
                             spec: Object -> Server, image: Option<string>, env: Environment)
    returns (ok: bool, created: Option<Children.Error>, written: PatchStatus.PatchResult)
    requires Ready(statuses.world, key, SafekeeperKind) && Fair(env.call, key, SafekeeperKind)
    modifies children, statuses
    ensures env.getFails || key !in old(statuses.world).objects ==>
              ok == !env.getFails && statuses.world == old(statuses.world) && children.api == old(children.api)
    ensures !env.getFails && key in old(statuses.world).objects ==>
              var s := spec(old(statuses.world).objects[key]);
              && Ran(old(children.api), SafekeeperPlan(s, image), s.uid, env.faults, children, created)
              && Told(statuses.world, key, written,
                      StatefulSetInputs("Safekeeper", ErrorText(created, env.text),
                                        Seen(children.api.store, SetKey(s, SafekeeperStatefulSet(s.cluster, s.id)), env.sts), env.pod))
              && statuses.world == AfterCall(old(statuses.world), key, env.call, written)
              && (ok <==> created.None? && Returned(written))
  {
    hide Told, AfterCall, Pass, SafekeeperPlan, KeepsIntended, AllInPlace, Seen, SetKey;
    created, written := None, PatchStatus.GetError;
    if env.getFails || key !in statuses.world.objects {
      return !env.getFails, created, written;
    }
    var s := spec(statuses.world.objects[key]);
    ghost var start := children.api;
    created := CreateSafekeeperResources(children, s, image, env.faults);
    if KeepsIntended(children.admit) {
      SafekeeperPlanKeysAreDistinct(s, image);
      InPlaceOnSuccess(start, SafekeeperPlan(s, image), s.uid, env.faults, children.admit);
    }
    written := UpdateSTSBackedStatus(statuses, children, key, SafekeeperKind, "Safekeeper",
                                     SetKey(s, SafekeeperStatefulSet(s.cluster, s.id)), ErrorText(created, env.text), env);
    ok := created.None? && Returned(written);
  }

  function DeploymentKey(c: Cluster, child: Child): Children.Key {
    Children.Key(ChildKind.Deployment, c.namespace, Name(child))
  }

  /** What a cluster's status closure captures. */
  function ClusterSeen(s: Children.Store, c: Cluster, err: Option<string>, env: Environment): Inputs {
    ClusterInputs(err, Seen(s, DeploymentKey(c, ControllerDeployment(c.name)), env.controller),
                  Seen(s, DeploymentKey(c, BrokerDeployment(c.name)), env.broker))
  }

  method UpdateClusterStatus(statuses: PatchStatus.ApiServer, children: Children.ApiServer, key: StatusStore.Key, c: Cluster,
                             err: Option<string>, env: Environment)
    returns (written: PatchStatus.PatchResult)
    requires Ready(statuses.world, key, ClusterKind) && Fair(env.call, key, ClusterKind)
    modifies statuses
    ensures Told(statuses.world, key, written, ClusterSeen(children.api.store, c, err, env))
    ensures statuses.world == AfterCall(old(statuses.world), key, env.call, written)
  {
    hide Told, AfterCall, Seen, DeploymentKey;
    var controller := Observe(children, DeploymentKey(c, ControllerDeployment(c.name)), env.controller);
    var broker := Observe(children, DeploymentKey(c, BrokerDeployment(c.name)), env.broker);
    written := WriteStatus(statuses, key, ClusterKind, ClusterInputs(err, controller, broker), env.call);
  }

  /** The source goes on when its first read finds no cluster, so here there is one. */
  method ReconcileCluster(children: Children.ApiServer, statuses: PatchStatus.ApiServer, key: StatusStore.Key,
                          spec: Object -> Cluster, keys: bool, env: Environment)
    returns (ok: bool, created: Option<Children.Error>, written: PatchStatus.PatchResult)
    requires key in statuses.world.objects
    requires Ready(statuses.world, key, ClusterKind) && Fair(env.call, key, ClusterKind)
    modifies children, statuses
    ensures env.getFails ==> !ok && statuses.world == old(statuses.world) && children.api == old(children.api)
    ensures !env.getFails ==>
              var c := spec(old(statuses.world).objects[key]);
              && Ran(old(children.api), ClusterPlan(c, keys), c.uid, env.faults, children, created)
              && Told(statuses.world, key, written, ClusterSeen(children.api.store, c, ErrorText(created, env.text), env))
              && statuses.world == AfterCall(old(statuses.world), key, env.call, written)
              && (ok <==> created.None? && Returned(written))
  {
    hide Told, AfterCall, Pass, ClusterPlan, KeepsIntended, AllInPlace, ClusterSeen;
    created, written := None, PatchStatus.GetError;
    if env.getFails {
      return false, created, written;
    }
    var c := spec(statuses.world.objects[key]);
    ghost var start := children.api;
    created := CreateClusterResources(children, c, keys, env.faults);
    if KeepsIntended(children.admit) {
      ClusterPlanKeysAreDistinct(c, keys);
      InPlaceOnSuccess(start, ClusterPlan(c, keys), c.uid, env.faults, children.admit);
    }
    written := UpdateClusterStatus(statuses, children, key, c, ErrorText(created, env.text), env);
    ok := created.None? && Returned(written);
  }

  // ---- What the status calls tell --------------------------------------------------------

  /** What a server's StatefulSet under this key, as the store has it and the cluster runs it, makes of Available. */
  ghost predicate TellsServer(o: Object, stsKey: Children.Key, s: Children.Store, created: Option<Children.Error>, env: Environment) {
    var conds := o.status.conditions;
    && (Is(conds, Conditions.Available, Conditions.StatusTrue) <==>
          && created.None? && !env.sts.fails && stsKey in s
          && env.sts.state.observedGeneration >= env.sts.state.generation
          && env.sts.state.readyReplicas >= if env.sts.state.replicas.Some? then env.sts.state.replicas.value else 1)
    && (Is(conds, Conditions.Available, Conditions.StatusUnknown) <==> created.None? && env.sts.fails)
    && (Is(conds, Conditions.ResourcesReady, Conditions.StatusTrue) <==> created.None?)
    && (created.Some? ==> Says(conds, Conditions.Available, Conditions.Message.Text(env.text(created.value))))
  }

  lemma PageserverIsTold(w: StatusStore.World, key: StatusStore.Key, o: Server, s: Children.Store, created: Option<Children.Error>, env: Environment,
                         written: PatchStatus.PatchResult)
    requires Told(w, key, written, StatefulSetInputs("Pageserver", ErrorText(created, env.text),
                                                     Seen(s, SetKey(o, PageserverStatefulSet(o.cluster, o.id)), env.sts), env.pod))
    requires Returned(written)
    ensures key in w.objects
    ensures TellsServer(w.objects[key], Children.Key(StatefulSet, o.namespace, Name(PageserverStatefulSet(o.cluster, o.id))), s, created, env)
  {
    hide Reflects, Name;
    var ins := StatefulSetInputs("Pageserver", ErrorText(created, env.text), Seen(s, SetKey(o, PageserverStatefulSet(o.cluster, o.id)), env.sts), env.pod);
    StatefulSetStatusTells(w.objects[key], ins);
  }

  lemma SafekeeperIsTold(w: StatusStore.World, key: StatusStore.Key, o: Server, s: Children.Store, created: Option<Children.Error>, env: Environment,
                         written: PatchStatus.PatchResult)
    requires Told(w, key, written, StatefulSetInputs("Safekeeper", ErrorText(created, env.text),
                                                     Seen(s, SetKey(o, SafekeeperStatefulSet(o.cluster, o.id)), env.sts), env.pod))
    requires Returned(written)
    ensures key in w.objects
    ensures TellsServer(w.objects[key], Children.Key(StatefulSet, o.namespace, Name(SafekeeperStatefulSet(o.cluster, o.id))), s, created, env)
  {
    hide Reflects, Name;
    var ins := StatefulSetInputs("Safekeeper", ErrorText(created, env.text), Seen(s, SetKey(o, SafekeeperStatefulSet(o.cluster, o.id)), env.sts), env.pod);
    StatefulSetStatusTells(w.objects[key], ins);
  }

  /** A Deployment under this key that could be read and is available. */
  predicate Stands(s: Children.Store, key: Children.Key, sight: Sight<Readiness.Deployment>) {
    !sight.fails && key in s && Readiness.DeploymentAvailable(sight.state.conditions)
  }

  lemma ClusterIsTold(w: StatusStore.World, key: StatusStore.Key, c: Cluster, s: Children.Store, created: Option<Children.Error>, env: Environment,
                      written: PatchStatus.PatchResult)
    requires Told(w, key, written, ClusterSeen(s, c, ErrorText(created, env.text), env)) && Returned(written)
    ensures key in w.objects
    ensures var conds := w.objects[key].status.conditions;
            var controller := Children.Key(ChildKind.Deployment, c.namespace, Name(ControllerDeployment(c.name)));
            var broker := Children.Key(ChildKind.Deployment, c.namespace, Name(BrokerDeployment(c.name)));
            && (Is(conds, Conditions.Available, Conditions.StatusTrue) <==>
                  created.None? && Stands(s, controller, env.controller) && Stands(s, broker, env.broker))
            && (Is(conds, Conditions.StorageControllerAvailable, Conditions.StatusTrue) <==> Stands(s, controller, env.controller))
            && (Is(conds, Conditions.StorageControllerAvailable, Conditions.StatusUnknown) <==> env.controller.fails)
            && (Is(conds, Conditions.StorageBrokerAvailable, Conditions.StatusTrue) <==> Stands(s, broker, env.broker))
            && (Is(conds, Conditions.StorageBrokerAvailable, Conditions.StatusUnknown) <==> env.broker.fails)
            && (created.Some? ==> Says(conds, Conditions.Available, Conditions.Message.Text(env.text(created.value))))
  {
    hide Reflects, Name, Is, Says, Because;
    var ins := ClusterSeen(s, c, ErrorText(created, env.text), env);
    FitsTheKind(w.objects[key], ins);
    ClusterStatusTells(w.objects[key], ins);
  }
}
