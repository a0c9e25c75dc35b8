/** Creation of the children of a Cluster, a Pageserver and a Safekeeper. */
module ServerReconcile {
  import opened Wrappers
  import opened Values
  import opened Names
  import opened Children
  import opened Bodies
  import opened Plans
  import opened Interleaving

  /** A Pageserver or Safekeeper resource. */
  datatype Server = Server(name: string, namespace: string, uid: string, cluster: string, id: nat)

  function Typed(kind: ChildKind, namespace: string, child: Child, labels: map<string, string>, body: Value): Intended {
    Intended(Key(kind, namespace, Name(child)), true, labels, map[], body)
  }

  function ServerLabels(s: Server, component: string): map<string, string> {
    map["molnett.org/cluster" := s.cluster, "molnett.org/component" := component, ("molnett.org/" + component) := s.name]
  }

  /** What its Services select a server's pods by. */
  function SelectorLabels(s: Server, component: string): map<string, string> {
    map[("molnett.org/" + component) := s.name]
  }

  /** A headless Service has no cluster address; the target ports are left unset. */
  function ServerService(s: Server, component: string, clusterIP: string, port: int, httpPort: int): Value {
    ServiceBody(clusterIP, SelectorLabels(s, component), [Port("pg", port, 0), Port("http", httpPort, 0)])
  }

  function StatefulSetBody(s: Server, component: string, headless: Child, image: string): Value {
    Record(map[
      "replicas" := Num(1),
      "serviceName" := Str(Name(headless)),
      "selector" := LabelsValue(SelectorLabels(s, component)),
      "template" := LabelsValue(ServerLabels(s, component)),
      "image" := Str(image)
    ])
  }

  // ---- Pageserver ---------------------------------------------------------------------

  function PageserverConfig(s: Server, toml: string): Intended {
    Typed(ConfigMap, s.namespace, PageserverConfigMap(s.cluster, s.id), ServerLabels(s, "pageserver"), Record(map["pageserver.toml" := Str(toml)]))
  }

  function PageserverServiceObject(s: Server): Intended {
    Typed(Service, s.namespace, PageserverService(s.cluster, s.id), ServerLabels(s, "pageserver"), ServerService(s, "pageserver", "", 6400, 9898))
  }

  function PageserverHeadlessObject(s: Server): Intended {
    Typed(Service, s.namespace, PageserverHeadless(s.cluster, s.id), ServerLabels(s, "pageserver"), ServerService(s, "pageserver", "None", 6400, 9898))
  }

  function PageserverSet(s: Server, image: string): Intended {
    Typed(StatefulSet, s.namespace, PageserverStatefulSet(s.cluster, s.id), ServerLabels(s, "pageserver"),
          StatefulSetBody(s, "pageserver", PageserverHeadless(s.cluster, s.id), image))
  }

  /** toml is made from the bucket secret, image comes from the cluster; None when the read fails. */
  function PageserverPlan(s: Server, toml: Option<string>, image: Option<string>): seq<Item> {
    [ Need(toml.Some?),
      Ensure(PageserverConfig(s, if toml.Some? then toml.value else "")),
      Ensure(PageserverServiceObject(s)),
      Ensure(PageserverHeadlessObject(s)),
      Need(image.Some?),
      Ensure(PageserverSet(s, if image.Some? then image.value else "")) ]
  }

  method ReconcilePageserverConfig(server: ApiServer, s: Server, toml: Option<string>, faults: nat -> Faults) returns (err: Option<Error>)
    modifies server
    ensures Outcome(server.api, err) ==
            if toml.Some? && !faults(0).get then SSA(old(server.api), PageserverConfig(s, toml.value), s.uid, faults(1), server.admit)
            else Outcome(old(server.api), Some(NeedFailed))
  {
    if toml.None? || faults(0).get {
      return Some(NeedFailed);
    }
    err := ReconcileSSA(server, PageserverConfig(s, toml.value), s.uid, faults(1));
  }

  method CreatePageserverResources(server: ApiServer, s: Server, toml: Option<string>, image: Option<string>, faults: nat -> Faults)
    returns (err: Option<Error>)
    modifies server
    ensures Outcome(server.api, err) == Pass(old(server.api), PageserverPlan(s, toml, image), s.uid, faults, server.admit, 0)
    ensures err.None? ==>
              && toml.Some? && image.Some?
              && Key(ConfigMap, s.namespace, Name(PageserverConfigMap(s.cluster, s.id))) in server.api.store
              && Key(Service, s.namespace, Name(PageserverService(s.cluster, s.id))) in server.api.store
              && Key(Service, s.namespace, Name(PageserverHeadless(s.cluster, s.id))) in server.api.store
              && Key(StatefulSet, s.namespace, Name(PageserverStatefulSet(s.cluster, s.id))) in server.api.store
  {
    PageserverPresent(server.api, s, toml, image, faults, server.admit);
    hide SSA, PageserverConfig, PageserverServiceObject, PageserverHeadlessObject, PageserverSet, Name;
    ghost var plan := PageserverPlan(s, toml, image);
    assert plan[0..] == plan;
    PassUnfolds(server.api, plan, 0, s.uid, faults, server.admit);
    PassUnfolds(server.api, plan, 1, s.uid, faults, server.admit);
    err := ReconcilePageserverConfig(server, s, toml, faults);
    if err.Some? {
      return;
    }
    PassUnfolds(server.api, plan, 2, s.uid, faults, server.admit);
    err := ReconcileSSA(server, PageserverServiceObject(s), s.uid, faults(2));
    if err.Some? {
      return;
    }
    PassUnfolds(server.api, plan, 3, s.uid, faults, server.admit);
    err := ReconcileSSA(server, PageserverHeadlessObject(s), s.uid, faults(3));
    if err.Some? {
      return;
    }
    PassUnfolds(server.api, plan, 4, s.uid, faults, server.admit);
    if image.None? || faults(4).get {
      return Some(NeedFailed);
    }
    PassUnfolds(server.api, plan, 5, s.uid, faults, server.admit);
    err := ReconcileSSA(server, PageserverSet(s, image.value), s.uid, faults(5));
    PassUnfolds(server.api, plan, 6, s.uid, faults, server.admit);
  }

  lemma PageserverPresent(api: Api, s: Server, toml: Option<string>, image: Option<string>, faults: nat -> Faults, admit: Value -> Value)
    ensures var r := Pass(api, PageserverPlan(s, toml, image), s.uid, faults, admit, 0);
            r.error.None? ==>
              && toml.Some? && image.Some?
              && Key(ConfigMap, s.namespace, Name(PageserverConfigMap(s.cluster, s.id))) in r.api.store
              && Key(Service, s.namespace, Name(PageserverService(s.cluster, s.id))) in r.api.store
              && Key(Service, s.namespace, Name(PageserverHeadless(s.cluster, s.id))) in r.api.store
              && Key(StatefulSet, s.namespace, Name(PageserverStatefulSet(s.cluster, s.id))) in r.api.store
  {
    hide Pass, Name;
    var plan := PageserverPlan(s, toml, image);
    assert plan[0..] == plan;
    SuccessMeansPresent(api, plan, 0, s.uid, faults, admit);
    assert plan[0].Need? && plan[1].Ensure? && plan[2].Ensure? && plan[3].Ensure? && plan[4].Need? && plan[5].Ensure?;
  }

  lemma PageserverPlanKeysAreDistinct(s: Server, toml: Option<string>, image: Option<string>)
    ensures DistinctKeys(PageserverPlan(s, toml, image))
  {
  }

  lemma PageserverConverges(api: Api, s: Server, toml: string, image: string, faults: nat -> Faults, admit: Value -> Value)
    requires KeepsIntended(admit)
    ensures var plan := PageserverPlan(s, Some(toml), Some(image));
            var r := Pass(api, plan, s.uid, FAULT_FREE, admit, 0);
            && r.error.None? && AllInPlace(r.api.store, plan)
            && Writes(Pass(r.api, plan, s.uid, faults, admit, 0).api.trace) == Writes(r.api.trace)
  {
    hide Pass, KeepsIntended, Drift;
    PageserverPlanKeysAreDistinct(s, Some(toml), Some(image));
    OnePassConverges(api, PageserverPlan(s, Some(toml), Some(image)), s.uid, faults, admit);
  }

  // ---- Safekeeper ---------------------------------------------------------------------

  function SafekeeperServiceObject(s: Server): Intended {
    Typed(Service, s.namespace, SafekeeperService(s.cluster, s.id), ServerLabels(s, "safekeeper"), ServerService(s, "safekeeper", "", 5454, 7676))
  }

  function SafekeeperHeadlessObject(s: Server): Intended {
    Typed(Service, s.namespace, SafekeeperHeadless(s.cluster, s.id), ServerLabels(s, "safekeeper"), ServerService(s, "safekeeper", "None", 5454, 7676))
  }

  function SafekeeperSet(s: Server, image: string): Intended {
    Typed(StatefulSet, s.namespace, SafekeeperStatefulSet(s.cluster, s.id), ServerLabels(s, "safekeeper"),
          StatefulSetBody(s, "safekeeper", SafekeeperHeadless(s.cluster, s.id), image))
  }

  function SafekeeperPlan(s: Server, image: Option<string>): seq<Item> {
    [ Ensure(SafekeeperServiceObject(s)),
      Ensure(SafekeeperHeadlessObject(s)),
      Need(image.Some?),
      Ensure(SafekeeperSet(s, if image.Some? then image.value else "")) ]
  }

  method CreateSafekeeperResources(server: ApiServer, s: Server, image: Option<string>, faults: nat -> Faults) returns (err: Option<Error>)
    modifies server
    ensures Outcome(server.api, err) == Pass(old(server.api), SafekeeperPlan(s, image), s.uid, faults, server.admit, 0)
    ensures err.None? ==>
              && image.Some?
              && Key(Service, s.namespace, Name(SafekeeperService(s.cluster, s.id))) in server.api.store
              && Key(Service, s.namespace, Name(SafekeeperHeadless(s.cluster, s.id))) in server.api.store
              && Key(StatefulSet, s.namespace, Name(SafekeeperStatefulSet(s.cluster, s.id))) in server.api.store
  {
    SafekeeperPresent(server.api, s, image, faults, server.admit);
    hide SSA, SafekeeperServiceObject, SafekeeperHeadlessObject, SafekeeperSet, Name;
    ghost var plan := SafekeeperPlan(s, image);
    assert plan[0..] == plan;
    PassUnfolds(server.api, plan, 0, s.uid, faults, server.admit);
    err := ReconcileSSA(server, SafekeeperServiceObject(s), s.uid, faults(0));
    if err.Some? {
      return;
    }
    PassUnfolds(server.api, plan, 1, s.uid, faults, server.admit);
    err := ReconcileSSA(server, SafekeeperHeadlessObject(s), s.uid, faults(1));
    if err.Some? {
      return;
    }
    PassUnfolds(server.api, plan, 2, s.uid, faults, server.admit);
    if image.None? || faults(2).get {
      return Some(NeedFailed);
    }
    PassUnfolds(server.api, plan, 3, s.uid, faults, server.admit);
    err := ReconcileSSA(server, SafekeeperSet(s, image.value), s.uid, faults(3));
    PassUnfolds(server.api, plan, 4, s.uid, faults, server.admit);
  }

  lemma SafekeeperPresent(api: Api, s: Server, image: Option<string>, faults: nat -> Faults, admit: Value -> Value)
    ensures var r := Pass(api, SafekeeperPlan(s, image), s.uid, faults, admit, 0);
            r.error.None? ==>
              && image.Some?
              && Key(Service, s.namespace, Name(SafekeeperService(s.cluster, s.id))) in r.api.store
              && Key(Service, s.namespace, Name(SafekeeperHeadless(s.cluster, s.id))) in r.api.store
              && Key(StatefulSet, s.namespace, Name(SafekeeperStatefulSet(s.cluster, s.id))) in r.api.store
  {
    hide Pass, Name;
    var plan := SafekeeperPlan(s, image);
    assert plan[0..] == plan;
    SuccessMeansPresent(api, plan, 0, s.uid, faults, admit);
    assert plan[0].Ensure? && plan[1].Ensure? && plan[2].Need? && plan[3].Ensure?;
  }

  lemma SafekeeperPlanKeysAreDistinct(s: Server, image: Option<string>)
    ensures DistinctKeys(SafekeeperPlan(s, image))
  {
    var plan := SafekeeperPlan(s, image);
    var owner := OfSafekeeper(s.cluster, s.id);
    forall i, j | 0 <= i < j < |plan| && plan[i].Ensure? && plan[j].Ensure? ensures plan[i].child.key != plan[j].child.key {
      if plan[i].child.key == plan[j].child.key {
        ChildrenAreDistinct(owner, if i < 2 then i else 2, owner, if j < 2 then j else 2);
      }
    }
  }

  lemma SafekeeperConverges(api: Api, s: Server, image: string, faults: nat -> Faults, admit: Value -> Value)
    requires KeepsIntended(admit)
    ensures var plan := SafekeeperPlan(s, Some(image));
            var r := Pass(api, plan, s.uid, FAULT_FREE, admit, 0);
            && r.error.None? && AllInPlace(r.api.store, plan)
            && Writes(Pass(r.api, plan, s.uid, faults, admit, 0).api.trace) == Writes(r.api.trace)
  {
    hide Pass, KeepsIntended, Drift;
    SafekeeperPlanKeysAreDistinct(s, Some(image));
    OnePassConverges(api, SafekeeperPlan(s, Some(image)), s.uid, faults, admit);
  }

  // ---- Prefixes ------------------------------------------------------------------------

  /** However a Pageserver and what it reads change, its children keep their names and their order. */
  lemma PageserverKeepsItsNames(s: Server, toml: Option<string>, image: Option<string>, s': Server, toml': Option<string>, image': Option<string>)
    requires s'.namespace == s.namespace && s'.cluster == s.cluster && s'.id == s.id
    ensures SameKeys(PageserverPlan(s', toml', image'), PageserverPlan(s, toml, image))
  {
  }

  /** ConfigMap, Service, headless Service, StatefulSet: what exists is always a prefix. */
  lemma PageserverPrefix(s: State, es: seq<Occurrence>, ps: Server, toml: Option<string>, image: Option<string>, admit: Value -> Value)
    requires InOrder(s, PageserverPlan(ps, toml, image)) && OnlyEdits(s, es, ps.uid, admit, PageserverPlan(ps, toml, image))
    ensures var after := Interleaving.Run(s, es, ps.uid, admit).api.store;
            && (Key(StatefulSet, ps.namespace, Name(PageserverStatefulSet(ps.cluster, ps.id))) in after ==>
                  Key(Service, ps.namespace, Name(PageserverHeadless(ps.cluster, ps.id))) in after)
            && (Key(Service, ps.namespace, Name(PageserverHeadless(ps.cluster, ps.id))) in after ==>
                  Key(Service, ps.namespace, Name(PageserverService(ps.cluster, ps.id))) in after)
            && (Key(Service, ps.namespace, Name(PageserverService(ps.cluster, ps.id))) in after ==>
                  Key(ConfigMap, ps.namespace, Name(PageserverConfigMap(ps.cluster, ps.id))) in after)
  {
    hide InOrder, OnlyEdits, Interleaving.Run;
    var plan := PageserverPlan(ps, toml, image);
    PageserverPlanKeysAreDistinct(ps, toml, image);
    PrefixIsKept(s, es, ps.uid, admit, plan);
    assert plan[1].Ensure? && plan[2].Ensure? && plan[3].Ensure? && plan[5].Ensure?;
  }

  lemma SafekeeperKeepsItsNames(s: Server, image: Option<string>, s': Server, image': Option<string>)
    requires s'.namespace == s.namespace && s'.cluster == s.cluster && s'.id == s.id
    ensures SameKeys(SafekeeperPlan(s', image'), SafekeeperPlan(s, image))
  {
  }

  lemma SafekeeperPrefix(s: State, es: seq<Occurrence>, sk: Server, image: Option<string>, admit: Value -> Value)
    requires InOrder(s, SafekeeperPlan(sk, image)) && OnlyEdits(s, es, sk.uid, admit, SafekeeperPlan(sk, image))
    ensures var after := Interleaving.Run(s, es, sk.uid, admit).api.store;
            && (Key(StatefulSet, sk.namespace, Name(SafekeeperStatefulSet(sk.cluster, sk.id))) in after ==>
                  Key(Service, sk.namespace, Name(SafekeeperHeadless(sk.cluster, sk.id))) in after)
            && (Key(Service, sk.namespace, Name(SafekeeperHeadless(sk.cluster, sk.id))) in after ==>
                  Key(Service, sk.namespace, Name(SafekeeperService(sk.cluster, sk.id))) in after)
  {
    hide InOrder, OnlyEdits, Interleaving.Run;
    var plan := SafekeeperPlan(sk, image);
    SafekeeperPlanKeysAreDistinct(sk, image);
    PrefixIsKept(s, es, sk.uid, admit, plan);
    assert plan[0].Ensure? && plan[1].Ensure? && plan[3].Ensure?;
  }

  // ---- Cluster ---------------------------------------------------------------------------

  datatype Cluster = Cluster(name: string, namespace: string, uid: string, image: string)

  /** What a cluster's Services select their pods by. */
  function ComponentLabels(child: Child): map<string, string> {
    map["app.kubernetes.io/name" := Name(child)]
  }

  function ComponentDeployment(c: Cluster, child: Child, port: int): Intended {
    Typed(ChildKind.Deployment, c.namespace, child, map[],
          Record(map[
            "replicas" := Num(1),
            "strategy" := Str("RollingUpdate"),
            "selector" := LabelsValue(ComponentLabels(child)),
            "template" := LabelsValue(ComponentLabels(child)),
            "image" := Str(c.image),
            "port" := Num(port)
          ]))
  }

  function ControllerDeploymentObject(c: Cluster): Intended {
    ComponentDeployment(c, ControllerDeployment(c.name), 8080)
  }

  function BrokerDeploymentObject(c: Cluster): Intended {
    ComponentDeployment(c, BrokerDeployment(c.name), 50051)
  }

  /** The two Services of a cluster are built without kind and API version. */
  function UntypedService(c: Cluster, child: Child, port: int): Intended {
    Intended(
      Key(Service, c.namespace, Name(child)), false, ComponentLabels(child), map[],
      ServiceBody("", ComponentLabels(child), [Port("http", port, port)]))
  }

  function ControllerServiceObject(c: Cluster): Intended {
    UntypedService(c, ControllerService(c.name), 8080)
  }

  function BrokerServiceObject(c: Cluster): Intended {
    UntypedService(c, BrokerService(c.name), 50051)
  }

  /** After the JWT keys: controller Deployment and Service, broker Deployment and Service. */
  function ClusterPlan(c: Cluster, keys: bool): seq<Item> {
    [ Need(keys),
      Ensure(ControllerDeploymentObject(c)),
      Ensure(ControllerServiceObject(c)),
      Ensure(BrokerDeploymentObject(c)),
      Ensure(BrokerServiceObject(c)) ]
  }

  method ReconcileStorageController(server: ApiServer, c: Cluster, f: Faults, g: Faults) returns (err: Option<Error>)
    modifies server
    ensures var r := SSA(old(server.api), ControllerDeploymentObject(c), c.uid, f, server.admit);
            Outcome(server.api, err) == if r.error.Some? then r else SSA(r.api, ControllerServiceObject(c), c.uid, g, server.admit)
  {
    err := ReconcileSSA(server, ControllerDeploymentObject(c), c.uid, f);
    if err.Some? {
      return;
    }
    err := ReconcileSSA(server, ControllerServiceObject(c), c.uid, g);
  }

  method ReconcileStorageBroker(server: ApiServer, c: Cluster, f: Faults, g: Faults) returns (err: Option<Error>)
    modifies server
    ensures var r := SSA(old(server.api), BrokerDeploymentObject(c), c.uid, f, server.admit);
            Outcome(server.api, err) == if r.error.Some? then r else SSA(r.api, BrokerServiceObject(c), c.uid, g, server.admit)
  {
    err := ReconcileSSA(server, BrokerDeploymentObject(c), c.uid, f);
    if err.Some? {
      return;
    }
    err := ReconcileSSA(server, BrokerServiceObject(c), c.uid, g);
  }

  method CreateClusterResources(server: ApiServer, c: Cluster, keys: bool, faults: nat -> Faults) returns (err: Option<Error>)
    modifies server
    ensures Outcome(server.api, err) == Pass(old(server.api), ClusterPlan(c, keys), c.uid, faults, server.admit, 0)
    ensures err.None? ==>
              && keys
              && Key(ChildKind.Deployment, c.namespace, Name(ControllerDeployment(c.name))) in server.api.store
              && Key(Service, c.namespace, Name(ControllerService(c.name))) in server.api.store
              && Key(ChildKind.Deployment, c.namespace, Name(BrokerDeployment(c.name))) in server.api.store
              && Key(Service, c.namespace, Name(BrokerService(c.name))) in server.api.store
  {
    ClusterPresent(server.api, c, keys, faults, server.admit);
    hide SSA, ControllerDeploymentObject, ControllerServiceObject, BrokerDeploymentObject, BrokerServiceObject, Name;
    ghost var plan := ClusterPlan(c, keys);
    ghost var start := server.api;
    assert plan[0..] == plan;
    PassUnfolds(start, plan, 0, c.uid, faults, server.admit);
    if !keys || faults(0).get {
      return Some(NeedFailed);
    }
    PassUnfolds(start, plan, 1, c.uid, faults, server.admit);
    PassUnfolds(Step(start, plan[1], c.uid, faults(1), server.admit).api, plan, 2, c.uid, faults, server.admit);
    err := ReconcileStorageController(server, c, faults(1), faults(2));
    if err.Some? {
      return;
    }
    ghost var mid := server.api;
    PassUnfolds(mid, plan, 3, c.uid, faults, server.admit);
    PassUnfolds(Step(mid, plan[3], c.uid, faults(3), server.admit).api, plan, 4, c.uid, faults, server.admit);
    err := ReconcileStorageBroker(server, c, faults(3), faults(4));
    PassUnfolds(server.api, plan, 5, c.uid, faults, server.admit);
  }

  lemma ClusterPresent(api: Api, c: Cluster, keys: bool, faults: nat -> Faults, admit: Value -> Value)
    ensures var r := Pass(api, ClusterPlan(c, keys), c.uid, faults, admit, 0);
            r.error.None? ==>
              && keys
              && Key(ChildKind.Deployment, c.namespace, Name(ControllerDeployment(c.name))) in r.api.store
              && Key(Service, c.namespace, Name(ControllerService(c.name))) in r.api.store
              && Key(ChildKind.Deployment, c.namespace, Name(BrokerDeployment(c.name))) in r.api.store
              && Key(Service, c.namespace, Name(BrokerService(c.name))) in r.api.store
  {
    hide Pass, Name;
    var plan := ClusterPlan(c, keys);
    assert plan[0..] == plan;
    SuccessMeansPresent(api, plan, 0, c.uid, faults, admit);
    assert plan[0].Need? && plan[1].Ensure? && plan[2].Ensure? && plan[3].Ensure? && plan[4].Ensure?;
  }

  /** Controller Deployment, its Service, broker Deployment, its Service: what exists is always a prefix. */
  lemma ClusterPrefix(s: State, es: seq<Occurrence>, c: Cluster, keys: bool, admit: Value -> Value)
    requires InOrder(s, ClusterPlan(c, keys)) && OnlyEdits(s, es, c.uid, admit, ClusterPlan(c, keys))
    ensures var after := Interleaving.Run(s, es, c.uid, admit).api.store;
            && (Key(Service, c.namespace, Name(BrokerService(c.name))) in after ==>
                  Key(ChildKind.Deployment, c.namespace, Name(BrokerDeployment(c.name))) in after)
            && (Key(ChildKind.Deployment, c.namespace, Name(BrokerDeployment(c.name))) in after ==>
                  Key(Service, c.namespace, Name(ControllerService(c.name))) in after)
            && (Key(Service, c.namespace, Name(ControllerService(c.name))) in after ==>
                  Key(ChildKind.Deployment, c.namespace, Name(ControllerDeployment(c.name))) in after)
  {
    hide InOrder, OnlyEdits, Interleaving.Run, Name;
    var plan := ClusterPlan(c, keys);
    ClusterPlanKeysAreDistinct(c, keys);
    PrefixIsKept(s, es, c.uid, admit, plan);
    assert plan[1].Ensure? && plan[2].Ensure? && plan[3].Ensure? && plan[4].Ensure?;
  }

  lemma ClusterPlanKeysAreDistinct(c: Cluster, keys: bool)
    ensures DistinctKeys(ClusterPlan(c, keys))
  {
    var plan := ClusterPlan(c, keys);
    forall i, j | 0 <= i < j < |plan| && plan[i].Ensure? && plan[j].Ensure? ensures plan[i].child.key != plan[j].child.key {
      if plan[i].child.key == plan[j].child.key {
        ChildrenAreDistinct(OfCluster(c.name), i, OfCluster(c.name), j);
      }
    }
  }

  /**
   A cluster is the exception to convergence: a fault-free pass brings its children
   in place exactly when neither of its two Services is present and drifted.
   */
  lemma ClusterConvergence(api: Api, c: Cluster, faults: nat -> Faults, admit: Value -> Value)
    requires KeepsIntended(admit)
    ensures var plan := ClusterPlan(c, true);
            var r := Pass(api, plan, c.uid, FAULT_FREE, admit, 0);
            var patchable := !Drifted(api.store, ControllerServiceObject(c)) && !Drifted(api.store, BrokerServiceObject(c));
            && (AllInPlace(r.api.store, plan) <==> patchable)
            && (r.error.None? <==> patchable)
            && (patchable ==> Writes(Pass(r.api, plan, c.uid, faults, admit, 0).api.trace) == Writes(r.api.trace))
  {
    hide Pass, KeepsIntended, Drift;
    var plan := ClusterPlan(c, true);
    ClusterPlanKeysAreDistinct(c, true);
    OnePassConverges(api, plan, c.uid, faults, admit);
    assert Patchable(api.store, plan) <==> !Drifted(api.store, plan[2].child) && !Drifted(api.store, plan[4].child);
  }

  /** Such a store: a Service of the right name with another body stays as it is, and every pass fails. */
  lemma AClusterThatNeverConverges(c: Cluster, admit: Value -> Value)
    requires KeepsIntended(admit)
    ensures var i := ControllerServiceObject(c);
            var api := Api(map[i.key := ChildObject(None, map[], map[], Null)], []);
            var r := Pass(api, ClusterPlan(c, true), c.uid, FAULT_FREE, admit, 0);
            r.error.Some? && !AllInPlace(r.api.store, ClusterPlan(c, true))
  {
    hide KeepsIntended, Pass;
    var i := ControllerServiceObject(c);
    assert "ports" in i.body.fields;
    ClusterConvergence(Api(map[i.key := ChildObject(None, map[], map[], Null)], []), c, FAULT_FREE, admit);
  }
}
