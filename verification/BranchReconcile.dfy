/** The branch controller: its four create-or-apply functions, and one reconcile. */
module BranchReconcile {
  import opened Wrappers
  import opened Values
  import opened Names
  import opened Children
  import opened Plans
  import opened Interleaving
  import opened ComputeObjects

  /** What the reads before the ConfigMap find: the cluster, its JWT secret, and a key in it. */
  datatype Needs = Needs(cluster: bool, secret: bool, key: Option<string>)

  function PublicText(needs: Needs): string {
    if needs.key.Some? then needs.key.value else ""
  }

  function BranchPlan(b: Branch, p: Project, needs: Needs): seq<Item> {
    [ Need(needs.cluster),
      Need(needs.secret),
      Need(needs.key.Some?),
      Ensure(ConfigMapObject(b, p, PublicText(needs))),
      Ensure(DeploymentObject(b, p)),
      Ensure(AdminServiceObject(b, p)),
      Ensure(PostgresServiceObject(b, p)) ]
  }

  lemma BranchPlanKeysAreDistinct(b: Branch, p: Project, needs: Needs)
    ensures DistinctKeys(BranchPlan(b, p, needs))
  {
    if Name(AdminService(b.name)) == Name(PostgresService(b.name)) {
      NamesDoNotCollide(AdminService(b.name), PostgresService(b.name));
    }
  }

  /** The keys of a branch's children depend on its name and namespace only. */
  lemma BranchPlanKeys(b: Branch, p: Project, needs: Needs)
    ensures var plan := BranchPlan(b, p, needs);
            && |plan| == 7 && forall i :: 0 <= i < 7 ==> (plan[i].Ensure? <==> 3 <= i)
    ensures var plan := BranchPlan(b, p, needs);
            && plan[3].child.key == Key(ConfigMap, b.namespace, Name(ComputeConfigMap(b.name)))
            && plan[4].child.key == Key(ChildKind.Deployment, b.namespace, Name(ComputeDeployment(b.name)))
            && plan[5].child.key == Key(Service, b.namespace, Name(AdminService(b.name)))
            && plan[6].child.key == Key(Service, b.namespace, Name(PostgresService(b.name)))
  {
  }

  method ReconcileConfigMap(server: ApiServer, b: Branch, p: Project, needs: Needs, faults: nat -> Faults) returns (err: Option<Error>)
    modifies server
    ensures var met := needs.cluster && !faults(0).get && needs.secret && !faults(1).get && needs.key.Some? && !faults(2).get;
            Outcome(server.api, err) ==
            if met then Inline(old(server.api), ConfigMapObject(b, p, PublicText(needs)), b.uid, faults(3), server.admit)
            else Outcome(old(server.api), Some(NeedFailed))
  {
    if !needs.cluster || faults(0).get {
      return Some(NeedFailed);
    }
    if !needs.secret || faults(1).get {
      return Some(NeedFailed);
    }
    if needs.key.None? || faults(2).get {
      return Some(NeedFailed);
    }
    var intended := ConfigMapObject(b, p, needs.key.value);
    var current := server.Get(intended.key, faults(3).get);
    if current.ReadFailed? {
      return Some(GetFailed);
    }
    if faults(3).owner {
      return Some(OwnerFailed);
    }
    if current.NotFound? {
      var ok := server.Create(intended, b.uid, faults(3).write);
      return if ok then None else Some(CreateFailed);
    }
    if !Derivative(intended.body, current.value.body) {
      var ok := server.Apply(intended, b.uid, faults(3).write);
      return if ok then None else Some(PatchFailed);
    }
    return None;
  }

  method ReconcileDeployment(server: ApiServer, b: Branch, p: Project, f: Faults) returns (err: Option<Error>)
    modifies server
    ensures Outcome(server.api, err) == Inline(old(server.api), DeploymentObject(b, p), b.uid, f, server.admit)
  {
    var intended := DeploymentObject(b, p);
    var current := server.Get(intended.key, f.get);
    if current.ReadFailed? {
      return Some(GetFailed);
    }
    if f.owner {
      return Some(OwnerFailed);
    }
    if current.NotFound? {
      var ok := server.Create(intended, b.uid, f.write);
      return if ok then None else Some(CreateFailed);
    }
    if !Derivative(intended.body, current.value.body) {
      var ok := server.Apply(intended, b.uid, f.write);
      return if ok then None else Some(PatchFailed);
    }
    return None;
  }

  method ReconcileAdminService(server: ApiServer, b: Branch, p: Project, f: Faults) returns (err: Option<Error>)
    modifies server
    ensures Outcome(server.api, err) == Inline(old(server.api), AdminServiceObject(b, p), b.uid, f, server.admit)
  {
    var intended := AdminServiceObject(b, p);
    var current := server.Get(intended.key, f.get);
    if current.ReadFailed? {
      return Some(GetFailed);
    }
    if f.owner {
      return Some(OwnerFailed);
    }
    if current.NotFound? {
      var ok := server.Create(intended, b.uid, f.write);
      return if ok then None else Some(CreateFailed);
    }
    if !Derivative(intended.body, current.value.body) {
      var ok := server.Apply(intended, b.uid, f.write);
      return if ok then None else Some(PatchFailed);
    }
    return None;
  }

  method ReconcilePostgresService(server: ApiServer, b: Branch, p: Project, f: Faults) returns (err: Option<Error>)
    modifies server
    ensures Outcome(server.api, err) == Inline(old(server.api), PostgresServiceObject(b, p), b.uid, f, server.admit)
  {
    var intended := PostgresServiceObject(b, p);
    var current := server.Get(intended.key, f.get);
    if current.ReadFailed? {
      return Some(GetFailed);
    }
    if f.owner {
      return Some(OwnerFailed);
    }
    if current.NotFound? {
      var ok := server.Create(intended, b.uid, f.write);
      return if ok then None else Some(CreateFailed);
    }
    if !Derivative(intended.body, current.value.body) {
      var ok := server.Apply(intended, b.uid, f.write);
      return if ok then None else Some(PatchFailed);
    }
    return None;
  }

  lemma BranchPresent(api: Api, b: Branch, p: Project, needs: Needs, faults: nat -> Faults, admit: Value -> Value)
    ensures var r := Pass(api, BranchPlan(b, p, needs), b.uid, faults, admit, 0);
            r.error.None? ==>
              && needs.cluster && needs.secret && needs.key.Some?
              && Key(ConfigMap, b.namespace, Name(ComputeConfigMap(b.name))) in r.api.store
              && Key(ChildKind.Deployment, b.namespace, Name(ComputeDeployment(b.name))) in r.api.store
              && Key(Service, b.namespace, Name(AdminService(b.name))) in r.api.store
              && Key(Service, b.namespace, Name(PostgresService(b.name))) in r.api.store
  {
    hide Pass, Name;
    var plan := BranchPlan(b, p, needs);
    assert plan[0..] == plan;
    BranchPlanKeys(b, p, needs);
    SuccessMeansPresent(api, plan, 0, b.uid, faults, admit);
    assert plan[0].Need? && plan[1].Need? && plan[2].Need?;
  }

  /** Together the hand-written functions do what a pass of ReconcileSSA over the plan does. */
  method CreateBranchResources(server: ApiServer, b: Branch, p: Project, needs: Needs, faults: nat -> Faults) returns (err: Option<Error>)
    modifies server
    ensures var r := Pass(old(server.api), BranchPlan(b, p, needs), b.uid, faults, server.admit, 0);
            server.api == r.api && (err.None? <==> r.error.None?)
    ensures err.None? ==>
              && needs.cluster && needs.secret && needs.key.Some?
              && Key(ConfigMap, b.namespace, Name(ComputeConfigMap(b.name))) in server.api.store
              && Key(ChildKind.Deployment, b.namespace, Name(ComputeDeployment(b.name))) in server.api.store
              && Key(Service, b.namespace, Name(AdminService(b.name))) in server.api.store
              && Key(Service, b.namespace, Name(PostgresService(b.name))) in server.api.store
  {
    BranchPresent(server.api, b, p, needs, faults, server.admit);
    hide Inline, SSA, ConfigMapObject, DeploymentObject, AdminServiceObject, PostgresServiceObject, Name;
    ghost var plan := BranchPlan(b, p, needs);
    ghost var start := server.api;
    assert plan[0..] == plan;
    PassUnfolds(start, plan, 0, b.uid, faults, server.admit);
    PassUnfolds(start, plan, 1, b.uid, faults, server.admit);
    PassUnfolds(start, plan, 2, b.uid, faults, server.admit);
    PassUnfolds(start, plan, 3, b.uid, faults, server.admit);
    InlineRefinesSSA(start, plan[3].child, b.uid, faults(3), server.admit);
    err := ReconcileConfigMap(server, b, p, needs, faults);
    if err.Some? {
      return;
    }
    PassUnfolds(server.api, plan, 4, b.uid, faults, server.admit);
    InlineRefinesSSA(server.api, plan[4].child, b.uid, faults(4), server.admit);
    err := ReconcileDeployment(server, b, p, faults(4));
    if err.Some? {
      return;
    }
    PassUnfolds(server.api, plan, 5, b.uid, faults, server.admit);
    InlineRefinesSSA(server.api, plan[5].child, b.uid, faults(5), server.admit);
    err := ReconcileAdminService(server, b, p, faults(5));
    if err.Some? {
      return;
    }
    PassUnfolds(server.api, plan, 6, b.uid, faults, server.admit);
    InlineRefinesSSA(server.api, plan[6].child, b.uid, faults(6), server.admit);
    err := ReconcilePostgresService(server, b, p, faults(6));
    PassUnfolds(server.api, plan, 7, b.uid, faults, server.admit);
  }

  // ---- The trace ---------------------------------------------------------------------

  predicate TimelineAccepted(reply: Reply) {
    reply.Answered? && (reply.code == 200 || reply.code == 201 || reply.code == 409)
  }

  /** A Deployment or Service write carries the labels of this tenant and timeline. */
  predicate CarriesPair(e: Event, tenant: string, timeline: string) {
    e.Wrote? && (e.key.kind == ChildKind.Deployment || e.key.kind == ChildKind.Service) ==>
      && TENANT_LABEL in e.labels && e.labels[TENANT_LABEL] == tenant
      && TIMELINE_LABEL in e.labels && e.labels[TIMELINE_LABEL] == timeline
  }

  /** From index start on, every child write comes after an accepted POST of the pair it carries. */
  ghost predicate TraceSafe(trace: seq<Event>, start: nat, tenant: string, timeline: string) {
    forall i :: start <= i < |trace| && trace[i].Wrote? ==>
      && CarriesPair(trace[i], tenant, timeline)
      && exists j :: start <= j < i && trace[j].Posted? && trace[j].tenant == tenant && trace[j].timeline == timeline && TimelineAccepted(trace[j].reply)
  }

  lemma BranchWritesCarryThePair(b: Branch, p: Project, needs: Needs, e: Event)
    requires WrittenFor(BranchPlan(b, p, needs), e)
    ensures CarriesPair(e, p.tenantID, b.timelineID)
  {
    var plan := BranchPlan(b, p, needs);
    var j :| 0 <= j < |plan| && WrittenAs(plan[j], e);
    if e.key.kind == ChildKind.Deployment {
      assert j == 4;
      assert plan[j].child.labels == DeploymentLabels(b, p);
      LabelsOfDeployment(b, p);
    } else if e.key.kind == ChildKind.Service {
      assert j == 5 || j == 6;
      LabelsOfServices(b, p);
    }
  }

  lemma LabelsOfServices(b: Branch, p: Project)
    ensures forall o :: o in [AdminServiceObject(b, p), PostgresServiceObject(b, p)] ==>
              && TENANT_LABEL in o.labels && o.labels[TENANT_LABEL] == p.tenantID
              && TIMELINE_LABEL in o.labels && o.labels[TIMELINE_LABEL] == b.timelineID
  {
  }

  lemma LabelsOfDeployment(b: Branch, p: Project)
    ensures var l := DeploymentLabels(b, p);
            && TENANT_LABEL in l && l[TENANT_LABEL] == p.tenantID
            && TIMELINE_LABEL in l && l[TIMELINE_LABEL] == b.timelineID
            && COMPONENT_LABEL in l && l[COMPONENT_LABEL] == "compute"
            && CLUSTER_LABEL in l && l[CLUSTER_LABEL] == p.clusterName
  {
  }

  lemma PassIsTraceSafe(api: Api, b: Branch, p: Project, needs: Needs, reply: Reply, faults: nat -> Faults, admit: Value -> Value)
    requires TimelineAccepted(reply)
    ensures var posted := api.(trace := api.trace + [Posted(p.tenantID, b.timelineID, reply)]);
            TraceSafe(Pass(posted, BranchPlan(b, p, needs), b.uid, faults, admit, 0).api.trace, |api.trace|, p.tenantID, b.timelineID)
  {
    hide Pass, BranchPlan, CarriesPair, WrittenFor;
    var posted := api.(trace := api.trace + [Posted(p.tenantID, b.timelineID, reply)]);
    var plan := BranchPlan(b, p, needs);
    assert plan[0..] == plan;
    PassTrace(posted, plan, 0, b.uid, faults, admit);
    var trace := Pass(posted, plan, b.uid, faults, admit, 0).api.trace;
    assert posted.trace[|api.trace|] == trace[|api.trace|] == Posted(p.tenantID, b.timelineID, reply);
    forall i | |api.trace| <= i < |trace| && trace[i].Wrote?
      ensures CarriesPair(trace[i], p.tenantID, b.timelineID) && |api.trace| < i
    {
      assert i != |api.trace|;
      BranchWritesCarryThePair(b, p, needs, trace[i]);
    }
  }

  // ---- Consequences for the branch ------------------------------------------------------

  /** Every object of a branch has a kind, so one fault-free pass always converges. */
  lemma BranchConverges(api: Api, b: Branch, p: Project, x: string, faults: nat -> Faults, admit: Value -> Value)
    requires KeepsIntended(admit)
    ensures var plan := BranchPlan(b, p, Needs(true, true, Some(x)));
            var r := Pass(api, plan, b.uid, FAULT_FREE, admit, 0);
            && r.error.None? && AllInPlace(r.api.store, plan)
            && Writes(Pass(r.api, plan, b.uid, faults, admit, 0).api.trace) == Writes(r.api.trace)
  {
    hide Pass, KeepsIntended, Drift;
    var needs := Needs(true, true, Some(x));
    BranchPlanKeysAreDistinct(b, p, needs);
    OnePassConverges(api, BranchPlan(b, p, needs), b.uid, faults, admit);
  }

  /** However a branch, its project and the key change: its children keep their names and their order. */
  lemma BranchKeepsItsNames(b: Branch, p: Project, needs: Needs, b': Branch, p': Project, needs': Needs)
    requires b'.name == b.name && b'.namespace == b.namespace
    ensures SameKeys(BranchPlan(b', p', needs'), BranchPlan(b, p, needs))
  {
    BranchPlanKeys(b, p, needs);
    BranchPlanKeys(b', p', needs');
  }

  /**
   Whatever calls fail in however many reconciles, wherever they are cut off, and
   whatever others edit between any two calls: a compute Deployment that the operator
   created never exists without the ConfigMap it mounts.
   */
  lemma DeploymentHasItsConfigMap(s: State, es: seq<Occurrence>, b: Branch, p: Project, needs: Needs, admit: Value -> Value)
    requires InOrder(s, BranchPlan(b, p, needs)) && OnlyEdits(s, es, b.uid, admit, BranchPlan(b, p, needs))
    ensures var after := Interleaving.Run(s, es, b.uid, admit).api.store;
            && (Key(Service, b.namespace, Name(PostgresService(b.name))) in after ==> Key(Service, b.namespace, Name(AdminService(b.name))) in after)
            && (Key(Service, b.namespace, Name(AdminService(b.name))) in after ==> Key(ChildKind.Deployment, b.namespace, Name(ComputeDeployment(b.name))) in after)
            && (Key(ChildKind.Deployment, b.namespace, Name(ComputeDeployment(b.name))) in after ==> Key(ConfigMap, b.namespace, Name(ComputeConfigMap(b.name))) in after)
  {
    hide InOrder, OnlyEdits, Interleaving.Run, BranchPlan, Name, DistinctKeys;
    BranchPlanKeys(b, p, needs);
    BranchPlanKeysAreDistinct(b, p, needs);
    PrefixIsKept(s, es, b.uid, admit, BranchPlan(b, p, needs));
  }
}
