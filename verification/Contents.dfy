/**
 What the children are after a pass that reports no error, object by object and
 field by field: which exist, under which names, and what stands in them.
 */
module Contents {
  import opened Wrappers
  import opened Values
  import opened Paths
  import opened Names
  import opened Children
  import opened Plans
  import opened Bodies
  import opened ComputeObjects
  import opened BranchReconcile
  import opened ServerReconcile

  // ---- Cluster -----------------------------------------------------------------

  /** A Deployment with this image and this label on its pods, and a Service that leads to it on this port. */
  predicate ComponentStands(s: Store, c: Cluster, deployment: Child, service: Child, port: int) {
    var d, v := Key(ChildKind.Deployment, c.namespace, Name(deployment)), Key(Service, c.namespace, Name(service));
    && Holds(s, d, [Field("image")], Str(c.image))
    && Holds(s, d, [Field("port")], Num(port))
    && Holds(s, d, [Field("template"), Field("app.kubernetes.io/name")], Str(Name(deployment)))
    && Holds(s, v, [Field("selector"), Field("app.kubernetes.io/name")], Str(Name(deployment)))
    && Holds(s, v, [Field("ports"), Index(0), Field("port")], Num(port))
    && Holds(s, v, [Field("ports"), Index(0), Field("targetPort")], Num(port))
  }

  lemma ComponentHolds(s: Store, c: Cluster, deployment: Child, service: Child, port: int)
    requires InPlace(s, ComponentDeployment(c, deployment, port)) && InPlace(s, UntypedService(c, service, port))
    requires Name(deployment) == Name(service)
    ensures ComponentStands(s, c, deployment, service, port)
  {
    hide InPlace, Name, Holds;
    var d, v := ComponentDeployment(c, deployment, port), UntypedService(c, service, port);
    FieldHolds(s, d, "image");
    FieldHolds(s, d, "port");
    Field2Holds(s, d, "template", "app.kubernetes.io/name");
    Field2Holds(s, v, "selector", "app.kubernetes.io/name");
    ItemFieldHolds(s, v, "ports", 0, "port");
    ItemFieldHolds(s, v, "ports", 0, "targetPort");
  }

  /** A cluster's pass that reports no error had its keys, and storage controller and broker stand. */
  lemma ClusterStands(api: Api, c: Cluster, keys: bool, faults: nat -> Faults, admit: Value -> Value)
    requires KeepsIntended(admit) && Pass(api, ClusterPlan(c, keys), c.uid, faults, admit, 0).error.None?
    ensures keys
    ensures var s := Pass(api, ClusterPlan(c, keys), c.uid, faults, admit, 0).api.store;
            && ComponentStands(s, c, ControllerDeployment(c.name), ControllerService(c.name), 8080)
            && ComponentStands(s, c, BrokerDeployment(c.name), BrokerService(c.name), 50051)
  {
    hide Pass, KeepsIntended, InPlace, ComponentStands, ComponentDeployment, UntypedService;
    var plan := ClusterPlan(c, keys);
    assert plan[0..] == plan;
    ClusterPlanKeysAreDistinct(c, keys);
    SuccessMeansPresent(api, plan, 0, c.uid, faults, admit);
    assert plan[0].Need?;
    SuccessMeansInPlace(api, plan, 0, c.uid, faults, admit);
    var s := Pass(api, plan, c.uid, faults, admit, 0).api.store;
    assert ItemInPlace(s, plan[1]) && ItemInPlace(s, plan[2]) && ItemInPlace(s, plan[3]) && ItemInPlace(s, plan[4]);
    ComponentHolds(s, c, ControllerDeployment(c.name), ControllerService(c.name), 8080);
    ComponentHolds(s, c, BrokerDeployment(c.name), BrokerService(c.name), 50051);
  }

  // ---- Pageserver and Safekeeper --------------------------------------------------

  /** A StatefulSet with this image, governed by the headless Service, and two Services that lead to its pods. */
  predicate ServerStands(s: Store, o: Server, component: string, workload: Child, service: Child, headless: Child, image: string, port: int, http: int) {
    var sts, v, h := Key(StatefulSet, o.namespace, Name(workload)), Key(Service, o.namespace, Name(service)), Key(Service, o.namespace, Name(headless));
    && Holds(s, sts, [Field("image")], Str(image))
    && Holds(s, sts, [Field("replicas")], Num(1))
    && Holds(s, sts, [Field("serviceName")], Str(Name(headless)))
    && Holds(s, sts, [Field("template"), Field("molnett.org/" + component)], Str(o.name))
    && Holds(s, v, [Field("selector"), Field("molnett.org/" + component)], Str(o.name))
    && Holds(s, h, [Field("selector"), Field("molnett.org/" + component)], Str(o.name))
    && Holds(s, v, [Field("ports"), Index(0), Field("port")], Num(port))
    && Holds(s, v, [Field("ports"), Index(1), Field("port")], Num(http))
    && Holds(s, h, [Field("ports"), Index(0), Field("port")], Num(port))
    && Holds(s, h, [Field("ports"), Index(1), Field("port")], Num(http))
    && Holds(s, h, [Field("clusterIP")], Str("None"))
  }

  lemma ServerHolds(s: Store, o: Server, component: string, workload: Child, service: Child, headless: Child, image: string, port: int, http: int)
    requires InPlace(s, Typed(StatefulSet, o.namespace, workload, ServerLabels(o, component), StatefulSetBody(o, component, headless, image)))
    requires InPlace(s, Typed(Service, o.namespace, service, ServerLabels(o, component), ServerService(o, component, "", port, http)))
    requires InPlace(s, Typed(Service, o.namespace, headless, ServerLabels(o, component), ServerService(o, component, "None", port, http)))
    ensures ServerStands(s, o, component, workload, service, headless, image, port, http)
  {
    hide InPlace, Name, Holds;
    var i := Typed(StatefulSet, o.namespace, workload, ServerLabels(o, component), StatefulSetBody(o, component, headless, image));
    var v := Typed(Service, o.namespace, service, ServerLabels(o, component), ServerService(o, component, "", port, http));
    var h := Typed(Service, o.namespace, headless, ServerLabels(o, component), ServerService(o, component, "None", port, http));
    var l := "molnett.org/" + component;
    FieldHolds(s, i, "image");
    FieldHolds(s, i, "replicas");
    FieldHolds(s, i, "serviceName");
    Field2Holds(s, i, "template", l);
    ServiceHolds(s, v, l);
    ServiceHolds(s, h, l);
    FieldHolds(s, h, "clusterIP");
  }

  lemma ServiceHolds(s: Store, v: Intended, l: string)
    requires InPlace(s, v)
    requires v.body.Record? && "selector" in v.body.fields && "ports" in v.body.fields
    requires v.body.fields["selector"].Record? && l in v.body.fields["selector"].fields
    requires v.body.fields["ports"].List? && |v.body.fields["ports"].items| == 2
    requires forall n :: 0 <= n < 2 ==> v.body.fields["ports"].items[n].Record? && "port" in v.body.fields["ports"].items[n].fields
    ensures Holds(s, v.key, [Field("selector"), Field(l)], v.body.fields["selector"].fields[l])
    ensures Holds(s, v.key, [Field("ports"), Index(0), Field("port")], v.body.fields["ports"].items[0].fields["port"])
    ensures Holds(s, v.key, [Field("ports"), Index(1), Field("port")], v.body.fields["ports"].items[1].fields["port"])
  {
    hide InPlace, Holds;
    Field2Holds(s, v, "selector", l);
    ItemFieldHolds(s, v, "ports", 0, "port");
    ItemFieldHolds(s, v, "ports", 1, "port");
  }

  /** A pageserver's pass that reports no error could read what it needs; its four children stand. */
  lemma PageserverStands(api: Api, o: Server, toml: Option<string>, image: Option<string>, faults: nat -> Faults, admit: Value -> Value)
    requires KeepsIntended(admit) && Pass(api, PageserverPlan(o, toml, image), o.uid, faults, admit, 0).error.None?
    ensures toml.Some? && image.Some?
    ensures var s := Pass(api, PageserverPlan(o, toml, image), o.uid, faults, admit, 0).api.store;
            && Holds(s, Key(ConfigMap, o.namespace, Name(PageserverConfigMap(o.cluster, o.id))), [Field("pageserver.toml")], Str(toml.value))
            && ServerStands(s, o, "pageserver", PageserverStatefulSet(o.cluster, o.id), PageserverService(o.cluster, o.id),
                            PageserverHeadless(o.cluster, o.id), image.value, 6400, 9898)
  {
    hide Pass, KeepsIntended, InPlace, ServerStands, Typed, Holds;
    var plan := PageserverPlan(o, toml, image);
    assert plan[0..] == plan;
    PageserverPlanKeysAreDistinct(o, toml, image);
    SuccessMeansPresent(api, plan, 0, o.uid, faults, admit);
    assert plan[0].Need? && plan[4].Need?;
    SuccessMeansInPlace(api, plan, 0, o.uid, faults, admit);
    var s := Pass(api, plan, o.uid, faults, admit, 0).api.store;
    assert ItemInPlace(s, plan[1]) && ItemInPlace(s, plan[2]) && ItemInPlace(s, plan[3]) && ItemInPlace(s, plan[5]);
    ServerHolds(s, o, "pageserver", PageserverStatefulSet(o.cluster, o.id), PageserverService(o.cluster, o.id),
                PageserverHeadless(o.cluster, o.id), image.value, 6400, 9898);
    TomlHolds(s, o, toml.value);
  }

  lemma TomlHolds(s: Store, o: Server, toml: string)
    requires InPlace(s, PageserverConfig(o, toml))
    ensures Holds(s, Key(ConfigMap, o.namespace, Name(PageserverConfigMap(o.cluster, o.id))), [Field("pageserver.toml")], Str(toml))
  {
    hide InPlace, Name, Holds;
    FieldHolds(s, PageserverConfig(o, toml), "pageserver.toml");
  }

  /** The same for a safekeeper, which needs its cluster's image only. */
  lemma SafekeeperStands(api: Api, o: Server, image: Option<string>, faults: nat -> Faults, admit: Value -> Value)
    requires KeepsIntended(admit) && Pass(api, SafekeeperPlan(o, image), o.uid, faults, admit, 0).error.None?
    ensures image.Some?
    ensures var s := Pass(api, SafekeeperPlan(o, image), o.uid, faults, admit, 0).api.store;
            ServerStands(s, o, "safekeeper", SafekeeperStatefulSet(o.cluster, o.id), SafekeeperService(o.cluster, o.id),
                         SafekeeperHeadless(o.cluster, o.id), image.value, 5454, 7676)
  {
    hide Pass, KeepsIntended, InPlace, ServerStands, Typed, Holds;
    var plan := SafekeeperPlan(o, image);
    assert plan[0..] == plan;
    SafekeeperPlanKeysAreDistinct(o, image);
    SuccessMeansPresent(api, plan, 0, o.uid, faults, admit);
    assert plan[2].Need?;
    SuccessMeansInPlace(api, plan, 0, o.uid, faults, admit);
    var s := Pass(api, plan, o.uid, faults, admit, 0).api.store;
    assert ItemInPlace(s, plan[0]) && ItemInPlace(s, plan[1]) && ItemInPlace(s, plan[3]);
    ServerHolds(s, o, "safekeeper", SafekeeperStatefulSet(o.cluster, o.id), SafekeeperService(o.cluster, o.id),
                SafekeeperHeadless(o.cluster, o.id), image.value, 5454, 7676);
  }

  // ---- Branch -----------------------------------------------------------------------

  /** The compute Deployment: its ConfigMap, its version, and the labels its pods carry. */
  predicate ComputeStands(s: Store, b: Branch, p: Project) {
    var d := Key(ChildKind.Deployment, b.namespace, Name(ComputeDeployment(b.name)));
    && Holds(s, d, [Field("configMap")], Str(Name(ComputeConfigMap(b.name))))
    && Holds(s, d, [Field("pgVersion")], Num(b.pgVersion))
    && Holds(s, d, [Field("template"), Field("app")], Str(Name(ComputeDeployment(b.name))))
    && Holds(s, d, [Field("template"), Field(TENANT_LABEL)], Str(p.tenantID))
    && Holds(s, d, [Field("template"), Field(TIMELINE_LABEL)], Str(b.timelineID))
    && Holds(s, d, [Field("template"), Field(CLUSTER_LABEL)], Str(p.clusterName))
  }

  lemma ComputeHolds(s: Store, b: Branch, p: Project)
    requires InPlace(s, DeploymentObject(b, p))
    ensures ComputeStands(s, b, p)
  {
    hide InPlace, Name, Holds;
    var d := DeploymentObject(b, p);
    LabelsOfDeployment(b, p);
    FieldHolds(s, d, "configMap");
    FieldHolds(s, d, "pgVersion");
    Field2Holds(s, d, "template", "app");
    Field2Holds(s, d, "template", TENANT_LABEL);
    Field2Holds(s, d, "template", TIMELINE_LABEL);
    Field2Holds(s, d, "template", CLUSTER_LABEL);
  }

  /** A Service that leads to the pods of the compute Deployment on this port. */
  predicate ComputeServiceStands(s: Store, b: Branch, child: Child, port: int) {
    var v := Key(Service, b.namespace, Name(child));
    && Holds(s, v, [Field("selector"), Field("app")], Str(Name(ComputeDeployment(b.name))))
    && Holds(s, v, [Field("ports"), Index(0), Field("port")], Num(port))
    && Holds(s, v, [Field("ports"), Index(0), Field("targetPort")], Num(port))
  }

  lemma ComputeServiceHolds(s: Store, b: Branch, p: Project, child: Child, component: string, portName: string, port: int)
    requires InPlace(s, ServiceObject(b, p, child, component, portName, port))
    ensures ComputeServiceStands(s, b, child, port)
  {
    hide InPlace, Name, Holds;
    var v := ServiceObject(b, p, child, component, portName, port);
    Field2Holds(s, v, "selector", "app");
    ItemFieldHolds(s, v, "ports", 0, "port");
    ItemFieldHolds(s, v, "ports", 0, "targetPort");
  }

  lemma ConfigMapHolds(s: Store, b: Branch, p: Project, x: string)
    requires InPlace(s, ConfigMapObject(b, p, x))
    ensures Holds(s, Key(ConfigMap, b.namespace, Name(ComputeConfigMap(b.name))), [Field("spec.json")], Str(SPEC_HEAD + x + SPEC_TAIL))
  {
    hide InPlace, Name, Holds;
    FieldHolds(s, ConfigMapObject(b, p, x), "spec.json");
  }

  /** A branch's pass that reports no error read cluster, secret and key; its four children stand, the key in the ConfigMap. */
  lemma BranchStands(api: Api, b: Branch, p: Project, needs: Needs, faults: nat -> Faults, admit: Value -> Value)
    requires KeepsIntended(admit) && Pass(api, BranchPlan(b, p, needs), b.uid, faults, admit, 0).error.None?
    ensures needs.cluster && needs.secret && needs.key.Some?
    ensures var s := Pass(api, BranchPlan(b, p, needs), b.uid, faults, admit, 0).api.store;
            && Holds(s, Key(ConfigMap, b.namespace, Name(ComputeConfigMap(b.name))), [Field("spec.json")], Str(SPEC_HEAD + needs.key.value + SPEC_TAIL))
            && ComputeStands(s, b, p)
            && ComputeServiceStands(s, b, AdminService(b.name), 3080)
            && ComputeServiceStands(s, b, PostgresService(b.name), 55433)
  {
    hide Pass, KeepsIntended, InPlace, ComputeStands, ComputeServiceStands, Holds, ConfigMapObject, DeploymentObject, ServiceObject;
    var plan := BranchPlan(b, p, needs);
    assert plan[0..] == plan;
    BranchPlanKeysAreDistinct(b, p, needs);
    SuccessMeansPresent(api, plan, 0, b.uid, faults, admit);
    assert plan[0].Need? && plan[1].Need? && plan[2].Need?;
    SuccessMeansInPlace(api, plan, 0, b.uid, faults, admit);
    var s := Pass(api, plan, b.uid, faults, admit, 0).api.store;
    assert ItemInPlace(s, plan[3]) && ItemInPlace(s, plan[4]) && ItemInPlace(s, plan[5]) && ItemInPlace(s, plan[6]);
    ConfigMapHolds(s, b, p, needs.key.value);
    ComputeHolds(s, b, p);
    ComputeServiceHolds(s, b, p, AdminService(b.name), "compute-admin", "admin", 3080);
    ComputeServiceHolds(s, b, p, PostgresService(b.name), "compute-postgres", "postgres", 55433);
  }

  /** The labels and annotations that a compute Deployment is created with, and by which its spec is found later. */
  lemma ComputeIsCreatedLabelled(api: Api, b: Branch, p: Project, needs: Needs, faults: nat -> Faults, admit: Value -> Value)
    requires Key(ChildKind.Deployment, b.namespace, Name(ComputeDeployment(b.name))) !in api.store
    requires Pass(api, BranchPlan(b, p, needs), b.uid, faults, admit, 0).error.None?
    ensures var s := Pass(api, BranchPlan(b, p, needs), b.uid, faults, admit, 0).api.store;
            var key := Key(ChildKind.Deployment, b.namespace, Name(ComputeDeployment(b.name)));
            && key in s && s[key].owner == Some(b.uid)
            && s[key].annotations == map["neon.compute_id" := b.name, "neon.cluster_name" := p.clusterName]
            && s[key].labels == map[
                 "app" := Name(ComputeDeployment(b.name)),
                 "molnett.org/cluster" := p.clusterName,
                 "molnett.org/component" := "compute",
                 "molnett.org/branch" := b.name,
                 "neon.tenant_id" := p.tenantID,
                 "neon.timeline_id" := b.timelineID
               ]
  {
    hide Pass;
    var plan := BranchPlan(b, p, needs);
    assert plan[0..] == plan;
    BranchPlanKeysAreDistinct(b, p, needs);
    CreatedAsIntended(api, plan, 0, b.uid, faults, admit, 4);
  }

  /** And the labels of its ConfigMap and Services. */
  lemma BranchChildrenAreCreatedLabelled(api: Api, b: Branch, p: Project, needs: Needs, faults: nat -> Faults, admit: Value -> Value, k: nat)
    requires k == 3 || k == 5 || k == 6
    requires BranchPlan(b, p, needs)[k].child.key !in api.store
    requires Pass(api, BranchPlan(b, p, needs), b.uid, faults, admit, 0).error.None?
    ensures var s := Pass(api, BranchPlan(b, p, needs), b.uid, faults, admit, 0).api.store;
            var key := BranchPlan(b, p, needs)[k].child.key;
            && key in s && s[key].owner == Some(b.uid) && s[key].annotations == map[]
            && (k == 3 ==> s[key].labels == map["molnett.org/cluster" := p.clusterName, "molnett.org/component" := "compute", "molnett.org/branch" := b.name])
            && (k != 3 ==> s[key].labels == map[
                  "molnett.org/cluster" := p.clusterName,
                  "molnett.org/component" := if k == 5 then "compute-admin" else "compute-postgres",
                  "molnett.org/branch" := b.name,
                  "neon.timeline_id" := b.timelineID,
                  "neon.tenant_id" := p.tenantID
                ])
  {
    hide Pass;
    var plan := BranchPlan(b, p, needs);
    assert plan[0..] == plan;
    BranchPlanKeysAreDistinct(b, p, needs);
    CreatedAsIntended(api, plan, 0, b.uid, faults, admit, k);
  }

  /** The labels a server's children are created with. */
  lemma PageserverChildrenAreCreatedLabelled(api: Api, o: Server, toml: Option<string>, image: Option<string>, faults: nat -> Faults, admit: Value -> Value, k: nat)
    requires k == 1 || k == 2 || k == 3 || k == 5
    requires PageserverPlan(o, toml, image)[k].child.key !in api.store
    ensures var r := Pass(api, PageserverPlan(o, toml, image), o.uid, faults, admit, 0);
            r.error.None? ==> LabelledAs(r.api.store, PageserverPlan(o, toml, image)[k].child.key, o, "pageserver", "molnett.org/pageserver")
  {
    hide Pass, Name;
    var plan := PageserverPlan(o, toml, image);
    assert plan[0..] == plan;
    PageserverPlanKeysAreDistinct(o, toml, image);
    assert "molnett.org/" + "pageserver" == "molnett.org/pageserver";
    CreatedAsIntended(api, plan, 0, o.uid, faults, admit, k);
  }

  lemma SafekeeperChildrenAreCreatedLabelled(api: Api, o: Server, image: Option<string>, faults: nat -> Faults, admit: Value -> Value, k: nat)
    requires k == 0 || k == 1 || k == 3
    requires SafekeeperPlan(o, image)[k].child.key !in api.store
    ensures var r := Pass(api, SafekeeperPlan(o, image), o.uid, faults, admit, 0);
            r.error.None? ==> LabelledAs(r.api.store, SafekeeperPlan(o, image)[k].child.key, o, "safekeeper", "molnett.org/safekeeper")
  {
    hide Pass, Name;
    var plan := SafekeeperPlan(o, image);
    assert plan[0..] == plan;
    SafekeeperPlanKeysAreDistinct(o, image);
    assert "molnett.org/" + "safekeeper" == "molnett.org/safekeeper";
    CreatedAsIntended(api, plan, 0, o.uid, faults, admit, k);
  }

  predicate LabelledAs(s: Store, key: Key, o: Server, component: string, own: string) {
    && key in s && s[key].owner == Some(o.uid)
    && s[key].labels == map["molnett.org/cluster" := o.cluster, "molnett.org/component" := component, own := o.name]
  }

  // ---- Services and their pods --------------------------------------------------------

  /** Every Service the operator intends selects the pods of the workload it is for, whatever the names are. */
  lemma ComputeServicesSelect(b: Branch, p: Project)
    ensures Selects(AdminServiceObject(b, p).body, DeploymentObject(b, p).body)
    ensures Selects(PostgresServiceObject(b, p).body, DeploymentObject(b, p).body)
  {
    hide Name;
  }

  lemma ServerServicesSelect(o: Server, image: string)
    ensures Selects(PageserverServiceObject(o).body, PageserverSet(o, image).body)
    ensures Selects(PageserverHeadlessObject(o).body, PageserverSet(o, image).body)
    ensures Selects(SafekeeperServiceObject(o).body, SafekeeperSet(o, image).body)
    ensures Selects(SafekeeperHeadlessObject(o).body, SafekeeperSet(o, image).body)
  {
    hide Name;
    SelectorIsAmongLabels(o, "pageserver");
    SelectorIsAmongLabels(o, "safekeeper");
  }

  lemma SelectorIsAmongLabels(o: Server, component: string)
    ensures var l := "molnett.org/" + component;
            && SelectorLabels(o, component).Keys == {l} && l in ServerLabels(o, component)
            && SelectorLabels(o, component)[l] == ServerLabels(o, component)[l] == o.name
  {
  }

  lemma ComponentSelects(c: Cluster, deployment: Child, service: Child, port: int)
    requires Name(deployment) == Name(service)
    ensures Selects(UntypedService(c, service, port).body, ComponentDeployment(c, deployment, port).body)
  {
    hide Name;
  }

  lemma ComponentServicesSelect(c: Cluster)
    ensures Selects(ControllerServiceObject(c).body, ControllerDeploymentObject(c).body)
    ensures Selects(BrokerServiceObject(c).body, BrokerDeploymentObject(c).body)
  {
    hide Selects, UntypedService, ComponentDeployment;
    ComponentSelects(c, ControllerDeployment(c.name), ControllerService(c.name), 8080);
    ComponentSelects(c, BrokerDeployment(c.name), BrokerService(c.name), 50051);
  }
}
