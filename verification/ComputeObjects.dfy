/** The objects the branch controller intends for one branch of one project. */
module ComputeObjects {
  import opened Values
  import opened Names
  import opened Children
  import opened Bodies

  datatype Project = Project(name: string, namespace: string, clusterName: string, tenantID: string)

  datatype Branch = Branch(
    name: string,
    namespace: string,
    uid: string,
    projectID: string,
    timelineID: string,
    pgVersion: int)

  const CLUSTER_LABEL := "molnett.org/cluster"
  const COMPONENT_LABEL := "molnett.org/component"
  const BRANCH_LABEL := "molnett.org/branch"
  const TENANT_LABEL := "neon.tenant_id"
  const TIMELINE_LABEL := "neon.timeline_id"
  const COMPUTE_ID := "neon.compute_id"
  const CLUSTER_NAME := "neon.cluster_name"

  /** The constant text of spec.json around the public key. */
  const SPEC_HEAD := "{\"format_version\":\"1.0\",\"compute_ctl_config\":{\"jwks\":{\"keys\":[{\"x\":\""
  const SPEC_TAIL := "\"}]}}}"

  function ConfigMapObject(b: Branch, p: Project, x: string): Intended {
    Intended(
      Key(ConfigMap, b.namespace, Name(ComputeConfigMap(b.name))),
      true,
      map[CLUSTER_LABEL := p.clusterName, COMPONENT_LABEL := "compute", BRANCH_LABEL := b.name],
      map[],
      Record(map["spec.json" := Str(SPEC_HEAD + x + SPEC_TAIL)]))
  }

  function DeploymentLabels(b: Branch, p: Project): map<string, string> {
    map[
      "app" := Name(ComputeDeployment(b.name)),
      CLUSTER_LABEL := p.clusterName,
      COMPONENT_LABEL := "compute",
      BRANCH_LABEL := b.name,
      TENANT_LABEL := p.tenantID,
      TIMELINE_LABEL := b.timelineID
    ]
  }

  function DeploymentObject(b: Branch, p: Project): Intended {
    Intended(
      Key(ChildKind.Deployment, b.namespace, Name(ComputeDeployment(b.name))),
      true,
      DeploymentLabels(b, p),
      map[COMPUTE_ID := b.name, CLUSTER_NAME := p.clusterName],
      Record(map[
        "replicas" := Num(1),
        "selector" := LabelsValue(DeploymentLabels(b, p)),
        "template" := LabelsValue(DeploymentLabels(b, p)),
        "pgVersion" := Num(b.pgVersion),
        "configMap" := Str(Name(ComputeConfigMap(b.name)))
      ]))
  }

  function ServiceObject(b: Branch, p: Project, child: Child, component: string, portName: string, port: int): Intended {
    Intended(
      Key(Service, b.namespace, Name(child)),
      true,
      map[
        CLUSTER_LABEL := p.clusterName,
        COMPONENT_LABEL := component,
        BRANCH_LABEL := b.name,
        TIMELINE_LABEL := b.timelineID,
        TENANT_LABEL := p.tenantID
      ],
      map[],
      ServiceBody("", map["app" := Name(ComputeDeployment(b.name))], [Port(portName, port, port)]))
  }

  function AdminServiceObject(b: Branch, p: Project): Intended {
    ServiceObject(b, p, AdminService(b.name), "compute-admin", "admin", 3080)
  }

  function PostgresServiceObject(b: Branch, p: Project): Intended {
    ServiceObject(b, p, PostgresService(b.name), "compute-postgres", "postgres", 55433)
  }
}
