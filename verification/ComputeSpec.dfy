/** Generating the configuration of a compute node from what its Deployment names. */
module ComputeSpec {
  import opened Wrappers
  import opened Hex
  import opened Names
  import opened ComputeObjects
  import opened Keys

  // ---- Shard indices ------------------------------------------------------------------

  datatype ShardIndex = ShardIndex(number: Byte, count: Byte)

  function Print(s: ShardIndex): string {
    Encode([s.number, s.count])
  }

  /** Parsing a decoded JSON string. */
  function Parse(s: string): Option<ShardIndex> {
    if |s| != 4 then None
    else
      match Decode(s)
      case None => None
      case Some(bytes) => Some(ShardIndex(bytes[0], bytes[1]))
  }

  /** Print and parse are inverse, up to letter case, and parse accepts four hexadecimal digits only. */
  lemma ShardIndexRoundTrip(x: ShardIndex, s: string)
    ensures Parse(Print(x)) == Some(x)
    ensures Parse(s).Some? ==> Print(Parse(s).value) == Lower(s)
    ensures Parse(s).Some? <==> |s| == 4 && forall i :: 0 <= i < 4 ==> HexValue(s[i]).Some?
  {
    DecodeEncode([x.number, x.count]);
    DecodeDomain(s);
    if Parse(s).Some? {
      EncodeDecode(s);
      assert Decode(s).value == [Parse(s).value.number, Parse(s).value.count];
    }
  }

  /** Number before count, high digit before low, lower-case letters. */
  lemma PrintSpelled(x: ShardIndex)
    ensures Print(x) == Encode([x.number]) + Encode([x.count])
    ensures Print(ShardIndex(10, 255)) == "0aff" && Print(ShardIndex(0, 1)) == "0001"
  {
    assert [x.number, x.count][1..] == [x.count] && [x.number][1..] == [];
    assert Encode([10]) == "0a" && Encode([255]) == "ff" && Encode([0]) == "00" && Encode([1]) == "01";
    assert forall a: Byte, b: Byte :: [a, b][1..] == [b];
  }

  lemma PrintInjective(a: ShardIndex, b: ShardIndex)
    requires Print(a) == Print(b)
    ensures a == b
  {
    ShardIndexRoundTrip(a, "");
    ShardIndexRoundTrip(b, "");
  }

  /** UnmarshalJSON: fill the receiver's fields, or leave them. */
  class ShardIndexCell {
    var shardNumber: Byte
    var shardCount: Byte

    method UnmarshalJSON(str: string) returns (ok: bool)
      modifies this
      ensures ok <==> Parse(str).Some?
      ensures ok ==> Parse(str) == Some(ShardIndex(shardNumber, shardCount))
      ensures !ok ==> shardNumber == old(shardNumber) && shardCount == old(shardCount)
    {
      if |str| != 4 {
        return false;
      }
      var decoded := Decode(str);
      if decoded.None? {
        return false;
      }
      shardNumber, shardCount := decoded.value[0], decoded.value[1];
      return true;
    }
  }

  // ---- The shard map --------------------------------------------------------------------

  datatype Shard = Shard(node: nat, number: nat)

  datatype ShardInfo = ShardInfo(id: nat, url: string)

  function Info(cluster: string, s: Shard): ShardInfo {
    ShardInfo(s.node, PageserverURL(cluster, s.node))
  }

  /** The map that is meant: one entry for each shard, under its own number and the count. */
  function MeantShards(cluster: string, shards: seq<Shard>, count: nat): map<string, ShardInfo> {
    if shards == [] then map[]
    else
      var last := shards[|shards| - 1];
      MeantShards(cluster, shards[..|shards| - 1], count)[Print(ShardIndex(last.number % 256, count % 256)) := Info(cluster, last)]
  }

  /** The map that is built: every shard goes under number zero. */
  function BuiltShards(cluster: string, shards: seq<Shard>, count: nat): map<string, ShardInfo> {
    if shards == [] then map[] else map[Print(ShardIndex(0, count % 256)) := Info(cluster, shards[|shards| - 1])]
  }

  method BuildShards(cluster: string, shards: seq<Shard>) returns (m: map<string, ShardInfo>)
    ensures m == BuiltShards(cluster, shards, |shards|)
    ensures |m| == if shards == [] then 0 else 1
  {
    m := map[];
    var k := 0;
    while k < |shards|
      invariant 0 <= k <= |shards|
      invariant m == BuiltShards(cluster, shards[..k], |shards|)
    {
      var index := ShardIndex(0, |shards| % 256);
      m := m[Print(index) := Info(cluster, shards[k])];
      k := k + 1;
      assert shards[..k][|shards[..k]| - 1] == shards[k - 1];
    }
    assert shards[..k] == shards;
  }

  lemma {:induction false} MeantShardsHasEveryNumber(cluster: string, shards: seq<Shard>, count: nat, i: nat)
    requires i < |shards|
    ensures Print(ShardIndex(shards[i].number % 256, count % 256)) in MeantShards(cluster, shards, count)
  {
    if i < |shards| - 1 {
      MeantShardsHasEveryNumber(cluster, shards[..|shards| - 1], count, i);
    }
  }

  lemma {:induction false} MeantShardsOfZeros(cluster: string, shards: seq<Shard>, count: nat)
    requires forall i :: 0 <= i < |shards| ==> shards[i].number % 256 == 0
    ensures MeantShards(cluster, shards, count) == BuiltShards(cluster, shards, count)
  {
    if shards != [] {
      MeantShardsOfZeros(cluster, shards[..|shards| - 1], count);
    }
  }

  /** The map built is the one meant exactly when every shard number is zero modulo 256. */
  lemma ShardFoldIsRightIffAllZero(cluster: string, shards: seq<Shard>)
    ensures BuiltShards(cluster, shards, |shards|) == MeantShards(cluster, shards, |shards|)
            <==> forall i :: 0 <= i < |shards| ==> shards[i].number % 256 == 0
  {
    var n := |shards|;
    if forall i :: 0 <= i < n ==> shards[i].number % 256 == 0 {
      MeantShardsOfZeros(cluster, shards, n);
    } else {
      var i :| 0 <= i < n && shards[i].number % 256 != 0;
      var key := Print(ShardIndex(shards[i].number % 256, n % 256));
      MeantShardsHasEveryNumber(cluster, shards, n, i);
      if key in BuiltShards(cluster, shards, n) {
        PrintInjective(ShardIndex(shards[i].number % 256, n % 256), ShardIndex(0, n % 256));
      }
    }
  }

  /** The request made up from the storage controller's answer numbers the shards from zero. */
  function Fallback(nodes: seq<nat>): seq<Shard> {
    seq(|nodes|, i requires 0 <= i < |nodes| => Shard(nodes[i], i))
  }

  /** So the map is right for at most one shard, and loses shards for any larger tenant. */
  lemma FallbackIsRightForOneShardOnly(cluster: string, nodes: seq<nat>)
    ensures BuiltShards(cluster, Fallback(nodes), |nodes|) == MeantShards(cluster, Fallback(nodes), |nodes|) <==> |nodes| <= 1
  {
    var shards := Fallback(nodes);
    ShardFoldIsRightIffAllZero(cluster, shards);
    if |nodes| > 1 {
      assert shards[1].number % 256 == 1;
    }
  }

  // ---- Finding things in lists ------------------------------------------------------------

  function First<T>(xs: seq<T>, p: T -> bool): Option<T> {
    if xs == [] then None else if p(xs[0]) then Some(xs[0]) else First(xs[1..], p)
  }

  lemma {:induction false} FirstWhenUnique<T>(xs: seq<T>, p: T -> bool, x: T)
    requires x in xs && p(x)
    requires forall y :: y in xs && p(y) ==> y == x
    ensures First(xs, p) == Some(x)
  {
    if !p(xs[0]) {
      assert x in xs[1..];
      FirstWhenUnique(xs[1..], p, x);
    }
  }

  datatype DeploymentMeta = DeploymentMeta(
    name: string,
    namespace: string,
    labels: map<string, string>,
    annotations: map<string, string>)

  /** What can be listed and read; None where the call fails. */
  datatype World = World(
    deployments: Option<seq<DeploymentMeta>>,
    projects: Option<seq<Project>>,
    branches: Option<seq<Branch>>,
    secrets: map<string, Secret>)

  predicate HasLabel(d: DeploymentMeta, key: string, value: string) {
    key in d.labels && d.labels[key] == value
  }

  predicate IsCompute(d: DeploymentMeta, id: string) {
    HasLabel(d, COMPONENT_LABEL, "compute") && COMPUTE_ID in d.annotations && d.annotations[COMPUTE_ID] == id
  }

  function ComputeID(d: DeploymentMeta): Option<string> {
    if COMPUTE_ID in d.annotations then Some(d.annotations[COMPUTE_ID]) else None
  }

  /** The annotation, or else the label. */
  function ClusterOf(d: DeploymentMeta): Option<string> {
    if CLUSTER_NAME in d.annotations then Some(d.annotations[CLUSTER_NAME])
    else if CLUSTER_LABEL in d.labels then Some(d.labels[CLUSTER_LABEL])
    else None
  }

  method FindComputeDeployment(w: World, id: string) returns (r: Option<DeploymentMeta>)
    ensures r == if w.deployments.None? then None else First(w.deployments.value, d => IsCompute(d, id))
  {
    if w.deployments.None? {
      return None;
    }
    var ds := w.deployments.value;
    var k := 0;
    while k < |ds|
      invariant 0 <= k <= |ds|
      invariant First(ds, d => IsCompute(d, id)) == First(ds[k..], d => IsCompute(d, id))
    {
      if HasLabel(ds[k], COMPONENT_LABEL, "compute") && COMPUTE_ID in ds[k].annotations && ds[k].annotations[COMPUTE_ID] == id {
        return Some(ds[k]);
      }
      k := k + 1;
    }
    return None;
  }

  function ProjectOf(w: World, tenant: string): Option<Project> {
    if w.projects.None? then None else First(w.projects.value, (p: Project) => p.tenantID == tenant)
  }

  function BranchOf(w: World, timeline: string, project: string): Option<Branch> {
    if w.branches.None? then None else First(w.branches.value, (b: Branch) => b.timelineID == timeline && b.projectID == project)
  }

  method FindProjectAndBranch(w: World, tenant: string, timeline: string) returns (r: Option<(Project, Branch)>)
    ensures var p := ProjectOf(w, tenant);
            r == if p.None? then None
                 else
                   var b := BranchOf(w, timeline, p.value.name);
                   if b.None? then None else Some((p.value, b.value))
  {
    if w.projects.None? {
      return None;
    }
    var project: Option<Project> := None;
    var k := 0;
    while k < |w.projects.value|
      invariant 0 <= k <= |w.projects.value|
      invariant project == None
      invariant ProjectOf(w, tenant) == First(w.projects.value[k..], (p: Project) => p.tenantID == tenant)
    {
      if w.projects.value[k].tenantID == tenant {
        project := Some(w.projects.value[k]);
        break;
      }
      k := k + 1;
    }
    if project.None? || w.branches.None? {
      return None;
    }
    var name := project.value.name;
    k := 0;
    while k < |w.branches.value|
      invariant 0 <= k <= |w.branches.value|
      invariant BranchOf(w, timeline, name) == First(w.branches.value[k..], (b: Branch) => b.timelineID == timeline && b.projectID == name)
    {
      if w.branches.value[k].timelineID == timeline && w.branches.value[k].projectID == name {
        return Some((project.value, w.branches.value[k]));
      }
      k := k + 1;
    }
    return None;
  }

  // ---- The spec ------------------------------------------------------------------------------

  datatype Spec = Spec(
    clusterID: string,
    name: string,
    timelineSetting: string,
    tenantSetting: string,
    safekeepersSetting: string,
    safekeeperConnstrings: seq<string>,
    safekeepersGeneration: Option<nat>,
    shardCount: nat,
    shards: map<string, ShardInfo>,
    jwk: PublicKey)

  /** The cluster, project and branch a compute ID leads to. */
  function Resolve(w: World, id: string): Option<(string, Project, Branch)> {
    if w.deployments.None? then None
    else
      var d := First(w.deployments.value, d => IsCompute(d, id));
      if d.None? || ClusterOf(d.value).None? || TENANT_LABEL !in d.value.labels || TIMELINE_LABEL !in d.value.labels then None
      else
        var p := ProjectOf(w, d.value.labels[TENANT_LABEL]);
        if p.None? then None
        else
          var b := BranchOf(w, d.value.labels[TIMELINE_LABEL], p.value.name);
          if b.None? then None else Some((ClusterOf(d.value).value, p.value, b.value))
  }

  function SecretName(cluster: string): string {
    Name(JWTSecret(cluster))
  }

  function ManagerOf(w: World, cluster: string): Option<Manager> {
    if SecretName(cluster) in w.secrets then NewManager(w.secrets[SecretName(cluster)]) else None
  }

  /** The host:port list of the neon.safekeepers setting. */
  function SafekeepersSetting(cluster: string): string {
    cluster + "-safekeeper-0.neon:5454," + cluster + "-safekeeper-1.neon:5454," + cluster + "-safekeeper-2.neon:5454"
  }

  /** request is what the hook sent; without one the storage controller is asked, which may fail. */
  function ShardsFor(request: Option<seq<Shard>>, answer: Option<seq<nat>>): Option<seq<Shard>> {
    if request.Some? then request else if answer.Some? then Some(Fallback(answer.value)) else None
  }

  function SpecFor(cluster: string, p: Project, b: Branch, shards: seq<Shard>, jwk: PublicKey): Spec {
    var m := BuiltShards(cluster, shards, |shards|);
    Spec(p.tenantID, p.name, b.timelineID, p.tenantID, SafekeepersSetting(cluster),
         seq(3, (i: nat) => SafekeeperURL(cluster, i, "neon")), None, |m|, m, jwk)
  }

  function Generated(w: World, request: Option<seq<Shard>>, answer: Option<seq<nat>>, id: string): Option<Spec> {
    var found := Resolve(w, id);
    if found.None? then None
    else
      var (cluster, p, b) := found.value;
      var m := ManagerOf(w, cluster);
      var shards := ShardsFor(request, answer);
      if m.None? || shards.None? then None else Some(SpecFor(cluster, p, b, shards.value, m.value.publicKey))
  }

  method GenerateComputeSpec(w: World, request: Option<seq<Shard>>, answer: Option<seq<nat>>, id: string) returns (r: Option<Spec>)
    ensures r == Generated(w, request, answer, id)
  {
    hide SafekeeperURL, SafekeepersSetting, ManagerOf, ClusterOf, ProjectOf, BranchOf, First, BuiltShards;
    var d := FindComputeDeployment(w, id);
    if d.None? {
      return None;
    }
    var cluster := ClusterOf(d.value);
    if cluster.None? {
      return None;
    }
    if TENANT_LABEL !in d.value.labels {
      return None;
    }
    if TIMELINE_LABEL !in d.value.labels {
      return None;
    }
    var found := FindProjectAndBranch(w, d.value.labels[TENANT_LABEL], d.value.labels[TIMELINE_LABEL]);
    if found.None? {
      return None;
    }
    var (p, b) := found.value;
    var m := ManagerOf(w, cluster.value);
    if m.None? {
      return None;
    }
    var connstrings: seq<string> := [];
    for i := 0 to 3
      invariant connstrings == seq(i, (j: nat) => SafekeeperURL(cluster.value, j, "neon"))
    {
      connstrings := connstrings + [SafekeeperURL(cluster.value, i, "neon")];
    }
    var actual: seq<Shard>;
    if request.Some? {
      actual := request.value;
    } else {
      if answer.None? {
        return None;
      }
      actual := [];
      for i := 0 to |answer.value|
        invariant actual == Fallback(answer.value)[..i]
      {
        actual := actual + [Shard(answer.value[i], i)];
      }
      assert actual == Fallback(answer.value);
    }
    var shards := BuildShards(cluster.value, actual);
    assert connstrings == SpecFor(cluster.value, p, b, actual, m.value.publicKey).safekeeperConnstrings;
    return Some(Spec(p.tenantID, p.name, b.timelineID, p.tenantID, SafekeepersSetting(cluster.value),
                     connstrings, None, |shards|, shards, m.value.publicKey));
  }

  /**
   The shard part of a spec made for these attached nodes: empty iff there are none, else the one
   entry that the loop leaves, under number zero and the count, with the last node and its address.
   */
  ghost predicate NamesLastNode(spec: Spec, cluster: string, nodes: seq<nat>) {
    && spec.shardCount == |spec.shards|
    && (spec.shards == map[] <==> nodes == [])
    && (nodes != [] ==>
          && |spec.shards| == 1
          && (forall k :: k in spec.shards ==> Parse(k) == Some(ShardIndex(0, |nodes| % 256)))
          && (forall k :: k in spec.shards ==>
                && spec.shards[k].id == nodes[|nodes| - 1]
                && spec.shards[k].url == "postgres://no_user@" + cluster + "-pageserver-" + Decimal(nodes[|nodes| - 1]) + ".neon:6400"))
  }

  /** The nodes of a request. */
  function Nodes(shards: seq<Shard>): seq<nat> {
    seq(|shards|, i requires 0 <= i < |shards| => shards[i].node)
  }

  lemma SpecNamesLastNode(cluster: string, p: Project, b: Branch, shards: seq<Shard>, jwk: PublicKey)
    ensures NamesLastNode(SpecFor(cluster, p, b, shards, jwk), cluster, Nodes(shards))
  {
    hide Print, Parse;
    var key := ShardIndex(0, |shards| % 256);
    ShardIndexRoundTrip(key, "");
    if shards != [] {
      assert BuiltShards(cluster, shards, |shards|) == map[Print(key) := Info(cluster, shards[|shards| - 1])];
    }
  }

  /** A generated spec names the last node of the request, or without one of the storage controller's answer. */
  lemma GeneratedNamesLastNode(w: World, request: Option<seq<Shard>>, answer: Option<seq<nat>>, id: string)
    requires Generated(w, request, answer, id).Some?
    ensures Resolve(w, id).Some?
    ensures request.Some? ==> NamesLastNode(Generated(w, request, answer, id).value, Resolve(w, id).value.0, Nodes(request.value))
    ensures request.None? ==> answer.Some? && NamesLastNode(Generated(w, request, answer, id).value, Resolve(w, id).value.0, answer.value)
  {
    hide Resolve, SpecFor, NamesLastNode;
    var (cluster, p, b) := Resolve(w, id).value;
    var shards := ShardsFor(request, answer).value;
    SpecNamesLastNode(cluster, p, b, shards, ManagerOf(w, cluster).value.publicKey);
    assert request.None? ==> Nodes(Fallback(answer.value)) == answer.value;
  }

  // ---- The label round trip -------------------------------------------------------------------

  function MetaOf(b: Branch, p: Project): DeploymentMeta {
    var o := DeploymentObject(b, p);
    DeploymentMeta(o.key.name, o.key.namespace, o.labels, o.annotations)
  }

  /** d says that it belongs to this cluster, tenant and timeline. */
  predicate Points(d: DeploymentMeta, cluster: string, tenant: string, timeline: string) {
    ClusterOf(d) == Some(cluster) && HasLabel(d, TENANT_LABEL, tenant) && HasLabel(d, TIMELINE_LABEL, timeline)
  }

  lemma MetaSays(b: Branch, p: Project, id: string, cluster: string, tenant: string, timeline: string)
    ensures IsCompute(MetaOf(b, p), id) <==> b.name == id
    ensures Points(MetaOf(b, p), cluster, tenant, timeline) <==>
            p.clusterName == cluster && p.tenantID == tenant && b.timelineID == timeline
    ensures MetaOf(b, p).name == Name(ComputeDeployment(b.name)) && MetaOf(b, p).namespace == b.namespace
  {
    var l := DeploymentLabels(b, p);
    assert l[TENANT_LABEL] == p.tenantID;
    assert l[TIMELINE_LABEL] == b.timelineID;
    assert l[COMPONENT_LABEL] == "compute";
  }

  /** The first listed element that satisfies p is a good one. */
  ghost predicate Leads<T(!new)>(xs: seq<T>, p: T -> bool, good: T -> bool) {
    exists i :: 0 <= i < |xs| && p(xs[i]) && good(xs[i]) && forall j :: 0 <= j < i ==> !p(xs[j])
  }

  lemma {:induction false} FirstLeads<T(!new)>(xs: seq<T>, p: T -> bool, good: T -> bool)
    ensures First(xs, p).Some? && good(First(xs, p).value) <==> Leads(xs, p, good)
    ensures First(xs, p).Some? ==> p(First(xs, p).value)
  {
    if xs != [] && !p(xs[0]) {
      var rest := xs[1..];
      FirstLeads(rest, p, good);
      if Leads(rest, p, good) {
        var i :| 0 <= i < |rest| && p(rest[i]) && good(rest[i]) && forall j :: 0 <= j < i ==> !p(rest[j]);
        assert xs[i + 1] == rest[i];
        forall j | 0 <= j < i + 1 ensures !p(xs[j]) {
          assert j == 0 || xs[j] == rest[j - 1];
        }
      }
      if Leads(xs, p, good) {
        var i :| 0 <= i < |xs| && p(xs[i]) && good(xs[i]) && forall j :: 0 <= j < i ==> !p(xs[j]);
        assert rest[i - 1] == xs[i];
        forall j | 0 <= j < i - 1 ensures !p(rest[j]) {
          assert rest[j] == xs[j + 1];
        }
      }
    } else if xs != [] {
      assert First(xs, p) == Some(xs[0]);
    }
  }

  ghost predicate TenantLeadsTo(w: World, p: Project) {
    w.projects.Some? && Leads(w.projects.value, (q: Project) => q.tenantID == p.tenantID, (q: Project) => q == p)
  }

  ghost predicate TimelineLeadsTo(w: World, p: Project, b: Branch) {
    w.branches.Some? && Leads(w.branches.value, (c: Branch) => c.timelineID == b.timelineID && c.projectID == p.name, (c: Branch) => c == b)
  }

  /**
   In any store a compute ID resolves to this cluster, project and branch exactly when
   of all that is listed, the first compute Deployment with that ID names the cluster,
   tenant and timeline, the project is the tenant's first, and the branch is the
   timeline's first in it.
   */
  lemma ResolvesIff(w: World, id: string, cluster: string, p: Project, b: Branch)
    ensures Resolve(w, id) == Some((cluster, p, b)) <==>
            && w.deployments.Some?
            && Leads(w.deployments.value, d => IsCompute(d, id), d => Points(d, cluster, p.tenantID, b.timelineID))
            && TenantLeadsTo(w, p)
            && TimelineLeadsTo(w, p, b)
  {
    hide IsCompute, ClusterOf, First, Leads;
    if w.deployments.Some? {
      FirstLeads(w.deployments.value, d => IsCompute(d, id), d => Points(d, cluster, p.tenantID, b.timelineID));
    }
    if w.projects.Some? {
      FirstLeads(w.projects.value, (q: Project) => q.tenantID == p.tenantID, (q: Project) => q == p);
      if Resolve(w, id).Some? {
        ResolvedIsNamed(w, id);
      }
    }
    if w.branches.Some? {
      FirstLeads(w.branches.value, (c: Branch) => c.timelineID == b.timelineID && c.projectID == p.name, (c: Branch) => c == b);
    }
  }

  /** What a compute ID resolves to is what its Deployment names. */
  lemma ResolvedIsNamed(w: World, id: string)
    requires Resolve(w, id).Some?
    ensures var (cluster, p, b) := Resolve(w, id).value;
            var d := First(w.deployments.value, d => IsCompute(d, id));
            d.Some? && Points(d.value, cluster, p.tenantID, b.timelineID) && b.projectID == p.name
  {
    hide IsCompute, ClusterOf, First, Leads;
    var d := First(w.deployments.value, d => IsCompute(d, id)).value;
    var tenant, timeline := d.labels[TENANT_LABEL], d.labels[TIMELINE_LABEL];
    FirstLeads(w.projects.value, (q: Project) => q.tenantID == tenant, (q: Project) => true);
    var p := ProjectOf(w, tenant).value;
    FirstLeads(w.branches.value, (c: Branch) => c.timelineID == timeline && c.projectID == p.name, (c: Branch) => true);
  }

  /** Generating for the Deployment of b leads back to b, its project and its cluster. */
  predicate RoundTrips(w: World, b: Branch, p: Project) {
    Resolve(w, b.name) == Some((p.clusterName, p, b))
  }

  /** Every compute Deployment was built for a branch and a project; owners says which. */
  ghost predicate OperatorMade(ds: seq<DeploymentMeta>, owners: seq<Option<(Branch, Project)>>) {
    && |owners| == |ds|
    && forall i :: 0 <= i < |ds| ==>
         match owners[i]
         case Some((b, p)) => ds[i] == MetaOf(b, p)
         case None => !HasLabel(ds[i], COMPONENT_LABEL, "compute")
  }

  predicate Namesake(owner: Option<(Branch, Project)>, name: string) {
    owner.Some? && owner.value.0.name == name
  }

  predicate SameTarget(owner: Option<(Branch, Project)>, b: Branch, p: Project) {
    && owner.Some?
    && owner.value.1.clusterName == p.clusterName
    && owner.value.1.tenantID == p.tenantID
    && owner.value.0.timelineID == b.timelineID
  }

  /** No namesake of b with another cluster, tenant or timeline is listed before the first one with b's. */
  ghost predicate FirstNamesakeAgrees(owners: seq<Option<(Branch, Project)>>, b: Branch, p: Project) {
    exists i :: 0 <= i < |owners| && Namesake(owners[i], b.name) && SameTarget(owners[i], b, p)
                && forall j :: 0 <= j < i ==> !Namesake(owners[j], b.name)
  }

  lemma OwnersLead(ds: seq<DeploymentMeta>, owners: seq<Option<(Branch, Project)>>, b: Branch, p: Project)
    requires OperatorMade(ds, owners)
    ensures Leads(ds, d => IsCompute(d, b.name), d => Points(d, p.clusterName, p.tenantID, b.timelineID)) <==>
            FirstNamesakeAgrees(owners, b, p)
  {
    hide MetaOf, ClusterOf, Points;
    forall i | 0 <= i < |ds|
      ensures IsCompute(ds[i], b.name) <==> Namesake(owners[i], b.name)
      ensures Namesake(owners[i], b.name) ==> (Points(ds[i], p.clusterName, p.tenantID, b.timelineID) <==> SameTarget(owners[i], b, p))
    {
      if owners[i].Some? {
        MetaSays(owners[i].value.0, owners[i].value.1, b.name, p.clusterName, p.tenantID, b.timelineID);
      }
    }
  }

  /**
   The round trip in a store whose compute Deployments the operator made: it holds
   exactly when the first namesake listed has the branch's cluster, tenant and
   timeline, and project and branch are the first of their tenant and timeline.
   */
  lemma LabelRoundTripIff(w: World, owners: seq<Option<(Branch, Project)>>, b: Branch, p: Project)
    requires w.deployments.Some? && OperatorMade(w.deployments.value, owners)
    ensures RoundTrips(w, b, p) <==>
            FirstNamesakeAgrees(owners, b, p) && TenantLeadsTo(w, p) && TimelineLeadsTo(w, p, b)
  {
    hide Leads, OperatorMade, FirstNamesakeAgrees, Resolve;
    ResolvesIff(w, b.name, p.clusterName, p, b);
    OwnersLead(w.deployments.value, owners, b, p);
  }

  ghost predicate UniqueComputeID(ds: seq<DeploymentMeta>, d: DeploymentMeta, id: string) {
    forall e :: e in ds && IsCompute(e, id) ==> e == d
  }

  ghost predicate UniqueTenant(ps: seq<Project>, p: Project) {
    forall q :: q in ps && q.tenantID == p.tenantID ==> q == p
  }

  ghost predicate UniqueTimeline(bs: seq<Branch>, b: Branch) {
    forall c :: c in bs && c.timelineID == b.timelineID && c.projectID == b.projectID ==> c == b
  }

  /** So unique compute IDs, tenant IDs and timelines are enough. */
  lemma LabelRoundTrip(w: World, b: Branch, p: Project)
    requires w.deployments.Some? && w.projects.Some? && w.branches.Some?
    requires MetaOf(b, p) in w.deployments.value && p in w.projects.value && b in w.branches.value
    requires b.projectID == p.name
    requires UniqueComputeID(w.deployments.value, MetaOf(b, p), b.name)
    requires UniqueTenant(w.projects.value, p) && UniqueTimeline(w.branches.value, b)
    ensures RoundTrips(w, b, p)
  {
    hide MetaOf, IsCompute, Points, Leads, Resolve;
    var d := MetaOf(b, p);
    MetaSays(b, p, b.name, p.clusterName, p.tenantID, b.timelineID);
    FirstWhenUnique(w.deployments.value, d => IsCompute(d, b.name), d);
    FirstWhenUnique(w.projects.value, (q: Project) => q.tenantID == p.tenantID, p);
    FirstWhenUnique(w.branches.value, (c: Branch) => c.timelineID == b.timelineID && c.projectID == p.name, b);
    FirstLeads(w.deployments.value, d => IsCompute(d, b.name), d => Points(d, p.clusterName, p.tenantID, b.timelineID));
    FirstLeads(w.projects.value, (q: Project) => q.tenantID == p.tenantID, (q: Project) => q == p);
    FirstLeads(w.branches.value, (c: Branch) => c.timelineID == b.timelineID && c.projectID == p.name, (c: Branch) => c == b);
    ResolvesIff(w, b.name, p.clusterName, p, b);
  }

  /**
   They are needed: branch names, which serve as compute IDs, are unique in a namespace
   only. A branch listed after a namesake with another cluster, tenant or timeline never
   round-trips; its ID resolves, if at all, to what the first namesake was labelled with.
   */
  lemma NamesakesShareAComputeID(w: World, owners: seq<Option<(Branch, Project)>>, i: nat, b: Branch, p: Project, c: Branch, q: Project)
    requires w.deployments.Some? && OperatorMade(w.deployments.value, owners)
    requires i < |owners| && owners[i] == Some((b, p)) && b.name == c.name
    requires forall j :: 0 <= j < i ==> !Namesake(owners[j], c.name)
    ensures !SameTarget(owners[i], c, q) ==> !RoundTrips(w, c, q)
    ensures Resolve(w, c.name).Some? ==>
              var (cluster, project, branch) := Resolve(w, c.name).value;
              cluster == p.clusterName && project.tenantID == p.tenantID && branch.timelineID == b.timelineID
  {
    hide Leads, OperatorMade, Resolve, MetaOf;
    LabelRoundTripIff(w, owners, c, q);
    assert FirstNamesakeAgrees(owners, c, q) ==> SameTarget(owners[i], c, q) by {
      assert Namesake(owners[i], c.name);
    }
    if Resolve(w, c.name).Some? {
      var (cluster, project, branch) := Resolve(w, c.name).value;
      ResolvesIff(w, c.name, cluster, project, branch);
      FirstNamesakeIsFirst(w.deployments.value, owners, i, b, p);
      ResolvedIsNamed(w, c.name);
      MetaSays(b, p, c.name, cluster, project.tenantID, branch.timelineID);
    }
  }

  lemma FirstNamesakeIsFirst(ds: seq<DeploymentMeta>, owners: seq<Option<(Branch, Project)>>, i: nat, b: Branch, p: Project)
    requires OperatorMade(ds, owners)
    requires i < |owners| && owners[i] == Some((b, p))
    requires forall j :: 0 <= j < i ==> !Namesake(owners[j], b.name)
    ensures First(ds, d => IsCompute(d, b.name)) == Some(MetaOf(b, p))
  {
    hide MetaOf, First;
    forall j | 0 <= j <= i ensures IsCompute(ds[j], b.name) <==> j == i {
      if owners[j].Some? {
        MetaSays(owners[j].value.0, owners[j].value.1, b.name, "", "", "");
      }
    }
    FirstLeads(ds, d => IsCompute(d, b.name), d => d == MetaOf(b, p));
    assert ds[i] == MetaOf(b, p);
  }

  /** The host and port of a safekeeper in the setting. */
  function SafekeeperHost(cluster: string, id: nat): string {
    Name(SafekeeperService(cluster, id)) + ".neon:5454"
  }

  /** The neon.safekeepers setting lists the first three safekeeper Services. */
  lemma SettingNamesTheServices(cluster: string)
    ensures SafekeepersSetting(cluster) == SafekeeperHost(cluster, 0) + "," + SafekeeperHost(cluster, 1) + "," + SafekeeperHost(cluster, 2)
  {
    HostSpelled(cluster, 0, "0", "-safekeeper-0.neon:5454");
    HostSpelled(cluster, 1, "1", "-safekeeper-1.neon:5454");
    HostSpelled(cluster, 2, "2", "-safekeeper-2.neon:5454");
    hide SafekeeperHost;
    Joined(cluster, "-safekeeper-0.neon:5454", "-safekeeper-1.neon:5454", "-safekeeper-2.neon:5454", ",");
    assert "-safekeeper-0.neon:5454" + "," == "-safekeeper-0.neon:5454,";
    assert "-safekeeper-1.neon:5454" + "," == "-safekeeper-1.neon:5454,";
  }

  lemma Joined(c: string, x: string, y: string, z: string, comma: string)
    ensures (c + x) + comma + (c + y) + comma + (c + z) == c + (x + comma) + c + (y + comma) + c + z
  {
    assert (c + x) + comma == c + (x + comma);
    var s := c + (x + comma);
    assert s + (c + y) + comma == s + c + (y + comma);
    var u := s + c + (y + comma);
    assert u + (c + z) == u + c + z;
  }

  lemma HostSpelled(cluster: string, id: nat, digit: string, rest: string)
    requires id < 10 && digit == Decimal(id) && "-safekeeper-" + digit + ".neon:5454" == rest
    ensures SafekeeperHost(cluster, id) == cluster + rest
  {
    var a, z := "-safekeeper-", ".neon:5454";
    assert cluster + a + digit + z == cluster + (a + digit + z);
  }

  /** And the spec generated for it is that branch's, whatever shards are asked for. */
  lemma GeneratedSpecIsTheBranchs(w: World, b: Branch, p: Project, request: Option<seq<Shard>>, answer: Option<seq<nat>>)
    requires RoundTrips(w, b, p)
    ensures Generated(w, request, answer, b.name).Some? <==>
            ManagerOf(w, p.clusterName).Some? && (request.Some? || answer.Some?)
    ensures var r := Generated(w, request, answer, b.name);
            r.Some? ==>
              && r.value.clusterID == r.value.tenantSetting == p.tenantID && r.value.name == p.name
              && r.value.timelineSetting == b.timelineID
              && r.value.jwk == ManagerOf(w, p.clusterName).value.publicKey
              && Name(JWTSecret(p.clusterName)) in w.secrets
              && w.secrets[Name(JWTSecret(p.clusterName))].publicPem == Some(r.value.jwk)
              && r.value.safekeepersSetting ==
                 SafekeeperHost(p.clusterName, 0) + "," + SafekeeperHost(p.clusterName, 1) + "," + SafekeeperHost(p.clusterName, 2)
              && |r.value.safekeeperConnstrings| == 3
              && forall i :: 0 <= i < 3 ==>
                   r.value.safekeeperConnstrings[i] == "postgresql://postgres:@" + Name(SafekeeperService(p.clusterName, i)) + ".neon:5454"
  {
    hide Resolve, SpecFor, SafekeeperHost, Name, NewManager;
    if Generated(w, request, answer, b.name).Some? {
      SpecNamesTheSafekeepers(p.clusterName, p, b, ShardsFor(request, answer).value, ManagerOf(w, p.clusterName).value.publicKey);
      NewManagerIff(w.secrets[SecretName(p.clusterName)]);
    }
  }

  lemma SpecNamesTheSafekeepers(cluster: string, p: Project, b: Branch, shards: seq<Shard>, jwk: PublicKey)
    ensures var r := SpecFor(cluster, p, b, shards, jwk);
            && r.clusterID == r.tenantSetting == p.tenantID && r.name == p.name && r.timelineSetting == b.timelineID && r.jwk == jwk
            && r.safekeepersSetting == SafekeeperHost(cluster, 0) + "," + SafekeeperHost(cluster, 1) + "," + SafekeeperHost(cluster, 2)
            && |r.safekeeperConnstrings| == 3
            && forall i :: 0 <= i < 3 ==>
                 r.safekeeperConnstrings[i] == "postgresql://postgres:@" + Name(SafekeeperService(cluster, i)) + ".neon:5454"
  {
    hide BuiltShards, SafekeepersSetting, SafekeeperHost, Name, SafekeeperURL;
    SettingNamesTheServices(cluster);
    forall i: nat | i < 3
      ensures SafekeeperURL(cluster, i, "neon") == "postgresql://postgres:@" + Name(SafekeeperService(cluster, i)) + ".neon:5454"
    {
      AddressesNameTheService(cluster, i, "neon");
      var prefix := "postgresql://postgres:@" + Name(SafekeeperService(cluster, i));
      assert prefix + "." + "neon" + ":5454" == prefix + ".neon:5454";
    }
  }

  // ---- Refreshing one compute node ------------------------------------------------------------

  datatype Safekeeper = Safekeeper(id: nat)

  /** What a POST to /configure meets: whether the admin Service is there, and the code answered, if any. */
  datatype Configure = Configure(adminServiceFound: bool, answer: Option<nat>)

  predicate PostSucceeds(w: World, cluster: string, c: Configure) {
    ManagerOf(w, cluster).Some? && c.adminServiceFound && c.answer.Some? && 200 <= c.answer.value < 300
  }

  /** Whether the keys can be read, the admin Service is there, and the node answers with a success code. */
  method PostComputeSpec(w: World, cluster: string, c: Configure) returns (ok: bool)
    ensures ok <==> PostSucceeds(w, cluster, c)
  {
    if ManagerOf(w, cluster).None? || !c.adminServiceFound || c.answer.None? {
      return false;
    }
    if c.answer.value < 200 || c.answer.value >= 300 {
      return false;
    }
    return true;
  }

  /** The spec sent after an attach notification, if one is sent and accepted. */
  function AttachRefresh(w: World, shards: seq<Shard>, d: DeploymentMeta, c: Configure): Option<Spec> {
    if ComputeID(d).None? || ClusterOf(d).None? || !PostSucceeds(w, ClusterOf(d).value, c) then None
    else Generated(w, Some(shards), None, ComputeID(d).value)
  }

  /** Sends the spec generated for the shards of the notification, if all goes well; the spec sent names their last node. */
  method RefreshConfiguration(w: World, shards: seq<Shard>, d: DeploymentMeta, c: Configure) returns (sent: Option<Spec>)
    ensures sent == AttachRefresh(w, shards, d, c)
    ensures sent.Some? ==>
              && ComputeID(d).Some? && Resolve(w, ComputeID(d).value).Some?
              && NamesLastNode(sent.value, Resolve(w, ComputeID(d).value).value.0, Nodes(shards))
  {
    hide Generated, NamesLastNode, Nodes;
    var id := ComputeID(d);
    if id.None? {
      return None;
    }
    var cluster := ClusterOf(d);
    if cluster.None? {
      return None;
    }
    var spec := GenerateComputeSpec(w, Some(shards), None, id.value);
    if spec.None? {
      return None;
    }
    var ok := PostComputeSpec(w, cluster.value, c);
    if !ok {
      return None;
    }
    GeneratedNamesLastNode(w, Some(shards), None, id.value);
    return spec;
  }

  /** When an attach refresh sends something. */
  lemma AttachRefreshIff(w: World, shards: seq<Shard>, d: DeploymentMeta, c: Configure)
    ensures AttachRefresh(w, shards, d, c).Some? <==>
            && COMPUTE_ID in d.annotations
            && (CLUSTER_NAME in d.annotations || CLUSTER_LABEL in d.labels)
            && Resolve(w, d.annotations[COMPUTE_ID]).Some?
            && ManagerOf(w, Resolve(w, d.annotations[COMPUTE_ID]).value.0).Some?
            && ManagerOf(w, if CLUSTER_NAME in d.annotations then d.annotations[CLUSTER_NAME] else d.labels[CLUSTER_LABEL]).Some?
            && c.adminServiceFound && c.answer.Some? && c.answer.value >= 200 && c.answer.value < 300
  {
    hide Resolve, ManagerOf, SpecFor;
  }

  function SafekeeperConnstrings(cluster: string, namespace: string, sks: seq<Safekeeper>): seq<string> {
    seq(|sks|, i requires 0 <= i < |sks| => SafekeeperURL(cluster, sks[i].id, namespace))
  }

  /** The generated spec with the safekeepers and their generation replaced, all else kept. */
  function SafekeepersRefresh(w: World, sks: seq<Safekeeper>, generation: nat, answer: Option<seq<nat>>, d: DeploymentMeta, c: Configure): Option<Spec> {
    if ComputeID(d).None? || ClusterOf(d).None? || !PostSucceeds(w, ClusterOf(d).value, c) then None
    else
      match Generated(w, None, answer, ComputeID(d).value)
      case None => None
      case Some(spec) =>
        Some(spec.(safekeeperConnstrings := SafekeeperConnstrings(ClusterOf(d).value, d.namespace, sks), safekeepersGeneration := Some(generation)))
  }

  method RefreshSafekeepersConfiguration(w: World, sks: seq<Safekeeper>, generation: nat, answer: Option<seq<nat>>, d: DeploymentMeta, c: Configure)
    returns (sent: Option<Spec>)
    ensures sent == SafekeepersRefresh(w, sks, generation, answer, d, c)
  {
    hide Generated, SafekeeperURL;
    var id := ComputeID(d);
    if id.None? {
      return None;
    }
    var cluster := ClusterOf(d);
    if cluster.None? {
      return None;
    }
    var spec := GenerateComputeSpec(w, None, answer, id.value);
    if spec.None? {
      return None;
    }
    var connstrings: seq<string> := [];
    for i := 0 to |sks|
      invariant connstrings == SafekeeperConnstrings(cluster.value, d.namespace, sks)[..i]
    {
      connstrings := connstrings + [SafekeeperURL(cluster.value, sks[i].id, d.namespace)];
    }
    assert connstrings == SafekeeperConnstrings(cluster.value, d.namespace, sks);
    var updated := spec.value.(safekeeperConnstrings := connstrings, safekeepersGeneration := Some(generation));
    var ok := PostComputeSpec(w, cluster.value, c);
    if !ok {
      return None;
    }
    return Some(updated);
  }

  /** A safekeepers refresh needs the same, and the storage controller's answer. */
  lemma SafekeepersRefreshIff(w: World, sks: seq<Safekeeper>, generation: nat, answer: Option<seq<nat>>, d: DeploymentMeta, c: Configure)
    ensures SafekeepersRefresh(w, sks, generation, answer, d, c).Some? <==>
            && answer.Some? && COMPUTE_ID in d.annotations
            && (CLUSTER_NAME in d.annotations || CLUSTER_LABEL in d.labels)
            && Resolve(w, d.annotations[COMPUTE_ID]).Some?
            && ManagerOf(w, Resolve(w, d.annotations[COMPUTE_ID]).value.0).Some?
            && ManagerOf(w, if CLUSTER_NAME in d.annotations then d.annotations[CLUSTER_NAME] else d.labels[CLUSTER_LABEL]).Some?
            && c.adminServiceFound && c.answer.Some? && c.answer.value >= 200 && c.answer.value < 300
  {
    hide Resolve, ManagerOf, SpecFor;
  }

  /**
   What a safekeepers refresh sends: for each safekeeper notified, in order, the address of its
   Service in the namespace of the compute node, the generation notified, and all else as generated
   from the storage controller's answer.
   */
  lemma SafekeepersRefreshSays(w: World, sks: seq<Safekeeper>, generation: nat, answer: Option<seq<nat>>, d: DeploymentMeta, c: Configure)
    requires SafekeepersRefresh(w, sks, generation, answer, d, c).Some?
    ensures ComputeID(d).Some? && ClusterOf(d).Some? && Generated(w, None, answer, ComputeID(d).value).Some?
    ensures var sent := SafekeepersRefresh(w, sks, generation, answer, d, c).value;
            var spec := Generated(w, None, answer, ComputeID(d).value).value;
            && |sent.safekeeperConnstrings| == |sks|
            && (forall i :: 0 <= i < |sks| ==>
                  sent.safekeeperConnstrings[i] ==
                  "postgresql://postgres:@" + Name(SafekeeperService(ClusterOf(d).value, sks[i].id)) + "." + d.namespace + ":5454")
            && sent.safekeepersGeneration == Some(generation)
            && sent == spec.(safekeeperConnstrings := sent.safekeeperConnstrings, safekeepersGeneration := sent.safekeepersGeneration)
  {
    hide Generated, ManagerOf;
    forall i | 0 <= i < |sks|
      ensures SafekeeperURL(ClusterOf(d).value, sks[i].id, d.namespace) ==
              "postgresql://postgres:@" + Name(SafekeeperService(ClusterOf(d).value, sks[i].id)) + "." + d.namespace + ":5454"
    {
      AddressesNameTheService(ClusterOf(d).value, sks[i].id, d.namespace);
    }
  }
}
