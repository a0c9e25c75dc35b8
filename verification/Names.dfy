/** The names of all child objects, and why no two of them collide. */
module Names {

  // ---- Decimal numbers (the %d of the format strings) -------------------------

  predicate IsDigit(c: char) {
    '0' <= c <= '9'
  }

  function Digit(d: nat): (c: char)
    requires d < 10
    ensures IsDigit(c)
  {
    '0' + d as char
  }

  function DigitValue(c: char): nat
    requires IsDigit(c)
  {
    c as nat - '0' as nat
  }

  function Decimal(n: nat): (s: string)
    ensures s != "" && forall i :: 0 <= i < |s| ==> IsDigit(s[i])
  {
    if n < 10 then [Digit(n)] else Decimal(n / 10) + [Digit(n % 10)]
  }

  function Undecimal(s: string): nat
    requires forall i :: 0 <= i < |s| ==> IsDigit(s[i])
  {
    if s == "" then 0 else Undecimal(s[..|s| - 1]) * 10 + DigitValue(s[|s| - 1])
  }

  lemma {:induction false} DecimalRoundTrip(n: nat)
    ensures Undecimal(Decimal(n)) == n
  {
    if n >= 10 {
      DecimalRoundTrip(n / 10);
      assert Decimal(n)[..|Decimal(n)| - 1] == Decimal(n / 10);
    } else {
      assert Decimal(n)[..0] == "";
    }
  }

  /** Written from the highest digit, without leading zeros. */
  lemma DecimalSpelled()
    ensures Decimal(0) == "0" && Decimal(7) == "7" && Decimal(10) == "10" && Decimal(120) == "120"
  {
    assert Decimal(1) == "1" && Decimal(12) == "12";
  }

  lemma DecimalInjective(m: nat, n: nat)
    requires Decimal(m) == Decimal(n)
    ensures m == n
  {
    DecimalRoundTrip(m);
    DecimalRoundTrip(n);
  }

  // ---- Children ------------------------------------------------------------------

  datatype ChildKind = ConfigMap | Deployment | Service | StatefulSet | Secret

  /** Every child any controller creates, by what it is derived from. */
  datatype Child =
    | ComputeConfigMap(branch: string)
    | ComputeDeployment(branch: string)
    | AdminService(branch: string)
    | PostgresService(branch: string)
    | PageserverConfigMap(cluster: string, id: nat)
    | PageserverService(cluster: string, id: nat)
    | PageserverHeadless(cluster: string, id: nat)
    | PageserverStatefulSet(cluster: string, id: nat)
    | SafekeeperService(cluster: string, id: nat)
    | SafekeeperHeadless(cluster: string, id: nat)
    | SafekeeperStatefulSet(cluster: string, id: nat)
    | ControllerDeployment(cluster: string)
    | ControllerService(cluster: string)
    | BrokerDeployment(cluster: string)
    | BrokerService(cluster: string)
    | JWTSecret(cluster: string)

  function KindOf(c: Child): ChildKind {
    match c
    case ComputeConfigMap(_) => ConfigMap
    case PageserverConfigMap(_, _) => ConfigMap
    case ComputeDeployment(_) => Deployment
    case ControllerDeployment(_) => Deployment
    case BrokerDeployment(_) => Deployment
    case PageserverStatefulSet(_, _) => StatefulSet
    case SafekeeperStatefulSet(_, _) => StatefulSet
    case JWTSecret(_) => Secret
    case _ => Service
  }

  function PageserverName(cluster: string, id: nat): string {
    cluster + "-pageserver-" + Decimal(id)
  }

  function SafekeeperName(cluster: string, id: nat): string {
    cluster + "-safekeeper-" + Decimal(id)
  }

  function Name(c: Child): string {
    match c
    case ComputeConfigMap(b) => b + "-compute-spec"
    case ComputeDeployment(b) => b + "-compute-node"
    case AdminService(b) => b + "-admin"
    case PostgresService(b) => b + "-postgres"
    case PageserverConfigMap(cl, id) => PageserverName(cl, id)
    case PageserverService(cl, id) => PageserverName(cl, id)
    case PageserverHeadless(cl, id) => PageserverName(cl, id) + "-headless"
    case PageserverStatefulSet(cl, id) => PageserverName(cl, id)
    case SafekeeperService(cl, id) => SafekeeperName(cl, id)
    case SafekeeperHeadless(cl, id) => SafekeeperName(cl, id) + "-headless"
    case SafekeeperStatefulSet(cl, id) => SafekeeperName(cl, id)
    case ControllerDeployment(cl) => cl + "-storage-controller"
    case ControllerService(cl) => cl + "-storage-controller"
    case BrokerDeployment(cl) => cl + "-storage-broker"
    case BrokerService(cl) => cl + "-storage-broker"
    case JWTSecret(cl) => "cluster-" + cl + "-jwt"
  }

  /** Every name as the source's format strings spell it, with %d as the decimal numeral. */
  lemma NamesSpelled(s: string, id: nat)
    ensures Name(ComputeConfigMap(s)) == s + "-compute-spec" && Name(ComputeDeployment(s)) == s + "-compute-node"
    ensures Name(AdminService(s)) == s + "-admin" && Name(PostgresService(s)) == s + "-postgres"
    ensures Name(PageserverConfigMap(s, id)) == Name(PageserverService(s, id)) == Name(PageserverStatefulSet(s, id)) == s + "-pageserver-" + Decimal(id)
    ensures Name(SafekeeperService(s, id)) == Name(SafekeeperStatefulSet(s, id)) == s + "-safekeeper-" + Decimal(id)
    ensures Name(PageserverHeadless(s, id)) == Name(PageserverService(s, id)) + "-headless"
    ensures Name(SafekeeperHeadless(s, id)) == Name(SafekeeperService(s, id)) + "-headless"
    ensures Name(ControllerDeployment(s)) == Name(ControllerService(s)) == s + "-storage-controller"
    ensures Name(BrokerDeployment(s)) == Name(BrokerService(s)) == s + "-storage-broker"
    ensures Name(JWTSecret(s)) == "cluster-" + s + "-jwt"
  {
    hide Decimal;
  }

  /** The k-th character from the end. */
  function FromEnd(s: string, k: nat): char
    requires k < |s|
  {
    s[|s| - 1 - k]
  }

  lemma SameSuffix(a: string, b: string, suffix: string)
    requires a + suffix == b + suffix
    ensures a == b
  {
    assert |a| == |b|;
    assert a == (a + suffix)[..|a|];
    assert b == (b + suffix)[..|b|];
  }

  /** Trailing digits after a non-digit are found again, however long they are. */
  lemma SplitAtDigits(a: string, x: string, b: string, y: string)
    requires a + x == b + y
    requires forall i :: 0 <= i < |x| ==> IsDigit(x[i])
    requires forall i :: 0 <= i < |y| ==> IsDigit(y[i])
    requires a != "" && !IsDigit(a[|a| - 1]) && b != "" && !IsDigit(b[|b| - 1])
    ensures a == b && x == y
  {
    var s := a + x;
    assert s == b + y;
    assert s[|a| - 1] == a[|a| - 1] && s[|b| - 1] == b[|b| - 1];
    assert forall k :: |a| <= k < |s| ==> s[k] == x[k - |a|];
    assert forall k :: |b| <= k < |s| ==> s[k] == y[k - |b|];
    assert |a| == |b|;
    assert a == (a + x)[..|a|];
    assert b == (b + y)[..|b|];
    assert x == (a + x)[|a|..];
    assert y == (b + y)[|b|..];
  }

  lemma PageserverNameInjective(c: string, i: nat, c': string, i': nat)
    requires PageserverName(c, i) == PageserverName(c', i')
    ensures c == c' && i == i'
  {
    SplitAtDigits(c + "-pageserver-", Decimal(i), c' + "-pageserver-", Decimal(i'));
    SameSuffix(c, c', "-pageserver-");
    DecimalInjective(i, i');
  }

  lemma SafekeeperNameInjective(c: string, i: nat, c': string, i': nat)
    requires SafekeeperName(c, i) == SafekeeperName(c', i')
    ensures c == c' && i == i'
  {
    SplitAtDigits(c + "-safekeeper-", Decimal(i), c' + "-safekeeper-", Decimal(i'));
    SameSuffix(c, c', "-safekeeper-");
    DecimalInjective(i, i');
  }

  lemma ServerNamesDiffer(c: string, i: nat, c': string, i': nat)
    ensures PageserverName(c, i) != SafekeeperName(c', i')
  {
    var a, b := c + "-pageserver-", c' + "-safekeeper-";
    assert a[|a| - 4] == 'v' && b[|b| - 4] == 'p';
    if PageserverName(c, i) == SafekeeperName(c', i') {
      SplitAtDigits(a, Decimal(i), b, Decimal(i'));
    }
  }

  predicate IsServer(c: Child) {
    c.PageserverConfigMap? || c.PageserverService? || c.PageserverStatefulSet? || c.SafekeeperService? || c.SafekeeperStatefulSet?
  }

  /** What the last characters of a name give away. */
  lemma Endings(c: Child)
    ensures |Name(c)| >= 3
    ensures IsDigit(FromEnd(Name(c), 0)) <==> IsServer(c)
    ensures KindOf(c) == ConfigMap && !IsServer(c) ==> c.ComputeConfigMap?
    ensures c.ComputeDeployment? || c.ControllerDeployment? || c.BrokerDeployment? ==>
              FromEnd(Name(c), 2) == if c.ComputeDeployment? then 'o' else if c.ControllerDeployment? then 'l' else 'k'
    ensures c.AdminService? ==> FromEnd(Name(c), 2) == 'm'
    ensures c.PostgresService? ==> FromEnd(Name(c), 2) == 'r' && FromEnd(Name(c), 1) == 'e'
    ensures c.PageserverHeadless? || c.SafekeeperHeadless? ==> FromEnd(Name(c), 2) == 'e' && FromEnd(Name(c), 1) == 's'
    ensures c.ControllerService? ==> FromEnd(Name(c), 2) == 'l'
    ensures c.BrokerService? ==> FromEnd(Name(c), 2) == 'k'
  {
    match c
    case PageserverConfigMap(cl, id) => ServerEnding(cl, id);
    case PageserverService(cl, id) => ServerEnding(cl, id);
    case PageserverStatefulSet(cl, id) => ServerEnding(cl, id);
    case SafekeeperService(cl, id) => ServerEnding(cl, id);
    case SafekeeperStatefulSet(cl, id) => ServerEnding(cl, id);
    case _ =>
  }

  lemma ServerEnding(cluster: string, id: nat)
    ensures IsDigit(FromEnd(PageserverName(cluster, id), 0))
    ensures IsDigit(FromEnd(SafekeeperName(cluster, id), 0))
  {
    var d := Decimal(id);
    assert FromEnd(PageserverName(cluster, id), 0) == d[|d| - 1];
    assert FromEnd(SafekeeperName(cluster, id), 0) == d[|d| - 1];
  }

  lemma SameConstructor(x: Child, y: Child)
    requires KindOf(x) == KindOf(y) && Name(x) == Name(y)
    ensures IsServer(x) == IsServer(y)
    ensures !IsServer(x) && !x.PageserverHeadless? && !x.SafekeeperHeadless? ==>
              match x
              case ComputeConfigMap(_) => y.ComputeConfigMap?
              case ComputeDeployment(_) => y.ComputeDeployment?
              case AdminService(_) => y.AdminService?
              case PostgresService(_) => y.PostgresService?
              case ControllerDeployment(_) => y.ControllerDeployment?
              case ControllerService(_) => y.ControllerService?
              case BrokerDeployment(_) => y.BrokerDeployment?
              case BrokerService(_) => y.BrokerService?
              case _ => y.JWTSecret?
    ensures x.PageserverHeadless? || x.SafekeeperHeadless? ==> y.PageserverHeadless? || y.SafekeeperHeadless?
  {
    Endings(x);
    Endings(y);
  }

  /** Within a kind, the name determines the child: no two distinct children collide. */
  lemma NamesDoNotCollide(x: Child, y: Child)
    requires KindOf(x) == KindOf(y) && Name(x) == Name(y)
    ensures x == y
  {
    SameConstructor(x, y);
    if IsServer(x) {
      ServersDoNotCollide(x, y);
    } else if x.PageserverHeadless? || x.SafekeeperHeadless? {
      HeadlessDoNotCollide(x, y);
    } else {
      match x
      case ComputeConfigMap(b) => SameSuffix(b, y.branch, "-compute-spec");
      case ComputeDeployment(b) => SameSuffix(b, y.branch, "-compute-node");
      case AdminService(b) => SameSuffix(b, y.branch, "-admin");
      case PostgresService(b) => SameSuffix(b, y.branch, "-postgres");
      case ControllerDeployment(cl) => SameSuffix(cl, y.cluster, "-storage-controller");
      case ControllerService(cl) => SameSuffix(cl, y.cluster, "-storage-controller");
      case BrokerDeployment(cl) => SameSuffix(cl, y.cluster, "-storage-broker");
      case BrokerService(cl) => SameSuffix(cl, y.cluster, "-storage-broker");
      case JWTSecret(cl) =>
        SameSuffix("cluster-" + cl, "cluster-" + y.cluster, "-jwt");
        assert cl == ("cluster-" + cl)[8..];
        assert y.cluster == ("cluster-" + y.cluster)[8..];
    }
  }

  lemma ServersDoNotCollide(x: Child, y: Child)
    requires KindOf(x) == KindOf(y) && Name(x) == Name(y)
    requires IsServer(x) && IsServer(y)
    ensures x == y
  {
    var px := x.PageserverConfigMap? || x.PageserverService? || x.PageserverStatefulSet?;
    var py := y.PageserverConfigMap? || y.PageserverService? || y.PageserverStatefulSet?;
    if px && py {
      PageserverNameInjective(x.cluster, x.id, y.cluster, y.id);
    } else if !px && !py {
      SafekeeperNameInjective(x.cluster, x.id, y.cluster, y.id);
    } else if px {
      ServerNamesDiffer(x.cluster, x.id, y.cluster, y.id);
    } else {
      ServerNamesDiffer(y.cluster, y.id, x.cluster, x.id);
    }
  }

  lemma HeadlessDoNotCollide(x: Child, y: Child)
    requires Name(x) == Name(y)
    requires (x.PageserverHeadless? || x.SafekeeperHeadless?) && (y.PageserverHeadless? || y.SafekeeperHeadless?)
    ensures x == y
  {
    var nx := if x.PageserverHeadless? then PageserverName(x.cluster, x.id) else SafekeeperName(x.cluster, x.id);
    var ny := if y.PageserverHeadless? then PageserverName(y.cluster, y.id) else SafekeeperName(y.cluster, y.id);
    SameSuffix(nx, ny, "-headless");
    if x.PageserverHeadless? && y.PageserverHeadless? {
      PageserverNameInjective(x.cluster, x.id, y.cluster, y.id);
    } else if x.SafekeeperHeadless? && y.SafekeeperHeadless? {
      SafekeeperNameInjective(x.cluster, x.id, y.cluster, y.id);
    } else if x.PageserverHeadless? {
      ServerNamesDiffer(x.cluster, x.id, y.cluster, y.id);
    } else {
      ServerNamesDiffer(y.cluster, y.id, x.cluster, x.id);
    }
  }

  // ---- Owners ----------------------------------------------------------------------

  /** A custom resource, as far as its children's names depend on it. */
  datatype Owner =
    | OfCluster(name: string)
    | OfBranch(name: string)
    | OfPageserver(cluster: string, id: nat)
    | OfSafekeeper(cluster: string, id: nat)

  function ChildrenOf(o: Owner): seq<Child> {
    match o
    case OfCluster(n) => [JWTSecret(n), ControllerDeployment(n), ControllerService(n), BrokerDeployment(n), BrokerService(n)]
    case OfBranch(n) => [ComputeConfigMap(n), ComputeDeployment(n), AdminService(n), PostgresService(n)]
    case OfPageserver(c, i) => [PageserverConfigMap(c, i), PageserverService(c, i), PageserverHeadless(c, i), PageserverStatefulSet(c, i)]
    case OfSafekeeper(c, i) => [SafekeeperService(c, i), SafekeeperHeadless(c, i), SafekeeperStatefulSet(c, i)]
  }

  /** Two owners, or two children of one owner, never share a child object. */
  lemma ChildrenAreDistinct(a: Owner, i: nat, b: Owner, j: nat)
    requires i < |ChildrenOf(a)| && j < |ChildrenOf(b)|
    requires KindOf(ChildrenOf(a)[i]) == KindOf(ChildrenOf(b)[j])
    requires Name(ChildrenOf(a)[i]) == Name(ChildrenOf(b)[j])
    ensures a == b && i == j
  {
    NamesDoNotCollide(ChildrenOf(a)[i], ChildrenOf(b)[j]);
  }

  // ---- Addresses in a compute spec ---------------------------------------------------

  function PageserverURL(cluster: string, node: nat): string {
    "postgres://no_user@" + cluster + "-pageserver-" + Decimal(node) + ".neon:6400"
  }

  function SafekeeperURL(cluster: string, id: nat, namespace: string): string {
    "postgresql://postgres:@" + cluster + "-safekeeper-" + Decimal(id) + "." + namespace + ":5454"
  }

  /** The host in an address is the name of the Service of that node, for no other node. */
  lemma AddressesNameTheService(cluster: string, id: nat, namespace: string)
    ensures PageserverURL(cluster, id) == "postgres://no_user@" + Name(PageserverService(cluster, id)) + ".neon:6400"
    ensures SafekeeperURL(cluster, id, namespace) ==
            "postgresql://postgres:@" + Name(SafekeeperService(cluster, id)) + "." + namespace + ":5454"
  {
    var d := Decimal(id);
    assert "postgres://no_user@" + cluster + "-pageserver-" + d + ".neon:6400" ==
           "postgres://no_user@" + (cluster + "-pageserver-" + d) + ".neon:6400";
    assert "postgresql://postgres:@" + cluster + "-safekeeper-" + d + "." + namespace + ":5454" ==
           "postgresql://postgres:@" + (cluster + "-safekeeper-" + d) + "." + namespace + ":5454";
  }

  /** The host under which a Service is known in the whole cluster. */
  function Host(service: string, namespace: string): string {
    service + "." + namespace
  }

  lemma SameHost(scheme: string, service: string, created: string, namespace: string, port: string)
    ensures scheme + Host(service, created) + port == scheme + service + "." + namespace + port <==> created == namespace
  {
    var pre := scheme + service + ".";
    assert scheme + Host(service, created) == pre + created;
    if pre + created + port == pre + namespace + port {
      SameSuffix(pre + created, pre + namespace, port);
      assert created == (pre + created)[|pre|..] && namespace == (pre + namespace)[|pre|..];
    }
  }

  /**
   An address leads to the Service created for that node exactly when the Service's
   namespace is the one in the address: neon for a pageserver, and for a safekeeper
   neon or, after a safekeepers notification, the namespace of the compute node.
   */
  lemma PageserverAddressIff(cluster: string, id: nat, created: string)
    ensures "postgres://no_user@" + Host(Name(PageserverService(cluster, id)), created) + ":6400" == PageserverURL(cluster, id)
            <==> created == "neon"
  {
    hide Name, Host, Decimal;
    AddressesNameTheService(cluster, id, "");
    var address := "postgres://no_user@" + Name(PageserverService(cluster, id));
    SameHost("postgres://no_user@", Name(PageserverService(cluster, id)), created, "neon", ":6400");
    assert address + "." + "neon" + ":6400" == address + ".neon:6400";
  }

  lemma SafekeeperAddressIff(cluster: string, id: nat, namespace: string, created: string)
    ensures "postgresql://postgres:@" + Host(Name(SafekeeperService(cluster, id)), created) + ":5454" == SafekeeperURL(cluster, id, namespace)
            <==> created == namespace
  {
    hide Name, Host, Decimal;
    AddressesNameTheService(cluster, id, namespace);
    SameHost("postgresql://postgres:@", Name(SafekeeperService(cluster, id)), created, namespace, ":5454");
  }

  lemma PageserverURLInjective(c: string, i: nat, c': string, i': nat)
    requires PageserverURL(c, i) == PageserverURL(c', i')
    ensures c == c' && i == i'
  {
    AddressesNameTheService(c, i, "");
    AddressesNameTheService(c', i', "");
    SameSuffix("postgres://no_user@" + PageserverName(c, i), "postgres://no_user@" + PageserverName(c', i'), ".neon:6400");
    assert PageserverName(c, i) == ("postgres://no_user@" + PageserverName(c, i))[19..];
    assert PageserverName(c', i') == ("postgres://no_user@" + PageserverName(c', i'))[19..];
    PageserverNameInjective(c, i, c', i');
  }
}
