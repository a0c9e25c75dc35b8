/** The two notification handlers: find the compute nodes, refresh each, answer with a status. */
module Routes {
  import opened Wrappers
  import opened ComputeObjects
  import opened ComputeSpec

  const OK := 200
  const BAD_REQUEST := 400
  const NOT_FOUND := 404
  const SERVER_ERROR := 500

  datatype AttachRequest = AttachRequest(tenant: string, shards: seq<Shard>)

  datatype SafekeepersRequest = SafekeepersRequest(tenant: string, timeline: string, generation: nat, safekeepers: seq<Safekeeper>)

  /** The deployments of a list that carry a tenant label, and a timeline label if one is given. */
  function Matched(ds: seq<DeploymentMeta>, tenant: string, timeline: Option<string>): seq<DeploymentMeta> {
    if ds == [] then []
    else
      (if HasLabel(ds[0], TENANT_LABEL, tenant) && (timeline.None? || HasLabel(ds[0], TIMELINE_LABEL, timeline.value)) then [ds[0]] else [])
      + Matched(ds[1..], tenant, timeline)
  }

  lemma {:induction false} MatchedExactly(ds: seq<DeploymentMeta>, tenant: string, timeline: Option<string>, d: DeploymentMeta)
    ensures d in Matched(ds, tenant, timeline) <==>
            d in ds && HasLabel(d, TENANT_LABEL, tenant) && (timeline.None? || HasLabel(d, TIMELINE_LABEL, timeline.value))
    ensures multiset(Matched(ds, tenant, timeline))[d] == if d in Matched(ds, tenant, timeline) then multiset(ds)[d] else 0
  {
    if ds != [] {
      MatchedExactly(ds[1..], tenant, timeline, d);
      assert ds == [ds[0]] + ds[1..];
    }
  }

  /** Matching goes through the list from its start, so what matches keeps its order. */
  lemma {:induction false} MatchedInOrder(ds: seq<DeploymentMeta>, es: seq<DeploymentMeta>, tenant: string, timeline: Option<string>)
    ensures Matched(ds + es, tenant, timeline) == Matched(ds, tenant, timeline) + Matched(es, tenant, timeline)
  {
    if ds == [] {
      assert ds + es == es;
    } else {
      hide HasLabel;
      assert (ds + es)[0] == ds[0] && (ds + es)[1..] == ds[1..] + es;
      MatchedInOrder(ds[1..], es, tenant, timeline);
      var rest, more := Matched(ds[1..], tenant, timeline), Matched(es, tenant, timeline);
      assert [ds[0]] + (rest + more) == [ds[0]] + rest + more && [] + (rest + more) == [] + rest + more;
    }
  }

  /** An empty result is an error here. */
  function TenantDeployments(w: World, tenant: string): Option<seq<DeploymentMeta>> {
    if w.deployments.None? || Matched(w.deployments.value, tenant, None) == [] then None
    else Some(Matched(w.deployments.value, tenant, None))
  }

  /** And is not here. */
  function TenantTimelineDeployments(w: World, tenant: string, timeline: string): Option<seq<DeploymentMeta>> {
    if w.deployments.None? then None else Some(Matched(w.deployments.value, tenant, Some(timeline)))
  }

  /**
   What the two finders return: one fails when the listing fails or nothing carries the tenant's
   label, the other only when the listing fails; what they return is what carries the labels asked for.
   */
  lemma FoundExactly(w: World, tenant: string, timeline: string, d: DeploymentMeta)
    ensures TenantDeployments(w, tenant).None? <==>
            w.deployments.None? || forall e :: e in w.deployments.value ==> !HasLabel(e, TENANT_LABEL, tenant)
    ensures TenantDeployments(w, tenant).Some? ==>
              (d in TenantDeployments(w, tenant).value <==> d in w.deployments.value && HasLabel(d, TENANT_LABEL, tenant))
    ensures TenantTimelineDeployments(w, tenant, timeline).None? <==> w.deployments.None?
    ensures TenantTimelineDeployments(w, tenant, timeline).Some? ==>
              (d in TenantTimelineDeployments(w, tenant, timeline).value <==>
                 d in w.deployments.value && HasLabel(d, TENANT_LABEL, tenant) && HasLabel(d, TIMELINE_LABEL, timeline))
  {
    hide Matched;
    if w.deployments.Some? {
      var ds := w.deployments.value;
      MatchedExactly(ds, tenant, Some(timeline), d);
      forall e ensures e in Matched(ds, tenant, None) <==> e in ds && HasLabel(e, TENANT_LABEL, tenant) {
        MatchedExactly(ds, tenant, None, e);
      }
      if Matched(ds, tenant, None) != [] {
        assert Matched(ds, tenant, None)[0] in Matched(ds, tenant, None);
      }
    }
  }

  /** One refresh made while answering: the node, and the spec it was sent, if any. */
  datatype Refresh = Refresh(node: DeploymentMeta, sent: Option<Spec>)

  /** The wrapped writer remembers the status. */
  class ResponseWriter {
    var status: nat
    var attempts: seq<Refresh>

    constructor ()
      ensures status == OK && attempts == []
    {
      status, attempts := OK, [];
    }

    method WriteHeader(code: nat)
      modifies this
      ensures status == code && attempts == old(attempts)
    {
      status := code;
    }

    method Attempt(r: Refresh)
      modifies this
      ensures attempts == old(attempts) + [r] && status == old(status)
    {
      attempts := attempts + [r];
    }
  }

  /** The refreshes of these nodes in order; configure(k) decides the POST to the k-th. */
  function AttachRefreshes(w: World, shards: seq<Shard>, ds: seq<DeploymentMeta>, configure: nat -> Configure): seq<Refresh> {
    seq(|ds|, k requires 0 <= k < |ds| => Refresh(ds[k], AttachRefresh(w, shards, ds[k], configure(k))))
  }

  function SafekeepersRefreshes(w: World, req: SafekeepersRequest, answer: nat -> Option<seq<nat>>, ds: seq<DeploymentMeta>,
                                configure: nat -> Configure): seq<Refresh> {
    seq(|ds|, k requires 0 <= k < |ds| =>
      Refresh(ds[k], SafekeepersRefresh(w, req.safekeepers, req.generation, answer(k), ds[k], configure(k))))
  }

  /**
   Every deployment of the tenant is tried once, in order, whatever failed before;
   200 exactly when the request was read and parsed, some deployment was found, and
   every refresh succeeded; anything else is a server error, never 404.
   */
  method NotifyAttach(rw: ResponseWriter, w: World, readOk: bool, parsed: Option<AttachRequest>, configure: nat -> Configure)
    modifies rw
    ensures var found := if readOk && parsed.Some? then TenantDeployments(w, parsed.value.tenant) else None;
            && rw.attempts == old(rw.attempts) + (if found.Some? then AttachRefreshes(w, parsed.value.shards, found.value, configure) else [])
            && (rw.status == OK <==>
                  found.Some? && forall k :: 0 <= k < |found.value| ==> AttachRefresh(w, parsed.value.shards, found.value[k], configure(k)).Some?)
            && (rw.status == OK || rw.status == SERVER_ERROR)
  {
    hide AttachRefresh, Matched, NamesLastNode, Nodes, Resolve;
    if !readOk {
      rw.WriteHeader(SERVER_ERROR);
      return;
    }
    if parsed.None? {
      rw.WriteHeader(SERVER_ERROR);
      return;
    }
    var request := parsed.value;
    var found := TenantDeployments(w, request.tenant);
    if found.None? {
      rw.WriteHeader(SERVER_ERROR);
      return;
    }
    var items := found.value;
    if |items| == 0 {
      // The answer would be 404, but the finder reports an empty list as an error.
      assert false;
    }
    var failcount := 0;
    ghost var before := rw.attempts;
    for k := 0 to |items|
      invariant rw.attempts == before + AttachRefreshes(w, request.shards, items, configure)[..k]
      invariant failcount >= 0
      invariant failcount == 0 <==> forall j :: 0 <= j < k ==> AttachRefresh(w, request.shards, items[j], configure(j)).Some?
    {
      var sent := RefreshConfiguration(w, request.shards, items[k], configure(k));
      rw.Attempt(Refresh(items[k], sent));
      if sent.None? {
        failcount := failcount + 1;
      }
    }
    if failcount > 0 {
      rw.WriteHeader(SERVER_ERROR);
      return;
    }
    rw.WriteHeader(OK);
  }

  /** The same for safekeepers, except: 400 when the body does not parse, 404 exactly when nothing matches. */
  method NotifySafekeepers(rw: ResponseWriter, w: World, readOk: bool, parsed: Option<SafekeepersRequest>,
                           answer: nat -> Option<seq<nat>>, configure: nat -> Configure)
    modifies rw
    ensures var found := if readOk && parsed.Some? then TenantTimelineDeployments(w, parsed.value.tenant, parsed.value.timeline) else None;
            && rw.attempts == old(rw.attempts) + (if found.Some? then SafekeepersRefreshes(w, parsed.value, answer, found.value, configure) else [])
            && (rw.status == OK <==>
                  found.Some? && found.value != []
                  && forall k :: 0 <= k < |found.value| ==>
                       SafekeepersRefresh(w, parsed.value.safekeepers, parsed.value.generation, answer(k), found.value[k], configure(k)).Some?)
            && (rw.status == NOT_FOUND <==> found == Some([]))
            && (rw.status == BAD_REQUEST <==> readOk && parsed.None?)
            && (rw.status == OK || rw.status == NOT_FOUND || rw.status == BAD_REQUEST || rw.status == SERVER_ERROR)
  {
    hide SafekeepersRefresh, Matched, TenantTimelineDeployments;
    if !readOk {
      rw.WriteHeader(SERVER_ERROR);
      return;
    }
    if parsed.None? {
      rw.WriteHeader(BAD_REQUEST);
      return;
    }
    var req := parsed.value;
    var found := TenantTimelineDeployments(w, req.tenant, req.timeline);
    if found.None? {
      rw.WriteHeader(SERVER_ERROR);
      return;
    }
    var items := found.value;
    if |items| == 0 {
      rw.WriteHeader(NOT_FOUND);
      return;
    }
    var failcount := 0;
    ghost var before := rw.attempts;
    for k := 0 to |items|
      invariant rw.attempts == before + SafekeepersRefreshes(w, req, answer, items, configure)[..k]
      invariant failcount >= 0
      invariant failcount == 0 <==> forall j :: 0 <= j < k ==>
                                      SafekeepersRefresh(w, req.safekeepers, req.generation, answer(j), items[j], configure(j)).Some?
    {
      var sent := RefreshSafekeepersConfiguration(w, req.safekeepers, req.generation, answer(k), items[k], configure(k));
      rw.Attempt(Refresh(items[k], sent));
      if sent.None? {
        failcount := failcount + 1;
      }
    }
    if failcount > 0 {
      rw.WriteHeader(SERVER_ERROR);
      return;
    }
    rw.WriteHeader(OK);
  }
}
