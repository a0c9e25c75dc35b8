/**
 The condition list of a custom resource's status: a list that is used as a
 map from condition type to condition, and the one operation on it.
 */
module Conditions {
  import opened Wrappers

  /** The condition types of utils/status.go, and any type written by others. */
  datatype ConditionType =
    | Available
    | Progressing
    | StorageControllerAvailable
    | StorageBrokerAvailable
    | TenantIDAssigned
    | Attached
    | TimelineIDAssigned
    | TimelineCreated
    | ComputeReady
    | ResourcesReady
    | OtherType(name: string)

  datatype ConditionStatus = StatusTrue | StatusFalse | StatusUnknown

  /** The operator's own reasons, and a reason copied from a container state. */
  datatype Reason =
    | AsExpected
    | Reconciling
    | ChildPodNotReady
    | ChildDeploymentNotAvailable
    | ChildResourceMissing
    | ResourceCreateFailed
    | StorageControllerUnreachable
    | AttachFailed
    | TenantIDPending
    | TimelineIDPending
    | TimelineCreationFailed
    | Kubelet(text: string)

  datatype Message =
    | Text(text: string)
    | ContainerIs(container: string, state: string)
    | ContainerExited(container: string, code: int)

  datatype Condition = Condition(
    t: ConditionType,
    status: ConditionStatus,
    reason: Reason,
    message: Message,
    observedGeneration: int,
    lastTransitionTime: int)

  /** The arguments of one SetCondition call, apart from the object. */
  datatype Update = Update(t: ConditionType, status: ConditionStatus, reason: Reason, message: Message)

  /** The index of the first condition of type t, or the length when there is none. */
  function Find(conds: seq<Condition>, t: ConditionType): (i: nat)
    ensures i <= |conds|
    ensures i < |conds| ==> conds[i].t == t
    ensures forall j :: 0 <= j < i ==> conds[j].t != t
  {
    if conds == [] then 0
    else if conds[0].t == t then 0
    else 1 + Find(conds[1..], t)
  }

  function Lookup(conds: seq<Condition>, t: ConditionType): Option<Condition> {
    var i := Find(conds, t);
    if i < |conds| then Some(conds[i]) else None
  }

  /** The list after one SetCondition call at time now. */
  function Set(conds: seq<Condition>, u: Update, gen: int, now: int): seq<Condition> {
    var i := Find(conds, u.t);
    if i == |conds| then
      conds + [Condition(u.t, u.status, u.reason, u.message, gen, now)]
    else
      var since := if conds[i].status == u.status then conds[i].lastTransitionTime else now;
      conds[i := Condition(u.t, u.status, u.reason, u.message, gen, since)]
  }

  predicate UniqueTypes(conds: seq<Condition>) {
    forall i, j :: 0 <= i < j < |conds| ==> conds[i].t != conds[j].t
  }

  lemma FindIsFirst(conds: seq<Condition>, i: nat)
    requires i < |conds|
    requires forall j :: 0 <= j < i ==> conds[j].t != conds[i].t
    ensures Find(conds, conds[i].t) == i
  {
  }

  /** The entry of the called type keeps its place, or is the new last one. */
  lemma SetInPlace(conds: seq<Condition>, u: Update, gen: int, now: int)
    ensures var after := Set(conds, u, gen, now);
            && |conds| <= |after|
            && Find(after, u.t) == Find(conds, u.t) < |after|
            && forall j :: 0 <= j < |conds| && j != Find(conds, u.t) ==> after[j] == conds[j]
  {
    FindIsFirst(Set(conds, u, gen, now), Find(conds, u.t));
  }

  lemma SetOther(conds: seq<Condition>, u: Update, gen: int, now: int, t: ConditionType)
    requires t != u.t
    ensures Lookup(Set(conds, u, gen, now), t) == Lookup(conds, t)
  {
    var after := Set(conds, u, gen, now);
    SetInPlace(conds, u, gen, now);
    var f := Find(conds, t);
    if f < |conds| {
      FindIsFirst(after, f);
    } else {
      assert forall j :: 0 <= j < |after| ==> after[j].t != t;
      assert Find(after, t) == |after|;
    }
  }

  lemma SetUnique(conds: seq<Condition>, u: Update, gen: int, now: int)
    requires UniqueTypes(conds)
    ensures UniqueTypes(Set(conds, u, gen, now))
  {
  }

  /** A call leaves the conditions of every other type as they were, and types unique. */
  lemma SetFrame(conds: seq<Condition>, u: Update, gen: int, now: int, t: ConditionType)
    ensures var after := Set(conds, u, gen, now);
            && |conds| <= |after|
            && Find(after, u.t) == Find(conds, u.t) < |after|
            && (t != u.t ==> Lookup(after, t) == Lookup(conds, t))
            && (UniqueTypes(conds) ==> UniqueTypes(after))
  {
    SetInPlace(conds, u, gen, now);
    if t != u.t {
      SetOther(conds, u, gen, now, t);
    }
    if UniqueTypes(conds) {
      SetUnique(conds, u, gen, now);
    }
  }

  // ---- The history of a list that starts empty -----------------------------

  datatype Call = Call(update: Update, gen: int, now: int)

  function Replay(h: seq<Call>): seq<Condition> {
    if h == [] then []
    else
      var last := h[|h| - 1];
      Set(Replay(h[..|h| - 1]), last.update, last.gen, last.now)
  }

  /** Call l is the most recent one for type t. */
  ghost predicate LastCall(h: seq<Call>, t: ConditionType, l: nat) {
    && l < |h|
    && h[l].update.t == t
    && forall j :: l < j < |h| ==> h[j].update.t != t
  }

  /** Call p is the one before call i for the same type. */
  ghost predicate PreviousCall(h: seq<Call>, i: nat, p: nat)
    requires i < |h|
  {
    && p < i
    && h[p].update.t == h[i].update.t
    && forall j :: p < j < i ==> h[j].update.t != h[i].update.t
  }

  /** Call i created its type or changed the status of its type. */
  ghost predicate Transition(h: seq<Call>, i: nat)
    requires i < |h|
  {
    forall p: nat :: PreviousCall(h, i, p) ==> h[p].update.status != h[i].update.status
  }

  ghost predicate LastTransition(h: seq<Call>, t: ConditionType, s: nat) {
    && s < |h|
    && h[s].update.t == t
    && Transition(h, s)
    && forall j :: s < j < |h| && h[j].update.t == t ==> !Transition(h, j)
  }

  /** c is what the calls say about its type: last call's content, last transition's time. */
  ghost predicate Explains(h: seq<Call>, c: Condition, l: nat, s: nat) {
    && LastCall(h, c.t, l)
    && LastTransition(h, c.t, s)
    && c == Condition(c.t, h[l].update.status, h[l].update.reason, h[l].update.message, h[l].gen, h[s].now)
  }

  ghost predicate Explained(h: seq<Call>, c: Condition) {
    exists l: nat, s: nat :: Explains(h, c, l, s)
  }

  lemma TransitionOfPrefix(h: seq<Call>, n: nat, i: nat)
    requires i < n <= |h|
    ensures Transition(h[..n], i) <==> Transition(h, i)
  {
    forall p: nat ensures PreviousCall(h[..n], i, p) <==> PreviousCall(h, i, p) {
      if p < i {
        assert h[..n][p] == h[p];
        assert forall j :: p < j < i ==> h[..n][j] == h[j];
      }
    }
  }

  /** One more call for another type changes no explanation. */
  lemma ExplainsAfterOther(h: seq<Call>, c: Condition, l: nat, s: nat)
    requires h != [] && h[|h| - 1].update.t != c.t
    requires Explains(h[..|h| - 1], c, l, s)
    ensures Explains(h, c, l, s)
  {
    var n := |h| - 1;
    TransitionOfPrefix(h, n, s);
    forall j | l < j < |h| ensures h[j].update.t != c.t {
      assert j == n || h[j] == h[..n][j];
    }
    forall j | s < j < |h| && h[j].update.t == c.t ensures !Transition(h, j) {
      assert h[j] == h[..n][j];
      TransitionOfPrefix(h, n, j);
    }
  }

  /** One more call for the same type: a transition exactly when the status differs. */
  lemma ExplainsAfterSame(h: seq<Call>, c: Condition, l: nat, s: nat, after: Condition)
    requires h != []
    requires Explains(h[..|h| - 1], c, l, s)
    requires var last := h[|h| - 1];
             && last.update.t == c.t
             && after == Condition(c.t, last.update.status, last.update.reason, last.update.message, last.gen,
                                   if c.status == last.update.status then c.lastTransitionTime else last.now)
    ensures Explains(h, after, |h| - 1, if c.status == h[|h| - 1].update.status then s else |h| - 1)
  {
    var n := |h| - 1;
    assert forall j :: 0 <= j < n ==> h[..n][j] == h[j];
    assert PreviousCall(h, n, l);
    forall p: nat | PreviousCall(h, n, p) ensures p == l {
      assert !(p < l) && !(l < p);
    }
    assert Transition(h, n) <==> c.status != h[n].update.status;
    TransitionOfPrefix(h, n, s);
    forall j | s < j < n && h[j].update.t == c.t ensures !Transition(h, j) {
      assert h[..n][j].update.t == c.t;
      TransitionOfPrefix(h, n, j);
    }
  }

  lemma {:induction false} ExplainTheEntry(h: seq<Call>, t: ConditionType) returns (l: nat, s: nat)
    requires exists i :: 0 <= i < |h| && h[i].update.t == t
    ensures Lookup(Replay(h), t).Some?
    ensures Explains(h, Lookup(Replay(h), t).value, l, s)
  {
    var n := |h| - 1;
    var u := h[n].update;
    SetFrame(Replay(h[..n]), u, h[n].gen, h[n].now, t);
    if i :| 0 <= i < n && h[i].update.t == t {
      assert h[..n][i].update.t == t;
      l, s := ExplainTheEntry(h[..n], t);
      var c := Lookup(Replay(h[..n]), t).value;
      if u.t == t {
        ExplainsAfterSame(h, c, l, s, Lookup(Replay(h), t).value);
        l, s := n, if c.status == u.status then s else n;
      } else {
        ExplainsAfterOther(h, c, l, s);
      }
    } else {
      assert u.t == t;
      NoEntryWithoutCall(h[..n], t);
      assert Transition(h, n);
      l, s := n, n;
    }
  }

  lemma {:induction false} NoEntryWithoutCall(h: seq<Call>, t: ConditionType)
    requires forall i :: 0 <= i < |h| ==> h[i].update.t != t
    ensures Lookup(Replay(h), t) == None
  {
    if h != [] {
      var n := |h| - 1;
      NoEntryWithoutCall(h[..n], t);
      SetFrame(Replay(h[..n]), h[n].update, h[n].gen, h[n].now, t);
    }
  }

  lemma {:induction false} ReplayKeepsTypesUnique(h: seq<Call>)
    ensures UniqueTypes(Replay(h))
  {
    if h != [] {
      var n := |h| - 1;
      ReplayKeepsTypesUnique(h[..n]);
      SetFrame(Replay(h[..n]), h[n].update, h[n].gen, h[n].now, Available);
    }
  }

  /**
   After any calls on an empty list: one entry for each type that was set and for
   no other; its content is the last call's, and its transition time is the time
   of the last call that created the type or changed its status.
   */
  lemma ConditionHistory(h: seq<Call>)
    ensures UniqueTypes(Replay(h))
    ensures forall t :: Lookup(Replay(h), t).Some? <==> exists i :: 0 <= i < |h| && h[i].update.t == t
    ensures forall k :: 0 <= k < |Replay(h)| ==> Explained(h, Replay(h)[k])
  {
    ReplayKeepsTypesUnique(h);
    forall t ensures Lookup(Replay(h), t).Some? <==> exists i :: 0 <= i < |h| && h[i].update.t == t {
      if exists i :: 0 <= i < |h| && h[i].update.t == t {
        var l, s := ExplainTheEntry(h, t);
      } else {
        NoEntryWithoutCall(h, t);
      }
    }
    forall k | 0 <= k < |Replay(h)| ensures Explained(h, Replay(h)[k]) {
      var t := Replay(h)[k].t;
      FindIsFirst(Replay(h), k);
      assert Lookup(Replay(h), t).Some?;
      var l, s := ExplainTheEntry(h, t);
      assert Explains(h, Replay(h)[k], l, s);
    }
  }

  // ---- A whole status mutation: a list of calls under a running clock ------

  /** The k-th call reads the clock as clock(k). */
  function SetAll(conds: seq<Condition>, us: seq<Update>, gen: int, clock: nat -> int, k: nat): seq<Condition>
    decreases |us|
  {
    if us == [] then conds
    else SetAll(Set(conds, us[0], gen, clock(k)), us[1..], gen, clock, k + 1)
  }

  lemma {:induction false} SetAllAppend(conds: seq<Condition>, us: seq<Update>, u: Update, gen: int, clock: nat -> int, k: nat)
    ensures SetAll(conds, us + [u], gen, clock, k) == Set(SetAll(conds, us, gen, clock, k), u, gen, clock(k + |us|))
    decreases |us|
  {
    if us == [] {
      assert (us + [u])[1..] == [];
    } else {
      assert (us + [u])[1..] == us[1..] + [u];
      SetAllAppend(Set(conds, us[0], gen, clock(k)), us[1..], u, gen, clock, k + 1);
    }
  }

  predicate DistinctTypes(us: seq<Update>) {
    forall i, j :: 0 <= i < j < |us| ==> us[i].t != us[j].t
  }

  /** The list already says what the call would write. */
  predicate Holds(conds: seq<Condition>, u: Update, gen: int) {
    match Lookup(conds, u.t)
    case None => false
    case Some(c) => c.status == u.status && c.reason == u.reason && c.message == u.message && c.observedGeneration == gen
  }

  lemma {:induction false} SetAllFrame(conds: seq<Condition>, us: seq<Update>, gen: int, clock: nat -> int, k: nat, t: ConditionType)
    requires forall i :: 0 <= i < |us| ==> us[i].t != t
    ensures Lookup(SetAll(conds, us, gen, clock, k), t) == Lookup(conds, t)
    decreases |us|
  {
    if us != [] {
      SetFrame(conds, us[0], gen, clock(k), t);
      SetAllFrame(Set(conds, us[0], gen, clock(k)), us[1..], gen, clock, k + 1, t);
    }
  }

  lemma {:induction false} SetAllHolds(conds: seq<Condition>, us: seq<Update>, gen: int, clock: nat -> int, k: nat)
    requires DistinctTypes(us)
    ensures forall i :: 0 <= i < |us| ==> Holds(SetAll(conds, us, gen, clock, k), us[i], gen)
    decreases |us|
  {
    if us != [] {
      var next := Set(conds, us[0], gen, clock(k));
      SetFrame(conds, us[0], gen, clock(k), us[0].t);
      SetAllHolds(next, us[1..], gen, clock, k + 1);
      SetAllFrame(next, us[1..], gen, clock, k + 1, us[0].t);
      forall i | 0 <= i < |us| ensures Holds(SetAll(conds, us, gen, clock, k), us[i], gen) {
        assert i == 0 || us[i] == us[1..][i - 1];
      }
    }
  }

  lemma {:induction false} SetAllChangesNothing(conds: seq<Condition>, us: seq<Update>, gen: int, clock: nat -> int, k: nat)
    requires forall i :: 0 <= i < |us| ==> Holds(conds, us[i], gen)
    ensures SetAll(conds, us, gen, clock, k) == conds
    decreases |us|
  {
    if us != [] {
      assert Holds(conds, us[0], gen);
      assert Set(conds, us[0], gen, clock(k)) == conds;
      forall i | 0 <= i < |us[1..]| ensures Holds(conds, us[1..][i], gen) {
        assert us[1..][i] == us[i + 1];
      }
      SetAllChangesNothing(conds, us[1..], gen, clock, k + 1);
    }
  }

  /** Writing the same conditions again, however late, changes nothing. */
  lemma SetAllIsIdempotent(conds: seq<Condition>, us: seq<Update>, gen: int, clock: nat -> int, k: nat, later: nat -> int, k': nat)
    requires DistinctTypes(us)
    ensures var once := SetAll(conds, us, gen, clock, k);
            SetAll(once, us, gen, later, k') == once
  {
    SetAllHolds(conds, us, gen, clock, k);
    SetAllChangesNothing(SetAll(conds, us, gen, clock, k), us, gen, later, k');
  }

  lemma {:induction false} SetAllKeepsTypesUnique(conds: seq<Condition>, us: seq<Update>, gen: int, clock: nat -> int, k: nat)
    requires UniqueTypes(conds)
    ensures UniqueTypes(SetAll(conds, us, gen, clock, k))
    decreases |us|
  {
    if us != [] {
      SetFrame(conds, us[0], gen, clock(k), us[0].t);
      SetAllKeepsTypesUnique(Set(conds, us[0], gen, clock(k)), us[1..], gen, clock, k + 1);
    }
  }

  function Types(us: seq<Update>): set<ConditionType> {
    set u | u in us :: u.t
  }

  ghost predicate TypesWithin(conds: seq<Condition>, types: set<ConditionType>) {
    forall i :: 0 <= i < |conds| ==> conds[i].t in types
  }

  ghost predicate AllAt(conds: seq<Condition>, gen: int) {
    forall i :: 0 <= i < |conds| ==> conds[i].observedGeneration == gen
  }

  lemma {:induction false} SetAllTypes(conds: seq<Condition>, us: seq<Update>, gen: int, clock: nat -> int, k: nat, types: set<ConditionType>)
    requires TypesWithin(conds, types) && Types(us) <= types
    ensures TypesWithin(SetAll(conds, us, gen, clock, k), types)
    decreases |us|
  {
    if us != [] {
      assert us[0].t in Types(us);
      assert Types(us[1..]) <= Types(us);
      SetAllTypes(Set(conds, us[0], gen, clock(k)), us[1..], gen, clock, k + 1, types);
    }
  }

  /** Calls that cover every type in the list leave every entry at their generation. */
  lemma SetAllCoversGeneration(conds: seq<Condition>, us: seq<Update>, gen: int, clock: nat -> int, k: nat)
    requires UniqueTypes(conds) && DistinctTypes(us) && TypesWithin(conds, Types(us))
    ensures AllAt(SetAll(conds, us, gen, clock, k), gen)
  {
    var after := SetAll(conds, us, gen, clock, k);
    SetAllTypes(conds, us, gen, clock, k, Types(us));
    SetAllKeepsTypesUnique(conds, us, gen, clock, k);
    SetAllHolds(conds, us, gen, clock, k);
    forall i | 0 <= i < |after| ensures after[i].observedGeneration == gen {
      var j :| 0 <= j < |us| && us[j].t == after[i].t;
      FindIsFirst(after, i);
      assert Holds(after, us[j], gen);
    }
  }
}
