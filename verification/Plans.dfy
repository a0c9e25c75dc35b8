/**
 What a controller creates for one custom resource: children in a fixed order,
 with reads they depend on in between, stopping at the first failure. A plan is
 the list of these steps with the bodies intended at the time.
 */
module Plans {
  import opened Wrappers
  import opened Values
  import opened Children

  /** A read the next child depends on, or a child to create or apply. */
  datatype Item = Need(found: bool) | Ensure(child: Intended)

  function Step(api: Api, item: Item, owner: string, f: Faults, admit: Value -> Value): Outcome {
    match item
    case Need(found) => Outcome(api, if found && !f.get then None else Some(NeedFailed))
    case Ensure(i) => SSA(api, i, owner, f, admit)
  }

  /** One pass: the k-th step meets faults(k). */
  function Pass(api: Api, plan: seq<Item>, owner: string, faults: nat -> Faults, admit: Value -> Value, k: nat): Outcome
    decreases |plan|
  {
    if plan == [] then Outcome(api, None)
    else
      var r := Step(api, plan[0], owner, faults(k), admit);
      if r.error.Some? then r else Pass(r.api, plan[1..], owner, faults, admit, k + 1)
  }

  /** One step of a pass at its n-th item. */
  lemma PassUnfolds(api: Api, plan: seq<Item>, n: nat, owner: string, faults: nat -> Faults, admit: Value -> Value)
    requires n <= |plan|
    ensures n == |plan| ==> Pass(api, plan[n..], owner, faults, admit, n) == Outcome(api, None)
    ensures n < |plan| ==>
              var r := Step(api, plan[n], owner, faults(n), admit);
              Pass(api, plan[n..], owner, faults, admit, n) ==
              if r.error.Some? then r else Pass(r.api, plan[n + 1..], owner, faults, admit, n + 1)
  {
    if n < |plan| {
      assert plan[n..][0] == plan[n] && plan[n..][1..] == plan[n + 1..];
    }
  }

  predicate DistinctKeys(plan: seq<Item>) {
    forall i, j :: 0 <= i < j < |plan| && plan[i].Ensure? && plan[j].Ensure? ==> plan[i].child.key != plan[j].child.key
  }

  predicate ItemInPlace(s: Store, item: Item) {
    item.Ensure? ==> InPlace(s, item.child)
  }

  predicate AllInPlace(s: Store, plan: seq<Item>) {
    forall i :: 0 <= i < |plan| ==> ItemInPlace(s, plan[i])
  }

  /** How many children are missing or drifted. */
  function Deficit(s: Store, plan: seq<Item>): (n: nat)
    ensures n <= |plan|
  {
    if plan == [] then 0 else (if ItemInPlace(s, plan[0]) then 0 else 1) + Deficit(s, plan[1..])
  }

  function Writes(trace: seq<Event>): nat {
    if trace == [] then 0 else Writes(trace[..|trace| - 1]) + if trace[|trace| - 1].Wrote? then 1 else 0
  }

  lemma WritesAppend(trace: seq<Event>, e: Event)
    ensures Writes(trace + [e]) == Writes(trace) + if e.Wrote? then 1 else 0
  {
    assert (trace + [e])[..|trace|] == trace;
  }

  // ---- Writes and the deficit -------------------------------------------------

  /** An item of another key is as much in place after a step as before. */
  lemma StepFrame(api: Api, item: Item, owner: string, f: Faults, admit: Value -> Value, other: Item)
    requires KeepsIntended(admit)
    requires item.Ensure? && other.Ensure? ==> item.child.key != other.child.key
    ensures ItemInPlace(Step(api, item, owner, f, admit).api.store, other) == ItemInPlace(api.store, other)
  {
    hide KeepsIntended, Drift, SSA;
    if item.Ensure? {
      StepOutcome(api, item.child, owner, f, admit);
    }
  }

  lemma {:induction false} DeficitFrame(s: Store, t: Store, plan: seq<Item>)
    requires forall i :: 0 <= i < |plan| ==> ItemInPlace(s, plan[i]) == ItemInPlace(t, plan[i])
    ensures Deficit(s, plan) == Deficit(t, plan)
  {
    if plan != [] {
      DeficitFrame(s, t, plan[1..]);
    }
  }

  lemma {:induction false} DeficitZero(s: Store, plan: seq<Item>)
    ensures Deficit(s, plan) == 0 <==> AllInPlace(s, plan)
  {
    if plan != [] {
      DeficitZero(s, plan[1..]);
      assert AllInPlace(s, plan) <==> ItemInPlace(s, plan[0]) && AllInPlace(s, plan[1..]) by {
        assert forall i :: 1 <= i < |plan| ==> plan[i] == plan[1..][i - 1];
        if ItemInPlace(s, plan[0]) && AllInPlace(s, plan[1..]) {
          forall i | 0 <= i < |plan| ensures ItemInPlace(s, plan[i]) {
            assert i == 0 || plan[i] == plan[1..][i - 1];
          }
        }
        if AllInPlace(s, plan) {
          forall i | 0 <= i < |plan[1..]| ensures ItemInPlace(s, plan[1..][i]) {
            assert plan[1..][i] == plan[i + 1];
          }
        }
      }
    }
  }

  /** A step that writes repairs exactly one child; one that does not changes nothing. */
  lemma StepPaysItsWrite(api: Api, plan: seq<Item>, k: nat, owner: string, f: Faults, admit: Value -> Value)
    requires KeepsIntended(admit) && DistinctKeys(plan) && k < |plan|
    ensures var r := Step(api, plan[k], owner, f, admit);
            Writes(r.api.trace) + Deficit(r.api.store, plan) == Writes(api.trace) + Deficit(api.store, plan)
    ensures Writes(Step(api, plan[k], owner, f, admit).api.trace) >= Writes(api.trace)
  {
    hide KeepsIntended, Drift, SSA;
    var r := Step(api, plan[k], owner, f, admit);
    if plan[k].Ensure? {
      StepOutcome(api, plan[k].child, owner, f, admit);
      if r.api != api {
        StepWrote(api, plan[k].child, owner, f, admit);
        WritesAppend(api.trace, Wrote(plan[k].child.key, r.api.store[plan[k].child.key].labels));
        forall i | 0 <= i < |plan| && i != k ensures ItemInPlace(r.api.store, plan[i]) == ItemInPlace(api.store, plan[i]) {
          StepFrame(api, plan[k], owner, f, admit, plan[i]);
        }
        DeficitDropsByOne(api.store, r.api.store, plan, k);
      }
    }
  }

  lemma StepWrote(api: Api, i: Intended, owner: string, f: Faults, admit: Value -> Value)
    requires SSA(api, i, owner, f, admit).api != api
    ensures var r := SSA(api, i, owner, f, admit).api;
            i.key in r.store && r.trace == api.trace + [Wrote(i.key, r.store[i.key].labels)]
  {
  }

  lemma {:induction false} DeficitDropsByOne(s: Store, t: Store, plan: seq<Item>, k: nat)
    requires k < |plan| && !ItemInPlace(s, plan[k]) && ItemInPlace(t, plan[k])
    requires forall i :: 0 <= i < |plan| && i != k ==> ItemInPlace(s, plan[i]) == ItemInPlace(t, plan[i])
    ensures Deficit(t, plan) == Deficit(s, plan) - 1
  {
    if k == 0 {
      DeficitFrame(s, t, plan[1..]);
    } else {
      DeficitDropsByOne(s, t, plan[1..], k - 1);
    }
  }

  /** The same for a whole pass, whatever fails. */
  lemma {:induction false} PassPaysItsWrites(api: Api, plan: seq<Item>, n: nat, owner: string, faults: nat -> Faults, admit: Value -> Value)
    requires KeepsIntended(admit) && DistinctKeys(plan) && n <= |plan|
    ensures var r := Pass(api, plan[n..], owner, faults, admit, n);
            Writes(r.api.trace) + Deficit(r.api.store, plan) == Writes(api.trace) + Deficit(api.store, plan)
            && Writes(r.api.trace) >= Writes(api.trace)
    decreases |plan| - n
  {
    hide KeepsIntended, SSA, Step;
    if n < |plan| {
      assert plan[n..][0] == plan[n] && plan[n..][1..] == plan[n + 1..];
      StepPaysItsWrite(api, plan, n, owner, faults(n), admit);
      var r := Step(api, plan[n], owner, faults(n), admit);
      if r.error.None? {
        PassPaysItsWrites(r.api, plan, n + 1, owner, faults, admit);
      }
    }
  }

  // ---- Runs -----------------------------------------------------------------------

  /** Any one item with any faults, or any change made by others to the children or to what is intended. */
  datatype RunEvent = StepRuns(k: nat, faults: Faults) | Environment(store: Store, plan: seq<Item>)

  datatype Progress = Progress(api: Api, plan: seq<Item>)

  function After(r: Progress, e: RunEvent, owner: string, admit: Value -> Value): Progress {
    match e
    case StepRuns(k, faults) => if k < |r.plan| then r.(api := Step(r.api, r.plan[k], owner, faults, admit).api) else r
    case Environment(s, p) => Progress(r.api.(store := s), p)
  }

  function Run(r: Progress, es: seq<RunEvent>, owner: string, admit: Value -> Value): Progress
    decreases |es|
  {
    if es == [] then r else Run(After(r, es[0], owner, admit), es[1..], owner, admit)
  }

  function Changes(es: seq<RunEvent>): nat {
    if es == [] then 0 else (if es[0].Environment? then 1 else 0) + Changes(es[1..])
  }

  predicate PlansFit(es: seq<RunEvent>, size: nat) {
    forall i :: 0 <= i < |es| && es[i].Environment? ==> |es[i].plan| <= size && DistinctKeys(es[i].plan)
  }

  /**
   However many items run in whatever order, with changes by others between any two of
   them, and whatever calls fail: at most one write for each child at first and after
   each change.
   */
  lemma {:induction false} ChildWritesAreBounded(r: Progress, es: seq<RunEvent>, owner: string, admit: Value -> Value, size: nat)
    requires KeepsIntended(admit) && DistinctKeys(r.plan) && |r.plan| <= size && PlansFit(es, size)
    ensures Writes(Run(r, es, owner, admit).api.trace) <= Writes(r.api.trace) + Deficit(r.api.store, r.plan) + size * Changes(es)
    decreases |es|
  {
    hide KeepsIntended, Step;
    if es != [] {
      var n := After(r, es[0], owner, admit);
      if es[0].StepRuns? && es[0].k < |r.plan| {
        StepPaysItsWrite(r.api, r.plan, es[0].k, owner, es[0].faults, admit);
      }
      assert PlansFit(es[1..], size) by {
        assert forall i :: 0 <= i < |es[1..]| ==> es[1..][i] == es[i + 1];
      }
      ChildWritesAreBounded(n, es[1..], owner, admit, size);
      var c := Changes(es[1..]);
      assert size * (c + 1) == size * c + size;
    }
  }

  // ---- Convergence -------------------------------------------------------------------

  const FAULT_FREE: nat -> Faults := (k: nat) => NO_FAULTS

  predicate NeedsMet(plan: seq<Item>) {
    forall i :: 0 <= i < |plan| && plan[i].Need? ==> plan[i].found
  }

  /** No untyped child is present and drifted. */
  predicate Patchable(s: Store, plan: seq<Item>) {
    forall i :: 0 <= i < |plan| && plan[i].Ensure? ==> plan[i].child.typed || !Drifted(s, plan[i].child)
  }

  /** A fault-free pass over the rest of a plan, with everything before it in place. */
  lemma {:induction false} FaultFreePass(api: Api, plan: seq<Item>, n: nat, owner: string, admit: Value -> Value)
    requires KeepsIntended(admit) && DistinctKeys(plan) && NeedsMet(plan) && n <= |plan|
    requires forall i :: 0 <= i < n ==> ItemInPlace(api.store, plan[i])
    ensures var r := Pass(api, plan[n..], owner, FAULT_FREE, admit, n);
            && (r.error.None? <==> Patchable(api.store, plan[n..]))
            && (r.error.None? <==> AllInPlace(r.api.store, plan))
    decreases |plan| - n
  {
    hide KeepsIntended, SSA, Drift;
    if n < |plan| {
      assert plan[n..][0] == plan[n] && plan[n..][1..] == plan[n + 1..];
      var r := Step(api, plan[n], owner, FAULT_FREE(n), admit);
      if plan[n].Ensure? {
        StepOutcome(api, plan[n].child, owner, NO_FAULTS, admit);
        FaultFreeStep(api, plan[n].child, owner, admit);
      }
      PatchableTail(api.store, plan, n);
      if r.error.None? {
        forall i | 0 <= i < |plan| && i != n ensures ItemInPlace(r.api.store, plan[i]) == ItemInPlace(api.store, plan[i]) {
          StepFrame(api, plan[n], owner, FAULT_FREE(n), admit, plan[i]);
        }
        FaultFreePass(r.api, plan, n + 1, owner, admit);
        forall i | n < i < |plan| && plan[i].Ensure? ensures Drifted(r.api.store, plan[i].child) == Drifted(api.store, plan[i].child) {
          if plan[n].Ensure? {
            assert plan[i].child.key != plan[n].child.key;
          }
        }
        SamePatchable(api.store, r.api.store, plan, n + 1);
      } else {
        assert r.api == api;
        assert !ItemInPlace(api.store, plan[n]);
      }
    }
  }

  /** A pass that reports no error has left every child in place, whatever it met. */
  lemma {:induction false} SuccessMeansInPlace(api: Api, plan: seq<Item>, n: nat, owner: string, faults: nat -> Faults, admit: Value -> Value)
    requires KeepsIntended(admit) && DistinctKeys(plan) && n <= |plan|
    requires forall i :: 0 <= i < n ==> ItemInPlace(api.store, plan[i])
    ensures var r := Pass(api, plan[n..], owner, faults, admit, n);
            r.error.None? ==> AllInPlace(r.api.store, plan)
    decreases |plan| - n
  {
    hide KeepsIntended, SSA, Drift;
    if n < |plan| {
      assert plan[n..][0] == plan[n] && plan[n..][1..] == plan[n + 1..];
      var r := Step(api, plan[n], owner, faults(n), admit);
      if r.error.None? {
        if plan[n].Ensure? {
          StepOutcome(api, plan[n].child, owner, faults(n), admit);
        }
        forall i | 0 <= i < n ensures ItemInPlace(r.api.store, plan[i]) {
          StepFrame(api, plan[n], owner, faults(n), admit, plan[i]);
        }
        SuccessMeansInPlace(r.api, plan, n + 1, owner, faults, admit);
      }
    }
  }

  /** A pass that reports no error has met every need and left every child present. */
  lemma {:induction false} SuccessMeansPresent(api: Api, plan: seq<Item>, n: nat, owner: string, faults: nat -> Faults, admit: Value -> Value)
    requires n <= |plan|
    requires forall i :: 0 <= i < n && plan[i].Ensure? ==> plan[i].child.key in api.store
    ensures var r := Pass(api, plan[n..], owner, faults, admit, n);
            r.error.None? ==>
              && (forall i :: 0 <= i < |plan| && plan[i].Ensure? ==> plan[i].child.key in r.api.store)
              && (forall i :: n <= i < |plan| && plan[i].Need? ==> plan[i].found && !faults(i).get)
    decreases |plan| - n
  {
    hide Drift;
    if n < |plan| {
      assert plan[n..][0] == plan[n] && plan[n..][1..] == plan[n + 1..];
      var r := Step(api, plan[n], owner, faults(n), admit);
      if r.error.None? {
        SuccessMeansPresent(r.api, plan, n + 1, owner, faults, admit);
      }
    }
  }

  /** A step creates its child as intended, and touches no other. */
  lemma StepCreates(api: Api, i: Intended, owner: string, f: Faults, admit: Value -> Value)
    ensures var r := SSA(api, i, owner, f, admit);
            && (forall k :: k != i.key ==> (k in r.api.store <==> k in api.store) && (k in api.store ==> r.api.store[k] == api.store[k]))
            && (r.error.None? && i.key !in api.store ==>
                  i.key in r.api.store && r.api.store[i.key] == ChildObject(Some(owner), i.labels, i.annotations, admit(i.body)))
  {
  }

  /** After a pass without an error, a child that was missing is as intended: owner, labels, annotations and body. */
  lemma {:induction false} CreatedAsIntended(api: Api, plan: seq<Item>, n: nat, owner: string, faults: nat -> Faults, admit: Value -> Value, k: nat)
    requires DistinctKeys(plan) && n <= k < |plan| && plan[k].Ensure? && plan[k].child.key !in api.store
    ensures var r := Pass(api, plan[n..], owner, faults, admit, n);
            var i := plan[k].child;
            r.error.None? ==>
              i.key in r.api.store && r.api.store[i.key] == ChildObject(Some(owner), i.labels, i.annotations, admit(i.body))
    decreases |plan| - n
  {
    hide SSA;
    assert plan[n..][0] == plan[n] && plan[n..][1..] == plan[n + 1..];
    var r := Step(api, plan[n], owner, faults(n), admit);
    if plan[n].Ensure? {
      StepCreates(api, plan[n].child, owner, faults(n), admit);
    }
    if r.error.None? {
      if n < k {
        CreatedAsIntended(r.api, plan, n + 1, owner, faults, admit, k);
      } else {
        UntouchedAfter(r.api, plan, n + 1, owner, faults, admit, plan[k].child.key);
      }
    }
  }

  lemma {:induction false} UntouchedAfter(api: Api, plan: seq<Item>, n: nat, owner: string, faults: nat -> Faults, admit: Value -> Value, key: Key)
    requires n <= |plan| && key in api.store
    requires forall i :: n <= i < |plan| && plan[i].Ensure? ==> plan[i].child.key != key
    ensures var r := Pass(api, plan[n..], owner, faults, admit, n);
            key in r.api.store && r.api.store[key] == api.store[key]
    decreases |plan| - n
  {
    hide SSA;
    if n < |plan| {
      assert plan[n..][0] == plan[n] && plan[n..][1..] == plan[n + 1..];
      var r := Step(api, plan[n], owner, faults(n), admit);
      if plan[n].Ensure? {
        StepCreates(api, plan[n].child, owner, faults(n), admit);
      }
      if r.error.None? {
        UntouchedAfter(r.api, plan, n + 1, owner, faults, admit, key);
      }
    }
  }

  lemma PatchableTail(s: Store, plan: seq<Item>, n: nat)
    requires n < |plan|
    ensures Patchable(s, plan[n..]) <==>
            (plan[n].Ensure? ==> plan[n].child.typed || !Drifted(s, plan[n].child)) && Patchable(s, plan[n + 1..])
  {
    assert forall i :: 0 < i < |plan[n..]| ==> plan[n..][i] == plan[n + 1..][i - 1];
    assert plan[n..][0] == plan[n];
  }

  lemma SamePatchable(s: Store, t: Store, plan: seq<Item>, n: nat)
    requires n <= |plan|
    requires forall i :: n <= i < |plan| && plan[i].Ensure? ==> Drifted(s, plan[i].child) == Drifted(t, plan[i].child)
    ensures Patchable(s, plan[n..]) == Patchable(t, plan[n..])
  {
    assert forall i :: 0 <= i < |plan[n..]| ==> plan[n..][i] == plan[n + i];
  }

  /**
   From any store one fault-free pass brings every child in place, and the next pass
   then writes nothing - exactly when no untyped child is present and drifted.
   */
  lemma OnePassConverges(api: Api, plan: seq<Item>, owner: string, faults: nat -> Faults, admit: Value -> Value)
    requires KeepsIntended(admit) && DistinctKeys(plan) && NeedsMet(plan)
    ensures var r := Pass(api, plan, owner, FAULT_FREE, admit, 0);
            && (AllInPlace(r.api.store, plan) <==> Patchable(api.store, plan))
            && (r.error.None? <==> Patchable(api.store, plan))
            && (Patchable(api.store, plan) ==> Writes(Pass(r.api, plan, owner, faults, admit, 0).api.trace) == Writes(r.api.trace))
  {
    hide KeepsIntended, Pass;
    assert plan[0..] == plan;
    FaultFreePass(api, plan, 0, owner, admit);
    var r := Pass(api, plan, owner, FAULT_FREE, admit, 0);
    if Patchable(api.store, plan) {
      DeficitZero(r.api.store, plan);
      PassPaysItsWrites(r.api, plan, 0, owner, faults, admit);
    }
  }

  // ---- The trace -----------------------------------------------------------------------

  /** A write of one of the plan's children, with at least the labels intended for it. */
  ghost predicate WrittenFor(plan: seq<Item>, e: Event) {
    e.Wrote? && exists j :: 0 <= j < |plan| && WrittenAs(plan[j], e)
  }

  ghost predicate WrittenAs(item: Item, e: Event) {
    && e.Wrote? && item.Ensure? && e.key == item.child.key
    && forall l :: l in item.child.labels ==> l in e.labels && e.labels[l] == item.child.labels[l]
  }

  /** A pass only adds to the trace, and only writes of its own children. */
  lemma {:induction false} PassTrace(api: Api, plan: seq<Item>, n: nat, owner: string, faults: nat -> Faults, admit: Value -> Value)
    requires n <= |plan|
    ensures var r := Pass(api, plan[n..], owner, faults, admit, n);
            api.trace <= r.api.trace && forall i :: |api.trace| <= i < |r.api.trace| ==> WrittenFor(plan, r.api.trace[i])
    decreases |plan| - n
  {
    if n < |plan| {
      assert plan[n..][0] == plan[n] && plan[n..][1..] == plan[n + 1..];
      var r := Step(api, plan[n], owner, faults(n), admit);
      StepTrace(api, plan[n], owner, faults(n), admit);
      if r.error.None? {
        PassTrace(r.api, plan, n + 1, owner, faults, admit);
      }
    }
  }

  lemma StepTrace(api: Api, item: Item, owner: string, f: Faults, admit: Value -> Value)
    ensures var r := Step(api, item, owner, f, admit).api;
            r == api || (|r.trace| == |api.trace| + 1 && api.trace <= r.trace && WrittenAs(item, r.trace[|api.trace|]))
  {
  }
}
