/**
 One controller's work on the children of one resource, call by call. A pass works
 on what was intended when it began and may learn of later intentions; it reads a
 child, decides, and writes. Between any two calls others may change the children
 or what is intended, and any call may fail, also one whose answer alone is lost.
 */
module Interleaving {
  import opened Wrappers
  import opened Values
  import opened Children
  import opened Plans

  /** seen is the child that was read and not yet acted upon. */
  datatype Worker = Idle | Running(plan: seq<Item>, next: nat, seen: Option<Option<ChildObject>>)

  datatype State = State(api: Api, plan: seq<Item>, worker: Worker)

  datatype Answer = Accepted | Refused | Lost

  datatype Occurrence =
    | Begin
    | Learn(k: nat)
    | Meet(ok: bool)
    | Look(ownerFails: bool, getFails: bool)
    | Write(answer: Answer)
    | ChildrenChange(store: Store)
    | IntentChanges(plan: seq<Item>)

  function LookUp(s: Store, key: Key): Option<ChildObject> {
    if key in s then Some(s[key]) else None
  }

  /** The write decided on what was seen, or None when there is none to make or the server cannot make it. */
  function Landed(api: Api, i: Intended, seen: Option<ChildObject>, owner: string, admit: Value -> Value): Option<Api> {
    match seen
    case None => if i.key in api.store then None else Some(Stored(api, i, Created(i, owner, admit)))
    case Some(current) =>
      if !Drift(i.body, current.body) || !i.typed then None
      else if i.key in api.store then Some(Stored(api, i, Applied(i, owner, api.store[i.key], admit)))
      else Some(Stored(api, i, Created(i, owner, admit)))
  }

  /** What was seen asks for no write. */
  predicate Nothing(i: Intended, seen: Option<ChildObject>) {
    seen.Some? && !Drift(i.body, seen.value.body)
  }

  /** The item a running pass is at. */
  predicate At(w: Worker, child: bool) {
    w.Running? && w.next < |w.plan| && (w.plan[w.next].Ensure? <==> child)
  }

  function Next(s: State, e: Occurrence, owner: string, admit: Value -> Value): State {
    match e
    case Begin => s.(worker := Running(s.plan, 0, None))
    case Learn(k) =>
      if s.worker.Running? && k < |s.worker.plan| && k < |s.plan| && (k == s.worker.next ==> s.worker.seen.None?)
      then s.(worker := s.worker.(plan := s.worker.plan[k := s.plan[k]])) else s
    case Meet(ok) =>
      if !At(s.worker, false) then s
      else s.(worker := if ok && s.worker.plan[s.worker.next].found then Running(s.worker.plan, s.worker.next + 1, None) else Idle)
    case Look(ownerFails, getFails) =>
      if !At(s.worker, true) then s
      else s.(worker := if ownerFails || getFails then Idle
                        else s.worker.(seen := Some(LookUp(s.api.store, s.worker.plan[s.worker.next].child.key))))
    case Write(answer) =>
      if !At(s.worker, true) || s.worker.seen.None? then s
      else Written(s, answer, owner, admit)
    case ChildrenChange(store) => s.(api := s.api.(store := store))
    case IntentChanges(plan) => s.(plan := plan)
  }

  function Written(s: State, answer: Answer, owner: string, admit: Value -> Value): State
    requires At(s.worker, true) && s.worker.seen.Some?
  {
    var i, seen := s.worker.plan[s.worker.next].child, s.worker.seen.value;
    var onwards := Running(s.worker.plan, s.worker.next + 1, None);
    var landed := Landed(s.api, i, seen, owner, admit);
    if Nothing(i, seen) then s.(worker := onwards)
    else if answer == Refused || landed.None? then s.(worker := Idle)
    else s.(api := landed.value, worker := if answer == Accepted then onwards else Idle)
  }

  /**
   A write whose answer is an error, or is lost, ends the pass; only where the write itself did not
   land are the children as before. One that is accepted, or not needed, goes on to the next item.
   */
  lemma WriteEndsOrGoesOn(s: State, answer: Answer, owner: string, admit: Value -> Value)
    requires At(s.worker, true) && s.worker.seen.Some?
    ensures var n := Next(s, Write(answer), owner, admit);
            var i, seen := s.worker.plan[s.worker.next].child, s.worker.seen.value;
            var landed := Landed(s.api, i, seen, owner, admit);
            && (n.worker == Running(s.worker.plan, s.worker.next + 1, None) <==> Nothing(i, seen) || (answer == Accepted && landed.Some?))
            && (n.worker == Idle <==> !Nothing(i, seen) && (answer != Accepted || landed.None?))
            && (n.api == if Nothing(i, seen) || answer == Refused || landed.None? then s.api else landed.value)
            && n.plan == s.plan
  {
    hide Landed, Nothing;
  }

  function Run(s: State, es: seq<Occurrence>, owner: string, admit: Value -> Value): State
    decreases |es|
  {
    if es == [] then s else Run(Next(s, es[0], owner, admit), es[1..], owner, admit)
  }

  // ---- Left alone, this is a pass -----------------------------------------------

  lemma UndisturbedIsSSA(s: State, f: Faults, owner: string, admit: Value -> Value)
    requires At(s.worker, true)
    ensures var i := s.worker.plan[s.worker.next].child;
            var looked := Next(s, Look(f.owner, f.get), owner, admit);
            var t := Next(looked, Write(if f.write then Refused else Accepted), owner, admit);
            var r := SSA(s.api, i, owner, f, admit);
            && t.api == r.api && t.plan == s.plan
            && t.worker == (if r.error.Some? then Idle else Running(s.worker.plan, s.worker.next + 1, None))
  {
    hide Drift;
  }

  function PassEvents(plan: seq<Item>, faults: nat -> Faults, k: nat): seq<Occurrence>
    decreases |plan|
  {
    if plan == [] then []
    else
      (match plan[0]
       case Need(_) => [Meet(!faults(k).get)]
       case Ensure(_) => [Look(faults(k).owner, faults(k).get), Write(if faults(k).write then Refused else Accepted)])
      + PassEvents(plan[1..], faults, k + 1)
  }

  lemma {:induction false} RunAppend(s: State, es: seq<Occurrence>, fs: seq<Occurrence>, owner: string, admit: Value -> Value)
    ensures Run(s, es + fs, owner, admit) == Run(Run(s, es, owner, admit), fs, owner, admit)
    decreases |es|
  {
    if es == [] {
      assert es + fs == fs;
    } else {
      assert (es + fs)[0] == es[0] && (es + fs)[1..] == es[1..] + fs;
      RunAppend(Next(s, es[0], owner, admit), es[1..], fs, owner, admit);
    }
  }

  /** After its first failure a pass does nothing more. */
  lemma {:induction false} IdleStays(s: State, plan: seq<Item>, faults: nat -> Faults, k: nat, owner: string, admit: Value -> Value)
    requires s.worker == Idle
    ensures Run(s, PassEvents(plan, faults, k), owner, admit) == s
    decreases |plan|
  {
    if plan != [] {
      var first := if plan[0].Need? then [Meet(!faults(k).get)]
                   else [Look(faults(k).owner, faults(k).get), Write(if faults(k).write then Refused else Accepted)];
      RunAppend(s, first, PassEvents(plan[1..], faults, k + 1), owner, admit);
      OneStep(s, first, owner, admit);
      IdleStays(s, plan[1..], faults, k + 1, owner, admit);
    }
  }

  lemma OneStep(s: State, es: seq<Occurrence>, owner: string, admit: Value -> Value)
    ensures |es| == 1 ==> Run(s, es, owner, admit) == Next(s, es[0], owner, admit)
    ensures |es| == 2 ==> Run(s, es, owner, admit) == Next(Next(s, es[0], owner, admit), es[1], owner, admit)
  {
    hide Next;
    if |es| == 1 {
      assert es[1..] == [];
      assert Run(Next(s, es[0], owner, admit), [], owner, admit) == Next(s, es[0], owner, admit);
    }
    if |es| == 2 {
      var n := Next(s, es[0], owner, admit);
      assert es[1..] == [es[1]] && es[1..][1..] == [];
      assert Run(Next(n, es[1], owner, admit), [], owner, admit) == Next(n, es[1], owner, admit);
    }
  }

  /** A pass that nobody disturbs is the pass of the plan. */
  lemma {:induction false} PassIsARun(api: Api, plan: seq<Item>, n: nat, faults: nat -> Faults, owner: string, admit: Value -> Value)
    requires n <= |plan|
    ensures var t := Run(State(api, plan, Running(plan, n, None)), PassEvents(plan[n..], faults, n), owner, admit);
            var r := Pass(api, plan[n..], owner, faults, admit, n);
            && t.api == r.api
            && t.worker == (if r.error.Some? then Idle else Running(plan, |plan|, None))
    decreases |plan| - n
  {
    hide Next, SSA;
    var s := State(api, plan, Running(plan, n, None));
    if n < |plan| {
      assert plan[n..][0] == plan[n] && plan[n..][1..] == plan[n + 1..];
      var f := faults(n);
      var first := if plan[n].Need? then [Meet(!f.get)] else [Look(f.owner, f.get), Write(if f.write then Refused else Accepted)];
      var rest := PassEvents(plan[n + 1..], faults, n + 1);
      RunAppend(s, first, rest, owner, admit);
      OneStep(s, first, owner, admit);
      var r := Step(api, plan[n], owner, f, admit);
      var t := Run(s, first, owner, admit);
      assert t == State(r.api, plan, if r.error.Some? then Idle else Running(plan, n + 1, None)) by {
        if plan[n].Need? {
          assert t == Next(s, Meet(!f.get), owner, admit);
          MeetIsAStep(s, f, owner, admit);
        } else {
          UndisturbedIsSSA(s, f, owner, admit);
        }
      }
      if r.error.Some? {
        IdleStays(t, plan[n + 1..], faults, n + 1, owner, admit);
      } else {
        PassIsARun(r.api, plan, n + 1, faults, owner, admit);
      }
    }
  }

  lemma MeetIsAStep(s: State, f: Faults, owner: string, admit: Value -> Value)
    requires At(s.worker, false)
    ensures var r := Step(s.api, s.worker.plan[s.worker.next], owner, f, admit);
            Next(s, Meet(!f.get), owner, admit) ==
            s.(api := r.api, worker := if r.error.Some? then Idle else Running(s.worker.plan, s.worker.next + 1, None))
  {
  }

  // ---- Finitely many writes --------------------------------------------------------

  /** What is left of the pass is what is intended now. */
  predicate UpToDate(w: Worker, plan: seq<Item>)
    requires w.Running?
  {
    |w.plan| == |plan| && forall k :: w.next <= k < |plan| ==> w.plan[k] == plan[k]
  }

  /** What was read of the child is not there any more. */
  predicate OldRead(s: State) {
    At(s.worker, true) && s.worker.seen.Some? && s.worker.seen.value != LookUp(s.api.store, s.worker.plan[s.worker.next].child.key)
  }

  /**
   Writes that a pass may still waste: one on an old read, and when its intentions are
   old, one for every item it has left, each of which may have to be undone.
   */
  function Debt(s: State): nat {
    if s.worker.Idle? || s.worker.next > |s.worker.plan| then 0
    else if UpToDate(s.worker, s.plan) then (if OldRead(s) then 1 else 0)
    else 2 * (|s.worker.plan| - s.worker.next)
  }

  function Potential(s: State): nat {
    Deficit(s.api.store, s.plan) + Debt(s)
  }

  predicate Bounded(s: State, size: nat) {
    && DistinctKeys(s.plan) && |s.plan| <= size
    && (s.worker.Running? ==> s.worker.next <= |s.worker.plan| <= size && (s.worker.seen.Some? ==> At(s.worker, true)))
  }

  predicate EventFits(e: Occurrence, size: nat) {
    e.IntentChanges? ==> DistinctKeys(e.plan) && |e.plan| <= size
  }

  /** What an event done by others may cost: each child repaired once, and what a pass then wastes. */
  function Price(e: Occurrence, size: nat): nat {
    match e
    case ChildrenChange(_) => size + 1
    case IntentChanges(_) => 3 * size
    case _ => 0
  }

  /** A write that lands puts its own child in place and touches no other, however old the read. */
  lemma LandedOutcome(api: Api, i: Intended, seen: Option<ChildObject>, owner: string, admit: Value -> Value)
    requires KeepsIntended(admit) && Landed(api, i, seen, owner, admit).Some?
    ensures var r := Landed(api, i, seen, owner, admit).value;
            && InPlace(r.store, i)
            && r.store.Keys == api.store.Keys + {i.key}
            && (forall k :: k in api.store && k != i.key ==> r.store[k] == api.store[k])
            && r.trace == api.trace + [Children.Event.Wrote(i.key, r.store[i.key].labels)]
  {
    DerivativeOfItself(i.body);
    if i.key in api.store {
      ApplyRemovesDrift(i.body, api.store[i.key].body);
    }
  }

  /** A change of one child changes the deficit by at most one. */
  lemma DeficitOfOneKey(s: Store, t: Store, plan: seq<Item>, key: Key)
    requires DistinctKeys(plan)
    requires forall k :: k != key ==> LookUp(s, k) == LookUp(t, k)
    ensures Deficit(t, plan) <= Deficit(s, plan) + 1
  {
    forall i | 0 <= i < |plan| && (plan[i].Ensure? ==> plan[i].child.key != key) ensures ItemInPlace(s, plan[i]) == ItemInPlace(t, plan[i]) {
      if plan[i].Ensure? {
        assert LookUp(s, plan[i].child.key) == LookUp(t, plan[i].child.key);
      }
    }
    if j :| 0 <= j < |plan| && plan[j].Ensure? && plan[j].child.key == key && ItemInPlace(s, plan[j]) != ItemInPlace(t, plan[j]) {
      if ItemInPlace(t, plan[j]) {
        DeficitDropsByOne(s, t, plan, j);
      } else {
        DeficitDropsByOne(t, s, plan, j);
      }
    } else {
      DeficitFrame(s, t, plan);
    }
  }

  /** Repairing one of the plan's children lowers the deficit, unless it was in place. */
  lemma DeficitOfARepair(s: Store, t: Store, plan: seq<Item>, n: nat)
    requires DistinctKeys(plan) && n < |plan| && plan[n].Ensure? && InPlace(t, plan[n].child)
    requires forall k :: k != plan[n].child.key ==> LookUp(s, k) == LookUp(t, k)
    ensures Deficit(t, plan) == Deficit(s, plan) - if InPlace(s, plan[n].child) then 0 else 1
  {
    forall i | 0 <= i < |plan| && i != n ensures ItemInPlace(s, plan[i]) == ItemInPlace(t, plan[i]) {
      if plan[i].Ensure? {
        assert plan[i].child.key != plan[n].child.key;
        assert LookUp(s, plan[i].child.key) == LookUp(t, plan[i].child.key);
      }
    }
    if InPlace(s, plan[n].child) {
      DeficitFrame(s, t, plan);
    } else {
      DeficitDropsByOne(s, t, plan, n);
    }
  }

  /** No event makes more writes than it pays for. */
  lemma EventPays(s: State, e: Occurrence, owner: string, admit: Value -> Value, size: nat)
    requires KeepsIntended(admit) && Bounded(s, size) && EventFits(e, size)
    ensures var n := Next(s, e, owner, admit);
            && Bounded(n, size)
            && Writes(n.api.trace) + Potential(n) <= Writes(s.api.trace) + Potential(s) + Price(e, size)
  {
    hide KeepsIntended, Drift, Deficit, Writes;
    match e
    case Write(answer) =>
      if At(s.worker, true) && s.worker.seen.Some? {
        WritePays(s, answer, owner, admit, size);
      }
    case ChildrenChange(store) =>
      assert Deficit(store, s.plan) <= size;
    case IntentChanges(plan) =>
      assert Deficit(s.api.store, plan) <= size;
    case _ =>
  }

  lemma WritePays(s: State, answer: Answer, owner: string, admit: Value -> Value, size: nat)
    requires KeepsIntended(admit) && Bounded(s, size) && At(s.worker, true) && s.worker.seen.Some?
    ensures var n := Written(s, answer, owner, admit);
            && Bounded(n, size)
            && Writes(n.api.trace) + Potential(n) <= Writes(s.api.trace) + Potential(s)
  {
    hide KeepsIntended, Drift, Deficit, Writes, Landed;
    var n := Written(s, answer, owner, admit);
    var w := s.worker;
    var i := w.plan[w.next].child;
    var landed := Landed(s.api, i, w.seen.value, owner, admit);
    if !Nothing(i, w.seen.value) && answer != Refused && landed.Some? {
      LandedOutcome(s.api, i, w.seen.value, owner, admit);
      WritesAppend(s.api.trace, Children.Event.Wrote(i.key, n.api.store[i.key].labels));
      assert Writes(n.api.trace) == Writes(s.api.trace) + 1;
      if UpToDate(w, s.plan) {
        assert s.plan[w.next].child == i;
        DeficitOfARepair(s.api.store, n.api.store, s.plan, w.next);
        if !OldRead(s) {
          NeededWrite(s.api.store, i, w.seen.value);
        }
      } else {
        DeficitOfOneKey(s.api.store, n.api.store, s.plan, i.key);
      }
    }
  }

  /** On a fresh read, what asks for a write is not in place. */
  lemma NeededWrite(s: Store, i: Intended, seen: Option<ChildObject>)
    requires seen == LookUp(s, i.key) && !Nothing(i, seen)
    ensures !InPlace(s, i)
  {
    hide Drift;
  }

  function Prices(es: seq<Occurrence>, size: nat): nat {
    if es == [] then 0 else Price(es[0], size) + Prices(es[1..], size)
  }

  /**
   Whatever is interleaved between the reads and writes of however many passes, and
   whatever fails: the operator's child writes are bounded by the children out of place
   at first and by the changes that others make.
   */
  lemma {:induction false} InterleavedWritesAreBounded(s: State, es: seq<Occurrence>, owner: string, admit: Value -> Value, size: nat)
    requires KeepsIntended(admit) && Bounded(s, size) && forall i :: 0 <= i < |es| ==> EventFits(es[i], size)
    ensures Writes(Run(s, es, owner, admit).api.trace) <= Writes(s.api.trace) + Potential(s) + Prices(es, size)
    decreases |es|
  {
    hide KeepsIntended, Next, Potential, Price, Writes, Bounded;
    if es != [] {
      EventPays(s, es[0], owner, admit, size);
      InterleavedWritesAreBounded(Next(s, es[0], owner, admit), es[1..], owner, admit, size);
    }
  }

  function ChildrenChanges(es: seq<Occurrence>): nat {
    if es == [] then 0 else (if es[0].ChildrenChange? then 1 else 0) + ChildrenChanges(es[1..])
  }

  function IntentsChange(es: seq<Occurrence>): nat {
    if es == [] then 0 else (if es[0].IntentChanges? then 1 else 0) + IntentsChange(es[1..])
  }

  lemma {:induction false} PricesCount(es: seq<Occurrence>, size: nat)
    ensures Prices(es, size) == (size + 1) * ChildrenChanges(es) + 3 * size * IntentsChange(es)
  {
    if es != [] {
      PricesCount(es[1..], size);
      var c, p := ChildrenChanges(es[1..]), IntentsChange(es[1..]);
      assert (size + 1) * (c + 1) == (size + 1) * c + size + 1;
      assert 3 * size * (p + 1) == 3 * size * p + 3 * size;
    }
  }

  /** From rest: one write for each child, one more for each change of children, two more for each change of intent. */
  lemma FinitelyManyWrites(s: State, es: seq<Occurrence>, owner: string, admit: Value -> Value, size: nat)
    requires KeepsIntended(admit) && s.worker.Idle? && DistinctKeys(s.plan) && |s.plan| <= size
    requires forall i :: 0 <= i < |es| ==> EventFits(es[i], size)
    ensures Writes(Run(s, es, owner, admit).api.trace) <=
            Writes(s.api.trace) + Deficit(s.api.store, s.plan) + (size + 1) * ChildrenChanges(es) + 3 * size * IntentsChange(es)
  {
    hide KeepsIntended, DistinctKeys, Run, Writes, Deficit;
    InterleavedWritesAreBounded(s, es, owner, admit, size);
    PricesCount(es, size);
  }

  // ---- Creation order ------------------------------------------------------------------

  /** The children present are a prefix of the plan. */
  predicate IsPrefix(s: Store, plan: seq<Item>) {
    forall i, j :: 0 <= i < j < |plan| && plan[i].Ensure? && plan[j].Ensure? && plan[j].child.key in s ==> plan[i].child.key in s
  }

  predicate SameKeys(p: seq<Item>, q: seq<Item>) {
    && |p| == |q|
    && forall i :: 0 <= i < |p| ==> (p[i].Ensure? <==> q[i].Ensure?) && (p[i].Ensure? ==> p[i].child.key == q[i].child.key)
  }

  /** Others edit children but neither create nor delete any; what is intended changes, the names do not. */
  predicate Edits(s: State, e: Occurrence, names: seq<Item>) {
    match e
    case ChildrenChange(store) => store.Keys == s.api.store.Keys
    case IntentChanges(plan) => SameKeys(plan, names)
    case _ => true
  }

  predicate OnlyEdits(s: State, es: seq<Occurrence>, owner: string, admit: Value -> Value, names: seq<Item>)
    decreases |es|
  {
    es != [] ==> Edits(s, es[0], names) && OnlyEdits(Next(s, es[0], owner, admit), es[1..], owner, admit, names)
  }

  /** Everything before the item the pass is at exists, and so does what it read. */
  ghost predicate InOrder(s: State, names: seq<Item>) {
    && IsPrefix(s.api.store, names) && SameKeys(s.plan, names)
    && (s.worker.Running? ==>
          && SameKeys(s.worker.plan, names)
          && s.worker.next <= |names|
          && (forall k :: 0 <= k < s.worker.next && names[k].Ensure? ==> names[k].child.key in s.api.store)
          && (s.worker.seen.Some? ==>
                At(s.worker, true) && (s.worker.seen.value.Some? ==> names[s.worker.next].child.key in s.api.store)))
  }

  lemma NextKeepsOrder(s: State, e: Occurrence, owner: string, admit: Value -> Value, names: seq<Item>)
    requires InOrder(s, names) && DistinctKeys(names) && Edits(s, e, names)
    ensures InOrder(Next(s, e, owner, admit), names)
  {
    hide Drift;
    if e.Write? && At(s.worker, true) && s.worker.seen.Some? {
      var n := Next(s, e, owner, admit);
      var i := s.worker.plan[s.worker.next].child;
      assert i.key == names[s.worker.next].child.key;
      assert n.api.store.Keys == s.api.store.Keys || n.api.store.Keys == s.api.store.Keys + {i.key};
    }
  }

  /**
   Whatever fails, whatever is edited or intended anew between any two calls, and
   wherever a pass is cut off: what exists is a prefix of the creation order.
   */
  lemma {:induction false} PrefixIsKept(s: State, es: seq<Occurrence>, owner: string, admit: Value -> Value, names: seq<Item>)
    requires InOrder(s, names) && DistinctKeys(names) && OnlyEdits(s, es, owner, admit, names)
    ensures IsPrefix(Run(s, es, owner, admit).api.store, names)
    decreases |es|
  {
    hide Next, Edits;
    if es != [] {
      NextKeepsOrder(s, es[0], owner, admit, names);
      PrefixIsKept(Next(s, es[0], owner, admit), es[1..], owner, admit, names);
    }
  }
}
