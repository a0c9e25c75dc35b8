/**
 Once the environment is still and calls succeed, the operator stops: it repairs the
 children that are missing or drifted, its own child and status writes queue the
 resource again, but only finitely often, and the run ends with nothing pending and
 the status in agreement.
 */
module Quiescence {
  import opened Wrappers
  import opened Readiness
  import opened Status
  import opened Agreement

  /** Whether the specification of a child has drifted from what is intended. */
  type Drift = Child -> bool

  predicate InPlace(c: Option<Child>, drifted: Drift) {
    c.Some? && !drifted(c.value)
  }

  /** Creation without an error: every child is in place, and those that were are untouched. */
  predicate Repairs(before: seq<Option<Child>>, after: seq<Option<Child>>, drifted: Drift) {
    && |after| == |before|
    && forall i :: 0 <= i < |before| ==> InPlace(after[i], drifted) && (InPlace(before[i], drifted) ==> after[i] == before[i])
  }

  /** Some child as the operator creates it, of the right kind and not drifted. */
  predicate Creatable(kind: Kind, made: Child, drifted: Drift) {
    ChildOf(kind, Some(made)) && !drifted(made)
  }

  /** How many children are missing or drifted. */
  function Broken(cs: seq<Option<Child>>, drifted: Drift): (n: nat)
    ensures n <= |cs|
    ensures n == 0 <==> forall i :: 0 <= i < |cs| ==> InPlace(cs[i], drifted)
  {
    if cs == [] then 0 else Broken(cs[1..], drifted) + if InPlace(cs[0], drifted) then 0 else 1
  }

  /** Operator steps that succeed, with the pod unchanged; missing and drifted children are repaired. */
  predicate Calm(s: System, step: Step, pod: Read<Pod>, drifted: Drift) {
    match step
    case Start => true
    case AssignID(_, accepted) => accepted
    case Work(errs, cs) => errs == NO_ERRORS && Repairs(s.children, cs, drifted)
    case Observe => true
    case ReadStatus(p, _, failed) => p == pod && !failed
    case PatchStatus(rejected) => !rejected
    case End => true
    case Timer => true
    case _ => false
  }

  /** Some status write is still due for what the children are now. */
  ghost predicate Stale(o: Object, cs: seq<Option<Child>>, pod: Read<Pod>)
    requires Watched(o.kind) && |cs| == Arity(o.kind)
  {
    exists clock: nat -> int :: Mutate(o, Captured(o.kind, NO_ERRORS, cs, pod), clock) != o.status
  }

  /** Steps left for the worker, with a surcharge when it may still do harm. */
  ghost function Cost(s: System, pod: Read<Pod>): nat
    requires Shape(s)
  {
    match s.worker
    case Idle => 0
    case Working(copy) => 7 + if NeedsID(copy) && !NeedsID(s.resource) then 50 else 0
    case Observing(errs, seen) =>
      6 - |seen| + if errs != NO_ERRORS || seen != s.children[..|seen|] then 50 else 0
    case Patching(errs, seen, current, ins, _) =>
      3 + if errs == NO_ERRORS && current == s.resource && ins == Captured(current.kind, NO_ERRORS, s.children, pod)
             && Stale(s.resource, s.children, pod) then 0 else 50
    case Ending(errs) => 1 + if errs != NO_ERRORS then 10 else 0
  }

  ghost function Rank(s: System, pod: Read<Pod>, drifted: Drift): nat
    requires Shape(s)
  {
    (if s.queued then 8 else 0) + (if s.delayed then 9 else 0) + (if NeedsID(s.resource) then 60 else 0)
    + (if Stale(s.resource, s.children, pod) then 20 else 0) + Cost(s, pod)
    + 100 * Broken(s.children, drifted)
  }

  const MAX_CALM_STEPS := 354

  lemma RankIsBounded(s: System, pod: Read<Pod>, drifted: Drift)
    requires Shape(s)
    ensures Rank(s, pod, drifted) <= MAX_CALM_STEPS
  {
    hide Mutate, Stale;
  }

  /** After a write made from the stored resource and the present children none is due. */
  lemma WriteSettles(o: Object, cs: seq<Option<Child>>, pod: Read<Pod>, clock: nat -> int, version: nat)
    requires Watched(o.kind) && |cs| == Arity(o.kind) && ChildrenOf(o.kind, cs)
    ensures !Stale(o.(version := version, status := Mutate(o, Captured(o.kind, NO_ERRORS, cs, pod), clock)), cs, pod)
  {
    hide Mutate;
    var ins := Captured(o.kind, NO_ERRORS, cs, pod);
    var written := o.(version := version, status := Mutate(o, ins, clock));
    forall later: nat -> int ensures Mutate(written, ins, later) == written.status {
      MutateIsIdempotent(o, ins, clock, version, later);
    }
  }

  lemma CalmStepDecreases(s: System, step: Step, pod: Read<Pod>, drifted: Drift)
    requires Shape(s) && Enabled(s, step) && Calm(s, step, pod, drifted)
    ensures Shape(Next(s, step)) && Rank(Next(s, step), pod, drifted) < Rank(s, pod, drifted)
  {
    NextKeepsShape(s, step);
    match step
    case ReadStatus(p, clock, failed) => CalmRead(s, p, clock, drifted);
    case PatchStatus(rejected) => CalmPatch(s, pod, drifted);
    case Observe => CalmObserve(s, pod, drifted);
    case Work(_, cs) => CalmWork(s, cs, pod, drifted);
    case _ => CalmOther(s, step, pod, drifted);
  }

  lemma CalmOther(s: System, step: Step, pod: Read<Pod>, drifted: Drift)
    requires Shape(s) && Enabled(s, step) && Calm(s, step, pod, drifted) && Shape(Next(s, step))
    requires step.Start? || step.AssignID? || step.End? || step.Timer?
    ensures Rank(Next(s, step), pod, drifted) < Rank(s, pod, drifted)
  {
    hide Mutate, Stale, Broken, InPlace, Repairs, Captured;
  }

  lemma CalmObserve(s: System, pod: Read<Pod>, drifted: Drift)
    requires Shape(s) && Enabled(s, Observe) && Shape(Next(s, Observe))
    ensures Rank(Next(s, Observe), pod, drifted) < Rank(s, pod, drifted)
  {
    hide Mutate, Stale, Broken, InPlace, Repairs, Captured;
    var seen := s.worker.seen;
    var next := seen + [s.children[|seen|]];
    assert seen == s.children[..|seen|] ==> next == s.children[..|next|];
  }

  /** A repair may make a status write due, and removes all that is broken. */
  lemma CalmWork(s: System, cs: seq<Option<Child>>, pod: Read<Pod>, drifted: Drift)
    requires Shape(s) && Enabled(s, Work(NO_ERRORS, cs)) && Repairs(s.children, cs, drifted) && Shape(Next(s, Work(NO_ERRORS, cs)))
    ensures Rank(Next(s, Work(NO_ERRORS, cs)), pod, drifted) < Rank(s, pod, drifted)
  {
    hide Mutate, Stale;
    assert Broken(cs, drifted) == 0;
    if Broken(s.children, drifted) == 0 {
      assert cs == s.children;
    }
  }

  lemma CalmRead(s: System, pod: Read<Pod>, clock: nat -> int, drifted: Drift)
    requires Shape(s) && Enabled(s, ReadStatus(pod, clock, false)) && Shape(Next(s, ReadStatus(pod, clock, false)))
    ensures Rank(Next(s, ReadStatus(pod, clock, false)), pod, drifted) < Rank(s, pod, drifted)
  {
    hide Mutate, Broken, InPlace;
    assert s.children[..|s.children|] == s.children;
  }

  lemma CalmPatch(s: System, pod: Read<Pod>, drifted: Drift)
    requires Shape(s) && s.worker.Patching? && Shape(Next(s, PatchStatus(false)))
    ensures Rank(Next(s, PatchStatus(false)), pod, drifted) < Rank(s, pod, drifted)
  {
    hide Mutate, Broken, InPlace;
    var w := s.worker;
    if Cost(s, pod) == 3 {
      WriteSettles(s.resource, s.children, pod, w.clock, s.resource.version + 1);
    }
  }

  predicate AllCalm(s: System, steps: seq<Step>, pod: Read<Pod>, drifted: Drift)
    requires Shape(s) && AllEnabled(s, steps)
    decreases |steps|
  {
    steps != [] ==>
      && Calm(s, steps[0], pod, drifted)
      && (NextKeepsShape(s, steps[0]); AllCalm(Next(s, steps[0]), steps[1..], pod, drifted))
  }

  lemma {:induction false} CalmRunCost(s: System, steps: seq<Step>, pod: Read<Pod>, drifted: Drift)
    requires Shape(s) && AllEnabled(s, steps) && AllCalm(s, steps, pod, drifted)
    ensures Shape(Run(s, steps))
    ensures |steps| + Rank(Run(s, steps), pod, drifted) <= Rank(s, pod, drifted)
    decreases |steps|
  {
    hide Rank, Next, Enabled, Calm;
    if steps != [] {
      CalmStepDecreases(s, steps[0], pod, drifted);
      CalmRunCost(Next(s, steps[0]), steps[1..], pod, drifted);
    }
  }

  lemma {:induction false} RunKeepsKind(s: System, steps: seq<Step>)
    requires Shape(s) && AllEnabled(s, steps)
    ensures Run(s, steps).resource.kind == s.resource.kind
    decreases |steps|
  {
    hide Mutate;
    if steps != [] {
      NextKeepsShape(s, steps[0]);
      RunKeepsKind(Next(s, steps[0]), steps[1..]);
    }
  }

  /** While anything is pending, the operator can take a calm step. */
  lemma NoDeadlock(s: System, pod: Read<Pod>, drifted: Drift, made: Child)
    requires Shape(s) && Pending(s) && Creatable(s.resource.kind, made, drifted)
    ensures exists step :: Enabled(s, step) && Calm(s, step, pod, drifted)
  {
    hide Mutate;
    var clock: nat -> int := (k: nat) => 0;
    var repaired := seq(|s.children|, i requires 0 <= i < |s.children| => if InPlace(s.children[i], drifted) then s.children[i] else Some(made));
    var step :=
      match s.worker
      case Idle => if s.queued then Start else Timer
      case Working(copy) => if NeedsID(copy) then AssignID("0", true) else Work(NO_ERRORS, repaired)
      case Observing(_, seen) => if |seen| < Arity(s.resource.kind) then Observe else ReadStatus(pod, clock, false)
      case Patching(_, _, _, _, _) => PatchStatus(false)
      case Ending(_) => End;
    assert Enabled(s, step) && Calm(s, step, pod, drifted);
  }

  /**
   From any reachable state a calm run makes at most MAX_CALM_STEPS steps, and when
   it cannot go on nothing is pending and the status agrees with the children.
   */
  lemma StatusWritesDoNotRetriggerForever(s: System, steps: seq<Step>, calm: seq<Step>, pod: Read<Pod>, drifted: Drift, made: Child)
    requires Initial(s) && AllEnabled(s, steps) && Creatable(s.resource.kind, made, drifted)
    requires Shape(Run(s, steps)) && AllEnabled(Run(s, steps), calm) && AllCalm(Run(s, steps), calm, pod, drifted)
    ensures |calm| <= MAX_CALM_STEPS
    ensures var t := Run(Run(s, steps), calm);
            (forall step :: Enabled(t, step) ==> !Calm(t, step, pod, drifted)) ==> !Pending(t) && Agrees(t.resource, t.children)
  {
    hide Mutate, Rank, Agrees;
    RunKeepsInv(s, steps);
    var mid := Run(s, steps);
    CalmRunCost(mid, calm, pod, drifted);
    RankIsBounded(mid, pod, drifted);
    RunKeepsInv(mid, calm);
    RunKeepsKind(s, steps);
    RunKeepsKind(mid, calm);
    var t := Run(mid, calm);
    if forall step :: Enabled(t, step) ==> !Calm(t, step, pod, drifted) {
      if Pending(t) {
        NoDeadlock(t, pod, drifted, made);
      }
    }
  }
}
