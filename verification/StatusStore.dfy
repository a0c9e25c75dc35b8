/**
 The API server's view of the custom resources, and any number of status
 writers on it. A writer reads an object, mutates a copy, compares, and sends a
 merge patch that carries the version it read; between its two calls any other
 step may happen.
 */
module StatusStore {
  import opened Wrappers
  import opened Conditions
  import opened Status

  type Key = string

  // ---- Merge patches on a status (section 2 of RFC 7396) ---------------------

  /** The members that differ; a list is replaced as a whole. */
  datatype MergePatch = MergePatch(observedGeneration: Option<int>, conditions: Option<seq<Condition>>)

  function Diff(before: Status, after: Status): MergePatch {
    MergePatch(
      if before.observedGeneration == after.observedGeneration then None else Some(after.observedGeneration),
      if before.conditions == after.conditions then None else Some(after.conditions))
  }

  function Merge(p: MergePatch, s: Status): Status {
    Status(
      if p.observedGeneration.Some? then p.observedGeneration.value else s.observedGeneration,
      if p.conditions.Some? then p.conditions.value else s.conditions)
  }

  // ---- The machine -----------------------------------------------------------

  /** A PatchStatus call between its Get and its Patch. */
  datatype Writing = Writing(key: Key, current: Object, ins: Inputs, clock: nat -> int)

  datatype World = World(objects: map<Key, Object>, revision: nat, writers: map<nat, Writing>)

  datatype Step =
    | Read(w: nat, key: Key, ins: Inputs, clock: nat -> int)
    | Patch(w: nat, rejected: bool)
    | Create(key: Key, kind: Kind, id: string)
    | EditSpec(key: Key, id: string)
    | EditMeta(key: Key)
    | Delete(key: Key)

  const INIT := World(map[], 0, map[])

  /** The server stores o under the next resource version. */
  function Put(s: World, key: Key, o: Object): World {
    s.(objects := s.objects[key := o.(version := s.revision + 1)], revision := s.revision + 1)
  }

  /** The optimistic lock: the stored version is the one the patch was made from. */
  predicate Accepts(s: World, w: nat, rejected: bool) {
    && w in s.writers
    && !rejected
    && s.writers[w].key in s.objects
    && s.objects[s.writers[w].key].version == s.writers[w].current.version
  }

  function Updated(x: Writing): Status {
    Mutate(x.current, x.ins, x.clock)
  }

  function Next(s: World, step: Step): World {
    match step
    case Read(w, key, ins, clock) =>
      if key !in s.objects || !Fits(s.objects[key].kind, ins) || w in s.writers then s
      else if Mutate(s.objects[key], ins, clock) == s.objects[key].status then s
      else s.(writers := s.writers[w := Writing(key, s.objects[key], ins, clock)])
    case Patch(w, rejected) =>
      var rest := s.(writers := s.writers - {w});
      if !Accepts(s, w, rejected) then rest
      else
        var x := s.writers[w];
        var stored := s.objects[x.key];
        Put(rest, x.key, stored.(status := Merge(Diff(x.current.status, Updated(x)), stored.status)))
    case Create(key, kind, id) =>
      if key in s.objects then s else Put(s, key, Object(kind, 0, 1, id, Status(0, [])))
    case EditSpec(key, id) =>
      if key !in s.objects then s
      else Put(s, key, s.objects[key].(generation := s.objects[key].generation + 1, id := id))
    case EditMeta(key) =>
      if key !in s.objects then s else Put(s, key, s.objects[key])
    case Delete(key) =>
      s.(objects := s.objects - {key}, revision := s.revision + 1)
  }

  function Run(s: World, steps: seq<Step>): World
    decreases |steps|
  {
    if steps == [] then s else Run(Next(s, steps[0]), steps[1..])
  }

  // ---- The invariant ---------------------------------------------------------

  ghost predicate StatusOk(o: Object) {
    && o.status.observedGeneration <= o.generation
    && UniqueTypes(o.status.conditions)
    && TypesWithin(o.status.conditions, KindTypes(o.kind))
    && AllAt(o.status.conditions, o.status.observedGeneration)
    && (o.status != Status(0, []) ==> Coherent(o.kind, o.status.conditions) && ReasonsCoherent(o.kind, o.status.conditions))
  }

  /** The writer's copy is an older version, or exactly what is stored. */
  ghost predicate SnapshotOk(s: World, x: Writing) {
    && x.current.version <= s.revision
    && Fits(x.current.kind, x.ins)
    && (x.key in s.objects && s.objects[x.key].version == x.current.version ==> s.objects[x.key] == x.current)
  }

  ghost predicate Inv(s: World) {
    && (forall k :: k in s.objects ==> s.objects[k].version <= s.revision && StatusOk(s.objects[k]))
    && (forall w :: w in s.writers ==> SnapshotOk(s, s.writers[w]))
  }

  lemma MutateIsOk(o: Object, ins: Inputs, clock: nat -> int)
    requires Fits(o.kind, ins) && StatusOk(o)
    ensures StatusOk(o.(status := Mutate(o, ins, clock)))
  {
    var us := Updates(ins, o.id);
    UpdatesCoverTheKind(o.kind, ins, o.id);
    SetAllKeepsTypesUnique(o.status.conditions, us, o.generation, clock, 0);
    SetAllTypes(o.status.conditions, us, o.generation, clock, 0, KindTypes(o.kind));
    SetAllCoversGeneration(o.status.conditions, us, o.generation, clock, 0);
    MutateIsCoherent(o, ins, clock);
  }

  lemma NextKeepsInv(s: World, step: Step)
    requires Inv(s)
    ensures Inv(Next(s, step))
  {
    hide Mutate, Coherent, ReasonsCoherent;
    var n := Next(s, step);
    if step.Patch? && Accepts(s, step.w, step.rejected) {
      var x := s.writers[step.w];
      MutateIsOk(x.current, x.ins, x.clock);
      assert SnapshotOk(s, x);
      assert n.objects[x.key].status == Updated(x);
      assert StatusOk(n.objects[x.key]);
    }
    forall w | w in n.writers ensures SnapshotOk(n, n.writers[w]) {
      if w in s.writers {
        assert SnapshotOk(s, s.writers[w]);
      }
    }
  }

  lemma {:induction false} RunKeepsInv(s: World, steps: seq<Step>)
    requires Inv(s)
    ensures Inv(Run(s, steps))
    decreases |steps|
  {
    if steps != [] {
      NextKeepsInv(s, steps[0]);
      RunKeepsInv(Next(s, steps[0]), steps[1..]);
    }
  }

  // ---- No lost updates -------------------------------------------------------

  /**
   In every reachable state an accepted patch stores the mutation of exactly the
   object it replaces, and touches no other object; a patch that is not accepted
   changes no object.
   */
  lemma NoLostUpdate(steps: seq<Step>, w: nat, rejected: bool)
    ensures var s := Run(INIT, steps);
            var after := Next(s, Patch(w, rejected));
            if Accepts(s, w, rejected) then
              var x := s.writers[w];
              var replaced := s.objects[x.key];
              after.objects == s.objects[x.key := replaced.(version := s.revision + 1, status := Mutate(replaced, x.ins, x.clock))]
            else
              after.objects == s.objects && after.revision == s.revision
  {
    hide Mutate, Coherent, ReasonsCoherent;
    RunKeepsInv(INIT, steps);
    var s := Run(INIT, steps);
    if Accepts(s, w, rejected) {
      assert SnapshotOk(s, s.writers[w]);
    }
  }

  /** One accepted mutation, with what it found besides the status. */
  datatype Commit = Commit(generation: nat, id: string, ins: Inputs, clock: nat -> int)

  /** The mutation of key that this step commits, if any. */
  function Committed(s: World, step: Step, key: Key): Option<Commit> {
    if step.Patch? && Accepts(s, step.w, step.rejected) && s.writers[step.w].key == key then
      var x := s.writers[step.w];
      Some(Commit(s.objects[key].generation, s.objects[key].id, x.ins, x.clock))
    else None
  }

  function Commits(s: World, steps: seq<Step>, key: Key): seq<Commit>
    decreases |steps|
  {
    if steps == [] then []
    else
      var later := Commits(Next(s, steps[0]), steps[1..], key);
      match Committed(s, steps[0], key)
      case Some(c) => [c] + later
      case None => later
  }

  function After(status: Status, c: Commit): Status {
    Status(c.generation, SetAll(status.conditions, Updates(c.ins, c.id), c.generation, c.clock, 0))
  }

  /** The commits as if they had run one after the other, each alone. */
  function Serial(status: Status, commits: seq<Commit>): Status
    decreases |commits|
  {
    if commits == [] then status else Serial(After(status, commits[0]), commits[1..])
  }

  predicate Keeps(steps: seq<Step>, key: Key) {
    forall i :: 0 <= i < |steps| ==> steps[i] != Delete(key)
  }

  /** A writer that nobody disturbs stores the mutation of what it read, under the next version and nowhere else. */
  lemma UndisturbedWriteLands(s: World, w: nat, key: Key, ins: Inputs, clock: nat -> int)
    requires w !in s.writers && key in s.objects && Fits(s.objects[key].kind, ins)
    ensures var o := s.objects[key];
            Next(Next(s, Read(w, key, ins, clock)), Patch(w, false)).objects ==
            if Mutate(o, ins, clock) == o.status then s.objects
            else s.objects[key := o.(version := s.revision + 1, status := Mutate(o, ins, clock))]
  {
    hide Mutate;
  }

  lemma MutateIsAfter(o: Object, ins: Inputs, clock: nat -> int)
    ensures Mutate(o, ins, clock) == After(o.status, Commit(o.generation, o.id, ins, clock))
  {
  }

  lemma StatusAfterStep(s: World, step: Step, key: Key)
    requires Inv(s) && key in s.objects && step != Delete(key)
    ensures key in Next(s, step).objects
    ensures Next(s, step).objects[key].status ==
            match Committed(s, step, key)
            case Some(c) => After(s.objects[key].status, c)
            case None => s.objects[key].status
  {
    hide Mutate, Coherent, ReasonsCoherent, After;
    if Committed(s, step, key).Some? {
      var x := s.writers[step.w];
      assert SnapshotOk(s, x);
      MutateIsAfter(s.objects[key], x.ins, x.clock);
    }
  }

  /** However the writers interleave, the status is that of a serial execution of the accepted mutations. */
  lemma {:induction false} StatusIsSerializable(s: World, steps: seq<Step>, key: Key)
    requires Inv(s) && key in s.objects && Keeps(steps, key)
    ensures key in Run(s, steps).objects
    ensures Run(s, steps).objects[key].status == Serial(s.objects[key].status, Commits(s, steps, key))
    decreases |steps|
  {
    hide Mutate, Coherent, ReasonsCoherent, After, Next, Inv, Committed;
    if steps != [] {
      var n := Next(s, steps[0]);
      assert steps[0] != Delete(key);
      NextKeepsInv(s, steps[0]);
      StatusAfterStep(s, steps[0], key);
      StatusIsSerializable(n, steps[1..], key);
      var later := Commits(n, steps[1..], key);
      if Committed(s, steps[0], key).Some? {
        assert Commits(s, steps, key)[1..] == later;
      }
    }
  }

  // ---- Observed generations ----------------------------------------------------

  /** In every reachable state, for every object. */
  lemma ReachableStatus(steps: seq<Step>, key: Key)
    requires key in Run(INIT, steps).objects
    ensures var o := Run(INIT, steps).objects[key];
            && o.status.observedGeneration <= o.generation
            && UniqueTypes(o.status.conditions)
            && (forall i :: 0 <= i < |o.status.conditions| ==> o.status.conditions[i].observedGeneration == o.status.observedGeneration)
            && (o.status == Status(0, []) || (Coherent(o.kind, o.status.conditions) && ReasonsCoherent(o.kind, o.status.conditions)))
  {
    hide Mutate, Coherent, ReasonsCoherent;
    RunKeepsInv(INIT, steps);
  }

  lemma {:induction false} ObservedGenerationNeverDecreases(s: World, steps: seq<Step>, key: Key)
    requires Inv(s) && key in s.objects && Keeps(steps, key)
    ensures key in Run(s, steps).objects
    ensures s.objects[key].status.observedGeneration <= Run(s, steps).objects[key].status.observedGeneration
    decreases |steps|
  {
    hide Mutate, Coherent, ReasonsCoherent, Next;
    if steps != [] {
      assert steps[0] != Delete(key);
      NextKeepsInv(s, steps[0]);
      StatusAfterStep(s, steps[0], key);
      assert StatusOk(s.objects[key]);
      ObservedGenerationNeverDecreases(Next(s, steps[0]), steps[1..], key);
    }
  }

  /** The patch made from an old copy, merged without the lock, undoes a later status. */
  ghost predicate LosesUpdate(stored: Object, copy: Object, ins: Inputs, clock: nat -> int) {
    && Fits(stored.kind, ins) && StatusOk(stored) && StatusOk(copy)
    && copy.generation < stored.generation
    && var merged := Merge(Diff(copy.status, Mutate(copy, ins, clock)), stored.status);
       merged.observedGeneration < stored.status.observedGeneration && merged != Mutate(stored, ins, clock)
  }

  /**
   The lock is needed: some patch, merged without it, lowers the observed
   generation and stores a status that is not the mutation of what it replaced.
   */
  lemma WithoutTheLockUpdatesAreLost()
    ensures exists stored: Object, copy: Object, ins: Inputs, clock: nat -> int :: LosesUpdate(stored, copy, ins, clock)
  {
    hide Mutate, Coherent, ReasonsCoherent, StatusOk, Merge, Diff;
    var clock: nat -> int := (k: nat) => 0;
    var ins := ProjectInputs(None, None);
    var copy := Object(ProjectKind, 1, 1, "", Status(0, []));
    var edited := copy.(version := 3, generation := 2);
    var stored := edited.(status := Mutate(edited, ins, clock));
    FreshIsOk(copy);
    FreshIsOk(edited);
    MutateIsOk(edited, ins, clock);
    StaleMerge(copy, edited, stored, ins, clock);
    assert LosesUpdate(stored, copy, ins, clock);
  }

  lemma FreshIsOk(o: Object)
    requires o.status == Status(0, [])
    ensures StatusOk(o)
  {
  }

  /** Merging the patch of a first write onto the status of a later generation. */
  lemma StaleMerge(copy: Object, edited: Object, stored: Object, ins: Inputs, clock: nat -> int)
    requires 0 < copy.generation < edited.generation && copy.status == edited.status == Status(0, [])
    requires stored.generation == edited.generation && stored.status == Mutate(edited, ins, clock)
    ensures var merged := Merge(Diff(copy.status, Mutate(copy, ins, clock)), stored.status);
            merged.observedGeneration < stored.status.observedGeneration && merged != Mutate(stored, ins, clock)
  {
    hide Mutate;
    MutateIsAfter(copy, ins, clock);
    MutateIsAfter(edited, ins, clock);
    MutateIsAfter(stored, ins, clock);
  }

  // ---- Quiescence ----------------------------------------------------------------

  /** Nothing but PatchStatus calls on this object with these observations. */
  predicate Steady(steps: seq<Step>, key: Key, ins: Inputs) {
    forall i :: 0 <= i < |steps| ==> steps[i].Patch? || (steps[i].Read? && steps[i].key == key && steps[i].ins == ins)
  }

  /** No write yet: every pending call works on the stored object. */
  ghost predicate Unwritten(s: World, key: Key, ins: Inputs) {
    forall w :: w in s.writers && s.writers[w].key == key ==>
      s.writers[w].ins == ins && key in s.objects && s.writers[w].current == s.objects[key]
  }

  /** Written: the status is a fixed point, and every pending call is stale. */
  ghost predicate Settled(s: World, key: Key, ins: Inputs) {
    && key in s.objects
    && (forall clock: nat -> int :: Mutate(s.objects[key], ins, clock) == s.objects[key].status)
    && (forall w :: w in s.writers && s.writers[w].key == key ==> s.writers[w].current.version != s.objects[key].version)
  }

  lemma FirstWriteSettles(s: World, key: Key, ins: Inputs, step: Step)
    requires Inv(s) && Unwritten(s, key, ins)
    requires step.Patch? && Accepts(s, step.w, step.rejected) && s.writers[step.w].key == key
    ensures Settled(Next(s, step), key, ins)
  {
    hide Mutate, Coherent, ReasonsCoherent;
    var x := s.writers[step.w];
    var n := Next(s, step);
    assert SnapshotOk(s, x);
    var o := s.objects[key];
    assert n.objects[key] == o.(version := s.revision + 1, status := Mutate(o, ins, x.clock));
    forall clock: nat -> int ensures Mutate(n.objects[key], ins, clock) == n.objects[key].status {
      MutateIsIdempotent(o, ins, x.clock, s.revision + 1, clock);
    }
    forall w | w in n.writers && n.writers[w].key == key ensures n.writers[w].current.version != n.objects[key].version {
      assert SnapshotOk(s, s.writers[w]);
    }
  }

  lemma SteadyStep(s: World, key: Key, ins: Inputs, step: Step)
    requires Inv(s)
    requires step.Patch? || (step.Read? && step.key == key && step.ins == ins)
    requires Unwritten(s, key, ins) || Settled(s, key, ins)
    ensures Committed(s, step, key).None? ==> (Settled(s, key, ins) ==> Settled(Next(s, step), key, ins))
    ensures Committed(s, step, key).None? ==> (Unwritten(s, key, ins) ==> Unwritten(Next(s, step), key, ins))
    ensures Committed(s, step, key).Some? ==> !Settled(s, key, ins) && Settled(Next(s, step), key, ins)
  {
    hide Mutate, Coherent, ReasonsCoherent, StatusOk;
    if Committed(s, step, key).Some? {
      assert !Settled(s, key, ins);
      FirstWriteSettles(s, key, ins, step);
    }
  }

  /**
   While the observations of an object do not change, any calls by any number of
   writers, at any times, write its status at most once.
   */
  lemma {:induction false} AtMostOneStatusWrite(s: World, steps: seq<Step>, key: Key, ins: Inputs)
    requires Inv(s) && Steady(steps, key, ins)
    requires Unwritten(s, key, ins) || Settled(s, key, ins)
    ensures |Commits(s, steps, key)| <= if Settled(s, key, ins) then 0 else 1
    decreases |steps|
  {
    hide Mutate, Coherent, ReasonsCoherent, Next, Committed, Inv, Settled, Unwritten;
    if steps != [] {
      var n := Next(s, steps[0]);
      SteadyStep(s, key, ins, steps[0]);
      NextKeepsInv(s, steps[0]);
      AtMostOneStatusWrite(n, steps[1..], key, ins);
    }
  }
}
