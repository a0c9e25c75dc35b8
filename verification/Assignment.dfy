/**
 Assigning the tenant ID of a project or the timeline ID of a branch: a second read,
 then a patch of the one field without a version, with steps of others before and
 between. Seen from the field this is a step of the machine in Identifiers.
 */
module Assignment {
  import opened Wrappers
  import opened Hex
  import opened Status
  import opened Identifiers
  import StatusStore
  import PatchStatus
  import opened Controllers

  /** Everything an assignment meets. */
  datatype IDCall = IDCall(before: Steps, getFails: bool, between: Steps, random: seq<Byte>, answer: PatchOutcome)

  /** What a step of others writes to the field of this object. */
  function IDWrite(w: StatusStore.World, step: StatusStore.Step, key: StatusStore.Key): seq<string> {
    match step
    case EditSpec(k, id) => if k == key && k in w.objects then [id] else []
    case Create(k, _, id) => if k == key && k !in w.objects then [id] else []
    case _ => []
  }

  function IDWrites(w: StatusStore.World, steps: Steps, key: StatusStore.Key): seq<string>
    decreases |steps|
  {
    if steps == [] then [] else IDWrite(w, steps[0], key) + IDWrites(StatusStore.Next(w, steps[0]), steps[1..], key)
  }

  /** The object shows the last value written. */
  predicate Shows(w: StatusStore.World, key: StatusStore.Key, history: seq<string>) {
    key in w.objects ==> history != [] && w.objects[key].id == history[|history| - 1]
  }

  lemma {:induction false} WritesAreShown(w: StatusStore.World, steps: Steps, key: StatusStore.Key, history: seq<string>)
    requires Shows(w, key, history)
    ensures Shows(StatusStore.Run(w, steps), key, history + IDWrites(w, steps, key))
    decreases |steps|
  {
    hide Mutate;
    if steps == [] {
      assert history + IDWrites(w, steps, key) == history;
    } else {
      var n := StatusStore.Next(w, steps[0]);
      var h := history + IDWrite(w, steps[0], key);
      StepIsShown(w, steps[0], key, history);
      WritesAreShown(n, steps[1..], key, h);
      assert history + IDWrites(w, steps, key) == h + IDWrites(n, steps[1..], key);
    }
  }

  lemma StepIsShown(w: StatusStore.World, step: StatusStore.Step, key: StatusStore.Key, history: seq<string>)
    requires Shows(w, key, history)
    ensures Shows(StatusStore.Next(w, step), key, history + IDWrite(w, step, key))
  {
    hide Mutate;
    assert history + [] == history;
  }

  /** The patch changes the stored field. */
  predicate Lands(read: StatusStore.World, met: StatusStore.World, key: StatusStore.Key, c: IDCall)
    requires |c.random| == 16
  {
    && !c.getFails && key in read.objects && key in met.objects && c.answer != Rejected
    && read.objects[key].id != GeneratedID(c.random) && met.objects[key].id != GeneratedID(c.random)
  }

  /** The custom resources after an assignment. */
  function AfterAssignment(w: StatusStore.World, key: StatusStore.Key, c: IDCall): StatusStore.World
    requires |c.random| == 16
  {
    var read := StatusStore.Run(w, c.before);
    if c.getFails || key !in read.objects then read
    else
      var met := StatusStore.Run(read, c.between);
      if Lands(read, met, key, c) then StatusStore.Next(met, StatusStore.EditSpec(key, GeneratedID(c.random))) else met
  }

  lemma ReadyAfterAssignment(w: StatusStore.World, key: StatusStore.Key, kind: Kind, c: IDCall)
    requires |c.random| == 16 && Ready(w, key, kind) && KindStable(c.before, key, kind) && KindStable(c.between, key, kind)
    ensures Ready(AfterAssignment(w, key, c), key, kind)
  {
    hide StatusStore.Run, GeneratedID;
    ReadyAfter(w, c.before, key, kind);
    ReadyAfter(StatusStore.Run(w, c.before), c.between, key, kind);
  }

  /** The second read and the patch both find the object, and the patch is accepted. */
  predicate IDAccepted(w: StatusStore.World, key: StatusStore.Key, c: IDCall) {
    var read := StatusStore.Run(w, c.before);
    !c.getFails && key in read.objects && key in StatusStore.Run(read, c.between).objects && c.answer == Accepted
  }

  /** The object as it was met, with the generated ID, a generation and a version later. */
  ghost predicate IDStored(w: StatusStore.World, key: StatusStore.Key, c: IDCall, after: StatusStore.World)
    requires |c.random| == 16
  {
    var read := StatusStore.Run(w, c.before);
    var met := StatusStore.Run(read, c.between);
    key in read.objects && key in met.objects && read.objects[key].id != GeneratedID(c.random) && met.objects[key].id != GeneratedID(c.random) ==>
      && key in after.objects
      && after.objects[key] ==
         met.objects[key].(version := met.revision + 1, generation := met.objects[key].generation + 1, id := GeneratedID(c.random))
  }

  /** A worker may begin on the field f that this object shows. */
  ghost predicate Begins(w: StatusStore.World, key: StatusStore.Key, f: Field, worker: nat) {
    Ok(f) && worker !in f.workers && (key in w.objects ==> w.objects[key].id == Current(f))
  }

  /** The worker began on f with a fresh read, others wrote ids meanwhile, and it ended so that the field is g. */
  ghost predicate Assigned(w: StatusStore.World, key: StatusStore.Key, c: IDCall, f: Field, worker: nat, g: Field, ok: bool)
    requires |c.random| == 16
  {
    && (exists ids, last :: Took(f, worker, ids, last, g) && (last == Drop(worker) || (last.Assign? && last.w == worker && last.random == c.random)))
    && g.calls == f.calls
    && (key in w.objects ==> w.objects[key].id == Current(g))
    && (ok ==> GeneratedID(c.random) in g.history)
  }

  method AssignID(statuses: PatchStatus.ApiServer, key: StatusStore.Key, c: IDCall, ghost f: Field, ghost worker: nat)
    returns (ok: bool, ghost g: Field)
    requires |c.random| == 16 && key in statuses.world.objects && statuses.world.objects[key].id == ""
    requires Begins(statuses.world, key, f, worker)
    modifies statuses
    ensures statuses.world == AfterAssignment(old(statuses.world), key, c)
    ensures Assigned(statuses.world, key, c, f, worker, g, ok)
    ensures var read := StatusStore.Run(old(statuses.world), c.before);
            var met := StatusStore.Run(read, c.between);
            && (ok <==> !c.getFails && key in read.objects && key in met.objects && c.answer == Accepted)
            && (ok && read.objects[key].id != GeneratedID(c.random) && met.objects[key].id != GeneratedID(c.random) ==>
                  && key in statuses.world.objects
                  && statuses.world.objects[key] ==
                     met.objects[key].(version := met.revision + 1, generation := met.objects[key].generation + 1, id := GeneratedID(c.random)))
            && (!ok && c.answer != AppliedButFailed ==> statuses.world == read || statuses.world == met)
  {
    hide Mutate, GeneratedID, StatusStore.Run, IDWrites, Took, Ended;
    ghost var before := IDWrites(statuses.world, c.before, key);
    WritesAreShown(statuses.world, c.before, key, f.history);
    statuses.Interfere(c.before);
    var got := statuses.Get(key, c.getFails);
    if !got.Found? {
      g := Ended(f, worker, before, Drop(worker));
      return false, g;
    }
    ghost var read := statuses.world;
    ghost var ids := before + IDWrites(read, c.between, key);
    WritesAreShown(read, c.between, key, f.history + before);
    assert f.history + ids == f.history + before + IDWrites(read, c.between, key);
    statuses.Interfere(c.between);
    ghost var met := statuses.world;
    ok := statuses.PatchID(key, got.value.id, GeneratedID(c.random), c.answer);
    g := Ended(f, worker, ids, Identifiers.Step.Assign(worker, c.random, if Lands(read, met, key, c) then c.answer else Rejected));
    assert key in statuses.world.objects ==> statuses.world.objects[key].id == Current(g);
  }

  ghost function Ended(f: Field, worker: nat, ids: seq<string>, last: Step): (g: Field)
    requires Ok(f) && worker !in f.workers
    requires last == Drop(worker) || (last.Assign? && last.w == worker && Current(f) == "" && |last.random| == 16)
    ensures Took(f, worker, ids, last, g) && g.calls == f.calls
    ensures g.history == f.history + ids + (if last.Assign? && last.outcome != Rejected then [GeneratedID(last.random)] else [])
  {
    var read := Next(f, Read(worker, Latest(f)));
    assert f.history + ids + [] == f.history + ids;
    Next(read.(history := read.history + ids), last)
  }
}
