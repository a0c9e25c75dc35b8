/**
 The tenant ID of a project and the timeline ID of a branch: one field that the
 operator fills when it finds it empty. The patch that fills it carries no
 version, and the copy it was decided on may be old. Field versions count the
 writes to this field.
 */
module Identifiers {
  import opened Wrappers
  import opened Hex

  type ID = s: string | s != "" witness "0"

  /** GenerateNeonID: 16 random bytes in hexadecimal. */
  function GeneratedID(random: seq<Byte>): (id: ID)
    requires |random| == 16
    ensures |id| == 32 && forall i :: 0 <= i < 32 ==> HexValue(id[i]).Some?
  {
    DecodeEncode(random);
    DecodeDomain(Encode(random));
    Encode(random)
  }

  /** A reconcile, with the field it read and the version of that read. */
  datatype Worker = Worker(copy: string, version: nat)

  /** history[v] is the field after its v-th write; calls are the IDs sent to the storage controller. */
  datatype Field = Field(history: seq<string>, workers: map<nat, Worker>, calls: seq<string>)

  datatype PatchOutcome = Accepted | Rejected | AppliedButFailed

  datatype Step =
    | Read(w: nat, version: nat)
    | Assign(w: nat, random: seq<Byte>, outcome: PatchOutcome)
    | Call(w: nat)
    | Drop(w: nat)
    | UserEdit(id: string)

  predicate Ok(s: Field) {
    s.history != [] && forall w :: w in s.workers ==> s.workers[w].version < |s.history| && s.workers[w].copy == s.history[s.workers[w].version]
  }

  function Current(s: Field): string
    requires s.history != []
  {
    s.history[|s.history| - 1]
  }

  function Latest(s: Field): nat
    requires s.history != []
  {
    |s.history| - 1
  }

  predicate Enabled(s: Field, step: Step) {
    match step
    case Read(w, version) => w !in s.workers && version < |s.history|
    case Assign(w, random, _) => w in s.workers && s.workers[w].copy == "" && |random| == 16
    case Call(w) => w in s.workers && s.workers[w].copy != ""
    case Drop(w) => w in s.workers
    case UserEdit(_) => true
  }

  function Next(s: Field, step: Step): Field
    requires Ok(s) && Enabled(s, step)
  {
    match step
    case Read(w, version) => s.(workers := s.workers[w := Worker(s.history[version], version)])
    case Assign(w, random, outcome) =>
      s.(history := if outcome == Rejected then s.history else s.history + [GeneratedID(random)], workers := s.workers - {w})
    case Call(w) => s.(calls := s.calls + [s.workers[w].copy], workers := s.workers - {w})
    case Drop(w) => s.(workers := s.workers - {w})
    case UserEdit(id) => s.(history := s.history + [id])
  }

  lemma NextIsOk(s: Field, step: Step)
    requires Ok(s) && Enabled(s, step)
    ensures Ok(Next(s, step)) && s.history <= Next(s, step).history
  {
  }

  predicate AllEnabled(s: Field, steps: seq<Step>)
    requires Ok(s)
    decreases |steps|
  {
    steps != [] ==> Enabled(s, steps[0]) && (NextIsOk(s, steps[0]); AllEnabled(Next(s, steps[0]), steps[1..]))
  }

  function Run(s: Field, steps: seq<Step>): Field
    requires Ok(s) && AllEnabled(s, steps)
    decreases |steps|
  {
    if steps == [] then s else (NextIsOk(s, steps[0]); Run(Next(s, steps[0]), steps[1..]))
  }

  // ---- When a step replaces an ID ------------------------------------------------

  predicate Replaces(s: Field, step: Step)
    requires Ok(s) && Enabled(s, step)
  {
    Current(s) != "" && Current(Next(s, step)) != Current(s)
  }

  /** The worker's read is the newest, and nothing was written to the field since. */
  predicate Undisturbed(s: Field, step: Step)
    requires Ok(s)
  {
    step.Assign? && step.w in s.workers ==> s.workers[step.w].version == Latest(s)
  }

  /** An operator step replaces an ID exactly when it patches in another ID on an old empty copy. */
  lemma ReplacementNeedsAnOldCopy(s: Field, step: Step)
    requires Ok(s) && Enabled(s, step) && !step.UserEdit?
    ensures Replaces(s, step) <==>
            step.Assign? && step.outcome != Rejected && Current(s) != "" && GeneratedID(step.random) != Current(s)
    ensures Replaces(s, step) ==> s.workers[step.w].version < Latest(s) && !Undisturbed(s, step)
  {
  }

  predicate AllUndisturbed(s: Field, steps: seq<Step>)
    requires Ok(s) && AllEnabled(s, steps)
    decreases |steps|
  {
    steps != [] ==> Undisturbed(s, steps[0]) && (NextIsOk(s, steps[0]); AllUndisturbed(Next(s, steps[0]), steps[1..]))
  }

  predicate OperatorOnly(steps: seq<Step>) {
    forall i :: 0 <= i < |steps| ==> !steps[i].UserEdit?
  }

  /** The field was written at most once, every copy is empty or that ID, and so is every call. */
  ghost predicate Once(s: Field, calls: nat) {
    && Ok(s)
    && calls <= |s.calls|
    && (Current(s) == "" ==> calls == |s.calls|)
    && (forall v :: 0 <= v < |s.history| ==> s.history[v] == "" || s.history[v] == Current(s))
    && (forall i :: calls <= i < |s.calls| ==> s.calls[i] != "" && s.calls[i] == Current(s))
  }

  lemma OnceStep(s: Field, step: Step, calls: nat)
    requires Once(s, calls) && Enabled(s, step) && !step.UserEdit? && Undisturbed(s, step)
    ensures Once(Next(s, step), calls)
    ensures Current(s) != "" ==> Current(Next(s, step)) == Current(s)
  {
    NextIsOk(s, step);
    var n := Next(s, step);
    if step.Assign? && step.outcome != Rejected {
      assert s.workers[step.w].copy == Current(s) == "";
      forall v | 0 <= v < |n.history| ensures n.history[v] == "" || n.history[v] == Current(n) {
        assert v == |s.history| || n.history[v] == s.history[v];
      }
    }
  }

  /**
   If no write to the field falls between a reconcile's fresh read and its patch, a
   non-empty ID is never changed by the operator, and every call to the storage
   controller carries that one non-empty ID.
   */
  lemma {:induction false} IDsAreWriteOnce(s: Field, steps: seq<Step>, calls: nat)
    requires Once(s, calls) && AllEnabled(s, steps) && AllUndisturbed(s, steps) && OperatorOnly(steps)
    ensures Once(Run(s, steps), calls)
    ensures Current(s) != "" ==> Current(Run(s, steps)) == Current(s)
    decreases |steps|
  {
    if steps != [] {
      OnceStep(s, steps[0], calls);
      IDsAreWriteOnce(Next(s, steps[0]), steps[1..], calls);
    }
  }

  // ---- The queue gives the hypothesis ------------------------------------------------

  /** One reconcile at a time on the key, and linearizable reads. */
  predicate Serialized(s: Field, steps: seq<Step>)
    requires Ok(s) && AllEnabled(s, steps)
    decreases |steps|
  {
    steps != [] ==>
      && !steps[0].UserEdit?
      && (steps[0].Read? ==> s.workers == map[] && steps[0].version == Latest(s))
      && (NextIsOk(s, steps[0]); Serialized(Next(s, steps[0]), steps[1..]))
  }

  /** With one worker at a time and fresh reads, every run of the operator is undisturbed. */
  lemma {:induction false} SerializedIsUndisturbed(s: Field, steps: seq<Step>)
    requires Ok(s) && AllEnabled(s, steps) && Serialized(s, steps)
    requires |s.workers| <= 1 && forall w :: w in s.workers ==> s.workers[w].version == Latest(s)
    ensures AllUndisturbed(s, steps)
    decreases |steps|
  {
    if steps != [] {
      var n := Next(s, steps[0]);
      NextIsOk(s, steps[0]);
      if !steps[0].Read? && |s.workers| == 1 {
        var w := steps[0].w;
        assert s.workers.Keys == {w} by {
          assert |s.workers.Keys - {w}| == 0;
        }
        assert n.workers == map[];
      }
      SerializedIsUndisturbed(n, steps[1..]);
    }
  }

  lemma {:induction false} SerializedIsOperatorOnly(s: Field, steps: seq<Step>)
    requires Ok(s) && AllEnabled(s, steps) && Serialized(s, steps)
    ensures OperatorOnly(steps)
    decreases |steps|
  {
    if steps != [] {
      SerializedIsOperatorOnly(Next(s, steps[0]), steps[1..]);
      assert forall i :: 0 < i < |steps| ==> steps[i] == steps[1..][i - 1];
    }
  }

  const FRESH := Field([""], map[], [])

  lemma QueuedReconcilesAssignOnce(steps: seq<Step>)
    requires AllEnabled(FRESH, steps) && Serialized(FRESH, steps)
    ensures var t := Run(FRESH, steps);
            && t.history != []
            && (forall i :: 0 <= i < |t.calls| ==> t.calls[i] == Current(t) && t.calls[i] != "")
  {
    SerializedIsUndisturbed(FRESH, steps);
    SerializedIsOperatorOnly(FRESH, steps);
    IDsAreWriteOnce(FRESH, steps, 0);
  }

  // ---- One reconcile of a controller ---------------------------------------------------

  /** Whatever others write to the field meanwhile. */
  function Edits(ids: seq<string>): seq<Step> {
    if ids == [] then [] else [UserEdit(ids[0])] + Edits(ids[1..])
  }

  /** Worker w made a fresh read, others wrote ids, and w finished with this step. */
  ghost predicate Took(s: Field, w: nat, ids: seq<string>, last: Step, t: Field) {
    && Ok(s) && w !in s.workers
    && var read := Next(s, Read(w, Latest(s)));
       var met := read.(history := read.history + ids);
       Enabled(met, last) && t == Next(met, last)
  }

  /** A call carries the ID that was read, also when others have written another one since. */
  lemma CallSendsWhatWasRead(s: Field, w: nat, ids: seq<string>, t: Field)
    requires Took(s, w, ids, Call(w), t)
    ensures Current(s) != "" && t.calls == s.calls + [Current(s)] && t.history == s.history + ids
  {
  }

  lemma {:induction false} RunOfEdits(s: Field, ids: seq<string>, last: Step)
    requires Ok(s) && Enabled(s.(history := s.history + ids), last)
    ensures Ok(s.(history := s.history + ids))
    ensures AllEnabled(s, Edits(ids) + [last])
    ensures Run(s, Edits(ids) + [last]) == Next(s.(history := s.history + ids), last)
    decreases |ids|
  {
    if ids == [] {
      assert s.history + ids == s.history && Edits(ids) + [last] == [last];
      Finished(Next(s, last));
      assert [last][1..] == [];
    } else {
      var n := s.(history := s.history + [ids[0]]);
      assert n.history + ids[1..] == s.history + ids;
      RunOfEdits(n, ids[1..], last);
      assert Edits(ids) + [last] == [UserEdit(ids[0])] + (Edits(ids[1..]) + [last]);
      Unroll(s, UserEdit(ids[0]), Edits(ids[1..]) + [last], n);
    }
  }

  /** Which is a run of the machine above. */
  lemma TookIsARun(s: Field, w: nat, ids: seq<string>, last: Step, t: Field)
    requires Took(s, w, ids, last, t)
    ensures var steps := [Read(w, Latest(s))] + (Edits(ids) + [last]);
            AllEnabled(s, steps) && Run(s, steps) == t
  {
    hide AllEnabled, Run;
    var read := Next(s, Read(w, Latest(s)));
    RunOfEdits(read, ids, last);
    Unroll(s, Read(w, Latest(s)), Edits(ids) + [last], read);
  }

  // ---- The hypothesis is needed --------------------------------------------------------

  /** One reconcile at a time, but the second reads a cache that misses the first one's write. */
  function StaleRun(x: seq<Byte>, y: seq<Byte>): seq<Step> {
    [ Read(0, 0), Assign(0, x, Accepted),
      Read(0, 1), Call(0),
      Read(0, 0), Assign(0, y, Accepted),
      Read(0, 2), Call(0) ]
  }

  /** Whatever two IDs are generated: the run is possible, and both reach the storage controller. */
  lemma StaleReadReplacesTheID(x: seq<Byte>, y: seq<Byte>)
    requires |x| == 16 && |y| == 16 && x != y
    ensures AllEnabled(FRESH, StaleRun(x, y)) && OperatorOnly(StaleRun(x, y))
    ensures var t := Run(FRESH, StaleRun(x, y));
            && t.calls == [GeneratedID(x), GeneratedID(y)]
            && t.calls[0] != t.calls[1]
            && t.history == ["", GeneratedID(x), GeneratedID(y)]
  {
    hide AllEnabled, Run, GeneratedID;
    DifferentIDs(x, y);
    var a, b := GeneratedID(x), GeneratedID(y);
    StaleHalf(x, y);
    var s4 := Field(["", a], map[], [a]);
    var s5 := Field(["", a], map[0 := Worker("", 0)], [a]);
    var s6 := Field(["", a, b], map[], [a]);
    var s7 := Field(["", a, b], map[0 := Worker(b, 2)], [a]);
    var s8 := Field(["", a, b], map[], [a, b]);
    var r := StaleRun(x, y);
    Finished(s8);
    var r7 := [Call(0)];
    var r6 := [Read(0, 2)] + r7;
    var r5 := [Assign(0, y, Accepted)] + r6;
    var r4 := [Read(0, 0)] + r5;
    Unroll(s7, Call(0), [], s8);
    assert [Call(0)] + [] == r7;
    Unroll(s6, Read(0, 2), r7, s7);
    Unroll(s5, Assign(0, y, Accepted), r6, s6);
    Unroll(s4, Read(0, 0), r5, s5);
    assert r[4..] == r4;
  }

  lemma DifferentIDs(x: seq<Byte>, y: seq<Byte>)
    requires |x| == 16 && |y| == 16 && x != y
    ensures GeneratedID(x) != GeneratedID(y)
  {
    if GeneratedID(x) == GeneratedID(y) {
      EncodeInjective(x, y);
    }
  }

  /** The first four steps, given that the last four can follow. */
  lemma StaleHalf(x: seq<Byte>, y: seq<Byte>)
    requires |x| == 16 && |y| == 16
    ensures var s4 := Field(["", GeneratedID(x)], map[], [GeneratedID(x)]);
            AllEnabled(s4, StaleRun(x, y)[4..]) ==>
              AllEnabled(FRESH, StaleRun(x, y)) && Run(FRESH, StaleRun(x, y)) == Run(s4, StaleRun(x, y)[4..])
  {
    hide AllEnabled, Run, GeneratedID;
    var a := GeneratedID(x);
    var s1 := Field([""], map[0 := Worker("", 0)], []);
    var s2 := Field(["", a], map[], []);
    var s3 := Field(["", a], map[0 := Worker(a, 1)], []);
    var s4 := Field(["", a], map[], [a]);
    var r := StaleRun(x, y);
    var r4 := r[4..];
    var r3 := [Call(0)] + r4;
    var r2 := [Read(0, 1)] + r3;
    var r1 := [Assign(0, x, Accepted)] + r2;
    if AllEnabled(s4, r4) {
      Unroll(s3, Call(0), r4, s4);
      Unroll(s2, Read(0, 1), r3, s3);
      Unroll(s1, Assign(0, x, Accepted), r2, s2);
      Unroll(FRESH, Read(0, 0), r1, s1);
      assert r == [Read(0, 0)] + r1;
    }
  }

  lemma Finished(s: Field)
    requires Ok(s)
    ensures AllEnabled(s, []) && Run(s, []) == s
  {
  }

  /** One step of a concrete run. */
  lemma Unroll(s: Field, step: Step, rest: seq<Step>, n: Field)
    requires Ok(s) && Enabled(s, step) && Next(s, step) == n
    requires Ok(n) && AllEnabled(n, rest)
    ensures AllEnabled(s, [step] + rest) && Run(s, [step] + rest) == Run(n, rest)
  {
    assert ([step] + rest)[1..] == rest;
  }
}
