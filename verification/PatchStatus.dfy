/** PatchStatus as one call, with any steps of others between its Get and its Patch. */
module PatchStatus {
  import opened Wrappers
  import opened Status
  import opened StatusClosures
  import opened StatusStore
  import Identifiers

  /** nil without a write, nil after a write, or an error. */
  datatype PatchResult = NothingToDo | Patched(status: Status) | GetError | PatchError

  ghost predicate Bounded(s: World) {
    forall k :: k in s.objects ==> s.objects[k].version <= s.revision
  }

  lemma BoundedStep(s: World, step: Step)
    requires Bounded(s)
    ensures Bounded(Next(s, step)) && s.revision <= Next(s, step).revision
    ensures forall k :: k in Next(s, step).objects && Next(s, step).objects[k].version <= s.revision ==>
              k in s.objects && Next(s, step).objects[k] == s.objects[k]
  {
    hide Mutate;
  }

  /** A resource version never comes back with another content, even after a deletion. */
  lemma {:induction false} VersionIdentifiesContent(s: World, steps: seq<Step>, key: Key)
    requires Bounded(s)
    ensures Bounded(Run(s, steps)) && s.revision <= Run(s, steps).revision
    ensures key in Run(s, steps).objects && Run(s, steps).objects[key].version <= s.revision ==>
              key in s.objects && Run(s, steps).objects[key] == s.objects[key]
    decreases |steps|
  {
    hide Mutate, Next;
    if steps != [] {
      BoundedStep(s, steps[0]);
      VersionIdentifiesContent(Next(s, steps[0]), steps[1..], key);
    }
  }

  class ApiServer {
    var world: World

    method Get(key: Key, fails: bool) returns (r: Read<Object>)
      ensures r == if fails then ReadFailed("") else if key in world.objects then Found(world.objects[key]) else NotFound
    {
      if fails {
        return ReadFailed("");
      }
      if key in world.objects {
        return Found(world.objects[key]);
      }
      return NotFound;
    }

    /** The status subresource: refuse a patch made from another version. */
    method PatchStatusSubresource(key: Key, version: nat, patch: MergePatch, rejected: bool) returns (ok: bool)
      modifies this
      ensures ok <==> !rejected && key in old(world).objects && old(world).objects[key].version == version
      ensures ok ==> world == Put(old(world), key, old(world).objects[key].(status := Merge(patch, old(world).objects[key].status)))
      ensures !ok ==> world == old(world)
    {
      if rejected || key !in world.objects || world.objects[key].version != version {
        return false;
      }
      var stored := world.objects[key];
      world := Put(world, key, stored.(status := Merge(patch, stored.status)));
      return true;
    }

    /** A merge patch of the identifier alone, made from a copy that showed seen, without a version. */
    method PatchID(key: Key, seen: string, id: string, answer: Identifiers.PatchOutcome) returns (ok: bool)
      modifies this
      ensures ok <==> answer == Identifiers.Accepted && key in old(world).objects
      ensures world == if answer != Identifiers.Rejected && key in old(world).objects && seen != id && old(world).objects[key].id != id
                       then Next(old(world), EditSpec(key, id)) else old(world)
    {
      if answer == Identifiers.Rejected || key !in world.objects {
        return false;
      }
      if seen != id && world.objects[key].id != id {
        var stored := world.objects[key];
        world := Put(world, key, stored.(generation := stored.generation + 1, id := id));
      }
      return answer == Identifiers.Accepted;
    }

    /** What the rest of the system does meanwhile. */
    method Interfere(others: seq<Step>)
      modifies this
      ensures world == Run(old(world), others)
    {
      world := Run(world, others);
    }

    /**
     Whatever happens between the Get and the Patch, a reported write stores the
     mutation of exactly the object it replaced, and nothing else is written.
     */
    method PatchStatus(key: Key, getFails: bool, ins: Inputs, clock: nat -> int, others: seq<Step>, rejected: bool) returns (r: PatchResult)
      requires Bounded(world)
      requires key in world.objects ==> Fits(world.objects[key].kind, ins)
      modifies this
      ensures r == GetError <==> getFails || key !in old(world).objects
      ensures r == NothingToDo <==> !getFails && key in old(world).objects && Mutate(old(world).objects[key], ins, clock) == old(world).objects[key].status
      ensures r == GetError || r == NothingToDo ==> world == old(world)
      ensures r == PatchError ==> world == Run(old(world), others)
      ensures r != GetError && r != NothingToDo ==>
                var met := Run(old(world), others);
                r.Patched? <==> !rejected && key in met.objects && met.objects[key].version == old(world).objects[key].version
      ensures r.Patched? ==>
                var met := Run(old(world), others);
                && key in met.objects
                && r.status == Mutate(met.objects[key], ins, clock)
                && world == Put(met, key, met.objects[key].(status := r.status))
    {
      var got := Get(key, getFails);
      if !got.Found? {
        return GetError;
      }
      var current := got.value;
      var updated := RunClosure(current, ins, clock);
      if current.status == updated {
        return NothingToDo;
      }
      VersionIdentifiesContent(world, others, key);
      Interfere(others);
      var ok := PatchStatusSubresource(key, current.version, Diff(current.status, updated), rejected);
      if !ok {
        return PatchError;
      }
      return Patched(updated);
    }
  }
}
