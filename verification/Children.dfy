/**
 The child objects in the API server and the create-or-apply step on one child:
 the shared ReconcileSSA and the form that the branch controller writes out four
 times by hand.
 */
module Children {
  import opened Wrappers
  import opened Values
  import opened Names
  import opened Paths

  datatype Key = Key(kind: ChildKind, namespace: string, name: string)

  /** owner is the UID in the controller reference. */
  datatype ChildObject = ChildObject(
    owner: Option<string>,
    labels: map<string, string>,
    annotations: map<string, string>,
    body: Value)

  /** An object as a builder returns it; typed says whether it carries its kind and API version. */
  datatype Intended = Intended(
    key: Key,
    typed: bool,
    labels: map<string, string>,
    annotations: map<string, string>,
    body: Value)

  type Store = map<Key, ChildObject>

  /** What the storage controller answered to a POST: a status code, or no answer. */
  datatype Reply = Answered(code: nat) | NoConnection

  datatype Event = Posted(tenant: string, timeline: string, reply: Reply) | Wrote(key: Key, labels: map<string, string>)

  /** The children, and everything the operator has done so far. */
  datatype Api = Api(store: Store, trace: seq<Event>)

  datatype Error = OwnerFailed | GetFailed | CreateFailed | PatchFailed | NeedFailed

  /** Which of the calls of one create-or-apply step fail. */
  datatype Faults = Faults(owner: bool, get: bool, write: bool)

  const NO_FAULTS := Faults(false, false, false)

  datatype Outcome = Outcome(api: Api, error: Option<Error>)

  function Created(i: Intended, owner: string, admit: Value -> Value): ChildObject {
    ChildObject(Some(owner), i.labels, i.annotations, admit(i.body))
  }

  function Applied(i: Intended, owner: string, current: ChildObject, admit: Value -> Value): ChildObject {
    ChildObject(Some(owner), current.labels + i.labels, current.annotations + i.annotations, admit(Overlay(i.body, current.body)))
  }

  function Stored(api: Api, i: Intended, o: ChildObject): Api {
    Api(api.store[i.key := o], api.trace + [Wrote(i.key, o.labels)])
  }

  /** Drift looks at the body only, never at labels, annotations or the owner. */
  predicate Drifted(s: Store, i: Intended) {
    i.key in s && Drift(i.body, s[i.key].body)
  }

  /** One create-or-apply step, after the owner was set. */
  function Converge(api: Api, i: Intended, owner: string, f: Faults, admit: Value -> Value): Outcome {
    if i.key !in api.store then
      if f.write then Outcome(api, Some(CreateFailed)) else Outcome(Stored(api, i, Created(i, owner, admit)), None)
    else if !Drifted(api.store, i) then Outcome(api, None)
    else if f.write || !i.typed then Outcome(api, Some(PatchFailed))
    else Outcome(Stored(api, i, Applied(i, owner, api.store[i.key], admit)), None)
  }

  function SSA(api: Api, i: Intended, owner: string, f: Faults, admit: Value -> Value): Outcome {
    if f.owner then Outcome(api, Some(OwnerFailed))
    else if f.get then Outcome(api, Some(GetFailed))
    else Converge(api, i, owner, f, admit)
  }

  /** The hand-written form: the read comes before the owner reference. */
  function Inline(api: Api, i: Intended, owner: string, f: Faults, admit: Value -> Value): Outcome {
    if f.get then Outcome(api, Some(GetFailed))
    else if f.owner then Outcome(api, Some(OwnerFailed))
    else Converge(api, i, owner, f, admit)
  }

  /**
   The two forms have the same effect and fail together, for every store and every
   fault; they name different errors exactly when read and owner both fail.
   */
  lemma InlineRefinesSSA(api: Api, i: Intended, owner: string, f: Faults, admit: Value -> Value)
    ensures Inline(api, i, owner, f, admit).api == SSA(api, i, owner, f, admit).api
    ensures Inline(api, i, owner, f, admit).error.None? <==> SSA(api, i, owner, f, admit).error.None?
    ensures Inline(api, i, owner, f, admit).error == SSA(api, i, owner, f, admit).error <==> !(f.owner && f.get)
  {
  }

  class ApiServer {
    var api: Api
    /** Defaulting and admission of what is stored. */
    const admit: Value -> Value

    constructor (api: Api, admit: Value -> Value)
      ensures this.api == api && this.admit == admit
    {
      this.api, this.admit := api, admit;
    }

    method Get(key: Key, fails: bool) returns (r: Read<ChildObject>)
      ensures r == if fails then ReadFailed("") else if key in api.store then Found(api.store[key]) else NotFound
    {
      if fails {
        return ReadFailed("");
      }
      if key !in api.store {
        return NotFound;
      }
      return Found(api.store[key]);
    }

    method Create(i: Intended, owner: string, fails: bool) returns (ok: bool)
      modifies this
      ensures ok <==> !fails && i.key !in old(api).store
      ensures api == if ok then Stored(old(api), i, Created(i, owner, admit)) else old(api)
    {
      if fails || i.key in api.store {
        return false;
      }
      api := Stored(api, i, Created(i, owner, admit));
      return true;
    }

    /** Server-side apply with force; the server refuses a body without a kind. */
    method Apply(i: Intended, owner: string, fails: bool) returns (ok: bool)
      requires i.key in api.store
      modifies this
      ensures ok <==> !fails && i.typed
      ensures api == if ok then Stored(old(api), i, Applied(i, owner, old(api).store[i.key], admit)) else old(api)
    {
      if fails || !i.typed {
        return false;
      }
      api := Stored(api, i, Applied(i, owner, api.store[i.key], admit));
      return true;
    }

    /** Record an answer of the storage controller. */
    method Post(tenant: string, timeline: string, reply: Reply)
      modifies this
      ensures api == old(api).(trace := old(api).trace + [Posted(tenant, timeline, reply)])
    {
      api := api.(trace := api.trace + [Posted(tenant, timeline, reply)]);
    }
  }

  method ReconcileSSA(server: ApiServer, i: Intended, owner: string, f: Faults) returns (err: Option<Error>)
    modifies server
    ensures Outcome(server.api, err) == SSA(old(server.api), i, owner, f, server.admit)
  {
    if f.owner {
      return Some(OwnerFailed);
    }
    var current := server.Get(i.key, f.get);
    if current.ReadFailed? {
      return Some(GetFailed);
    }
    if current.NotFound? {
      var ok := server.Create(i, owner, f.write);
      return if ok then None else Some(CreateFailed);
    }
    if !Drift(i.body, current.value.body) {
      return None;
    }
    var ok := server.Apply(i, owner, f.write);
    return if ok then None else Some(PatchFailed);
  }

  // ---- What one step does to one child -------------------------------------------

  predicate InPlace(s: Store, i: Intended) {
    i.key in s && !Drifted(s, i)
  }

  /** A step that succeeds leaves its child in place; a step that fails changes nothing. */
  lemma StepOutcome(api: Api, i: Intended, owner: string, f: Faults, admit: Value -> Value)
    requires KeepsIntended(admit)
    ensures var r := SSA(api, i, owner, f, admit);
            && (r.error.None? ==> InPlace(r.api.store, i))
            && (r.error.Some? ==> r.api == api)
            && (InPlace(api.store, i) ==> r.api == api)
            && (r.api != api ==> !InPlace(api.store, i) && InPlace(r.api.store, i) && r.api.store[i.key].owner == Some(owner))
            && (forall k :: k in api.store ==> k in r.api.store)
            && (forall k :: k in r.api.store && k != i.key ==> k in api.store && r.api.store[k] == api.store[k])
  {
    DerivativeOfItself(i.body);
    if i.key in api.store {
      ApplyRemovesDrift(i.body, api.store[i.key].body);
    }
  }

  /** Without faults a step fails exactly when it would have to patch an untyped object. */
  lemma FaultFreeStep(api: Api, i: Intended, owner: string, admit: Value -> Value)
    ensures SSA(api, i, owner, NO_FAULTS, admit).error.None? <==> i.typed || !Drifted(api.store, i)
  {
  }

  // ---- The step by what stands in the store ----------------------------------------

  /** After an apply: what the intended value sets stands there, and what it says nothing about is as before. */
  ghost predicate AppliedTo(after: Value, intended: Value, before: Value) {
    forall path: Path ::
      && (At(intended, path).Some? && SetLeaf(At(intended, path).value) ==> At(after, path) == At(intended, path))
      && (Silent(intended, before, path) ==> At(after, path) == At(before, path))
  }

  lemma OverlayApplies(intended: Value, before: Value)
    ensures AppliedTo(Overlay(intended, before), intended, before)
  {
    forall path: Path
      ensures At(intended, path).Some? && SetLeaf(At(intended, path).value) ==> At(Overlay(intended, before), path) == At(intended, path)
      ensures Silent(intended, before, path) ==> At(Overlay(intended, before), path) == At(before, path)
    {
      if At(intended, path).Some? && SetLeaf(At(intended, path).value) {
        ApplySets(intended, before, path);
      }
      if Silent(intended, before, path) {
        var n :| 0 <= n <= |path| && SilentAfter(intended, before, path, n);
        ApplyKeeps(intended, before, path, n);
      }
    }
  }

  /**
   The create-or-apply step, case by case. A child whose body extends what is intended is
   left alone, whatever else it holds; a missing one is created as intended; any other is
   patched where it differs and nowhere else, and keeps the labels and annotations of others.
   */
  lemma StepSpelledOut(api: Api, i: Intended, owner: string, f: Faults, admit: Value -> Value)
    ensures var r := SSA(api, i, owner, f, admit);
            if f.owner || f.get then r.error.Some? && r.api == api
            else if i.key !in api.store then
              if f.write then r.error.Some? && r.api == api
              else r == Outcome(Api(api.store[i.key := ChildObject(Some(owner), i.labels, i.annotations, admit(i.body))],
                                    api.trace + [Wrote(i.key, i.labels)]), None)
            else if Extends(api.store[i.key].body, i.body) then r == Outcome(api, None)
            else if f.write || !i.typed then r.error.Some? && r.api == api
            else
              var was := api.store[i.key];
              exists body ::
                && AppliedTo(body, i.body, was.body)
                && r == Outcome(Api(api.store[i.key := ChildObject(Some(owner), was.labels + i.labels, was.annotations + i.annotations, admit(body))],
                                    api.trace + [Wrote(i.key, was.labels + i.labels)]), None)
  {
    hide Extends, AppliedTo, Derivative, Overlay;
    if i.key in api.store {
      DriftIff(i.body, api.store[i.key].body);
      OverlayApplies(i.body, api.store[i.key].body);
    }
  }

  /** This leaf stands in the body of this child. */
  predicate Holds(s: Store, key: Key, path: Path, v: Value) {
    key in s && (SetLeaf(v) ==> At(s[key].body, path) == Some(v))
  }

  /** What an intended object sets stands in a child that is in place. */
  lemma InPlaceHolds(s: Store, i: Intended, path: Path)
    requires InPlace(s, i) && At(i.body, path).Some?
    ensures Holds(s, i.key, path, At(i.body, path).value)
  {
    NoDriftExtends(i.body, s[i.key].body, path);
  }

  lemma FieldHolds(s: Store, i: Intended, k: string)
    requires InPlace(s, i) && i.body.Record? && k in i.body.fields
    ensures Holds(s, i.key, [Field(k)], i.body.fields[k])
  {
    AtField1(i.body, k);
    InPlaceHolds(s, i, [Field(k)]);
  }

  lemma Field2Holds(s: Store, i: Intended, k: string, l: string)
    requires InPlace(s, i) && i.body.Record? && k in i.body.fields && i.body.fields[k].Record? && l in i.body.fields[k].fields
    ensures Holds(s, i.key, [Field(k), Field(l)], i.body.fields[k].fields[l])
  {
    AtField2(i.body, k, l);
    InPlaceHolds(s, i, [Field(k), Field(l)]);
  }

  lemma ItemFieldHolds(s: Store, i: Intended, k: string, n: nat, l: string)
    requires InPlace(s, i) && i.body.Record? && k in i.body.fields && i.body.fields[k].List? && n < |i.body.fields[k].items|
    requires i.body.fields[k].items[n].Record? && l in i.body.fields[k].items[n].fields
    ensures Holds(s, i.key, [Field(k), Index(n), Field(l)], i.body.fields[k].items[n].fields[l])
  {
    AtItemField(i.body, k, n, l);
    InPlaceHolds(s, i, [Field(k), Index(n), Field(l)]);
  }
}
