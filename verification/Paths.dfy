/**
 Values by their paths: what stands where. Drift and apply are told here by the
 values at paths alone, field by field and position by position.
 */
module Paths {
  import opened Wrappers
  import opened Values

  datatype Edge = Field(name: string) | Index(i: nat)

  type Path = seq<Edge>

  /** The value at a path, if the path leads anywhere. */
  function At(v: Value, path: Path): Option<Value>
    decreases |path|
  {
    if path == [] then Some(v)
    else
      match (path[0], v)
      case (Field(k), Record(fields)) => if k in fields then At(fields[k], path[1..]) else None
      case (Index(i), List(items)) => if i < |items| then At(items[i], path[1..]) else None
      case _ => None
  }

  /** A number other than zero or a text other than the empty one. */
  predicate SetLeaf(v: Value) {
    match v
    case Num(n) => n != 0
    case Str(s) => s != ""
    case _ => false
  }

  /** What the intended value asks of the current one at a path: its leaf, or, where it sets none, that the path is there. */
  predicate MetAt(intended: Value, current: Value, path: Path) {
    match At(intended, path)
    case None => true
    case Some(v) =>
      && (SetLeaf(v) ==> At(current, path) == Some(v))
      && (path != [] ==> At(current, path).Some?)
  }

  /** Every leaf that the intended value sets stands at its path in the current one, and every path of it exists there. */
  ghost predicate Extends(current: Value, intended: Value) {
    forall path: Path :: MetAt(intended, current, path)
  }

  lemma ExtendsAt(current: Value, intended: Value, path: Path)
    requires Extends(current, intended)
    ensures MetAt(intended, current, path)
  {
  }

  lemma AtField(v: Value, name: string, path: Path)
    ensures At(v, [Field(name)] + path) == if v.Record? && name in v.fields then At(v.fields[name], path) else None
  {
    assert ([Field(name)] + path)[1..] == path;
  }

  lemma AtIndex(v: Value, i: nat, path: Path)
    ensures At(v, [Index(i)] + path) == if v.List? && i < |v.items| then At(v.items[i], path) else None
  {
    assert ([Index(i)] + path)[1..] == path;
  }

  lemma AtField1(v: Value, k: string)
    requires v.Record? && k in v.fields
    ensures At(v, [Field(k)]) == Some(v.fields[k])
  {
    AtField(v, k, []);
    assert [Field(k)] + [] == [Field(k)];
  }

  lemma AtField2(v: Value, k: string, l: string)
    requires v.Record? && k in v.fields && v.fields[k].Record? && l in v.fields[k].fields
    ensures At(v, [Field(k), Field(l)]) == Some(v.fields[k].fields[l])
  {
    AtField(v, k, [Field(l)]);
    AtField1(v.fields[k], l);
    assert [Field(k)] + [Field(l)] == [Field(k), Field(l)];
  }

  lemma AtItemField(v: Value, k: string, i: nat, l: string)
    requires v.Record? && k in v.fields && v.fields[k].List? && i < |v.fields[k].items|
    requires v.fields[k].items[i].Record? && l in v.fields[k].items[i].fields
    ensures At(v, [Field(k), Index(i), Field(l)]) == Some(v.fields[k].items[i].fields[l])
  {
    AtField(v, k, [Index(i), Field(l)]);
    AtIndex(v.fields[k], i, [Field(l)]);
    AtField1(v.fields[k].items[i], l);
    assert [Field(k)] + [Index(i), Field(l)] == [Field(k), Index(i), Field(l)];
    assert [Index(i)] + [Field(l)] == [Index(i), Field(l)];
  }

  /** No drift is reported only if the current value extends the intended one. */
  lemma {:induction false} NoDriftExtends(intended: Value, current: Value, path: Path)
    requires Derivative(intended, current)
    ensures MetAt(intended, current, path)
    decreases |path|
  {
    if path != [] && At(intended, path).Some? {
      match (path[0], intended)
      case (Field(k), Record(fields)) =>
        assert k in current.fields;
        NoDriftExtends(fields[k], current.fields[k], path[1..]);
      case (Index(i), List(items)) =>
        NoDriftExtends(items[i], current.items[i], path[1..]);
    }
  }

  /** And whenever it does. */
  lemma {:induction false} ExtendsNoDrift(intended: Value, current: Value)
    requires Extends(current, intended)
    ensures Derivative(intended, current)
  {
    if Unset(intended) {
      return;
    }
    ExtendsAt(current, intended, []);
    match intended
    case Record(fields) =>
      var some :| some in fields;
      ExtendsField(current, intended, some);
      forall k | k in fields ensures k in current.fields && Derivative(fields[k], current.fields[k]) {
        ExtendsField(current, intended, k);
        ExtendsNoDrift(fields[k], current.fields[k]);
      }
    case List(items) =>
      ExtendsItem(current, intended, |items| - 1);
      forall i | 0 <= i < |items| ensures Derivative(items[i], current.items[i]) {
        ExtendsItem(current, intended, i);
        ExtendsNoDrift(items[i], current.items[i]);
      }
    case _ =>
  }

  lemma ExtendsField(current: Value, intended: Value, k: string)
    requires Extends(current, intended) && intended.Record? && k in intended.fields
    ensures current.Record? && k in current.fields && Extends(current.fields[k], intended.fields[k])
  {
    ExtendsAt(current, intended, [Field(k)]);
    assert [Field(k)] + [] == [Field(k)];
    AtField(intended, k, []);
    AtField(current, k, []);
    forall path: Path ensures MetAt(intended.fields[k], current.fields[k], path) {
      ExtendsAt(current, intended, [Field(k)] + path);
      AtField(intended, k, path);
      AtField(current, k, path);
    }
  }

  lemma ExtendsItem(current: Value, intended: Value, i: nat)
    requires Extends(current, intended) && intended.List? && i < |intended.items|
    ensures current.List? && i < |current.items| && Extends(current.items[i], intended.items[i])
  {
    ExtendsAt(current, intended, [Index(i)]);
    assert [Index(i)] + [] == [Index(i)];
    AtIndex(intended, i, []);
    AtIndex(current, i, []);
    forall path: Path ensures MetAt(intended.items[i], current.items[i], path) {
      ExtendsAt(current, intended, [Index(i)] + path);
      AtIndex(intended, i, path);
      AtIndex(current, i, path);
    }
  }

  /** Drift is reported exactly when some path of the intended value is missing or has another leaf in the current one. */
  lemma DriftIff(intended: Value, current: Value)
    ensures Drift(intended, current) <==> !Extends(current, intended)
  {
    if Derivative(intended, current) {
      forall path: Path ensures MetAt(intended, current, path) {
        NoDriftExtends(intended, current, path);
      }
    } else if Extends(current, intended) {
      ExtendsNoDrift(intended, current);
    }
  }

  // ---- Apply -------------------------------------------------------------------

  /** Two values that an apply would descend into together. */
  predicate SameContainer(a: Value, b: Value) {
    (a.Record? && b.Record?) || (a.List? && b.List?)
  }

  /**
   The intended value says nothing at a path: after n edges it is unset or leads no
   further, and up to there both values are containers of one kind.
   */
  predicate SilentAfter(intended: Value, current: Value, path: Path, n: nat)
    requires n <= |path|
  {
    && (forall m :: 0 <= m < n ==>
          && At(intended, path[..m]).Some? && At(current, path[..m]).Some?
          && SameContainer(At(intended, path[..m]).value, At(current, path[..m]).value))
    && match At(intended, path[..n])
       case None => true
       case Some(v) => Unset(v) && At(current, path[..n]).Some?
  }

  ghost predicate Silent(intended: Value, current: Value, path: Path) {
    exists n :: 0 <= n <= |path| && SilentAfter(intended, current, path, n)
  }

  /** After an apply every set leaf of the intended value stands at its path. */
  lemma {:induction false} ApplySets(intended: Value, current: Value, path: Path)
    requires At(intended, path).Some? && SetLeaf(At(intended, path).value)
    ensures At(Overlay(intended, current), path) == At(intended, path)
  {
    ApplyRemovesDrift(intended, current);
    NoDriftExtends(intended, Overlay(intended, current), path);
  }

  /** And where it says nothing the current value stays. */
  lemma {:induction false} ApplyKeeps(intended: Value, current: Value, path: Path, n: nat)
    requires n <= |path| && SilentAfter(intended, current, path, n)
    ensures At(Overlay(intended, current), path) == At(current, path)
    decreases |path|
  {
    if n == 0 || Unset(intended) {
      assert path[..0] == [];
      return;
    }
    assert path[..0] == [];
    assert SameContainer(intended, current);
    assert path[..1] == [path[0]];
    var rest := path[1..];
    match (path[0], intended)
    case (Field(k), Record(fields)) =>
      if k in fields {
        forall m | 1 <= m <= n
          ensures At(intended, path[..m]) == At(fields[k], rest[..m - 1])
          ensures At(current, path[..m]) == if k in current.fields then At(current.fields[k], rest[..m - 1]) else None
        {
          assert path[..m] == [Field(k)] + rest[..m - 1];
          AtField(intended, k, rest[..m - 1]);
          AtField(current, k, rest[..m - 1]);
        }
        if k in current.fields {
          forall m | 0 <= m < n - 1
            ensures At(fields[k], rest[..m]).Some? && At(current.fields[k], rest[..m]).Some?
            ensures SameContainer(At(fields[k], rest[..m]).value, At(current.fields[k], rest[..m]).value)
          {
            assert At(intended, path[..m + 1]).Some?;
          }
          ApplyKeeps(fields[k], current.fields[k], rest, n - 1);
        }
      }
    case (Index(i), List(items)) =>
      if i < |items| {
        forall m | 1 <= m <= n
          ensures At(intended, path[..m]) == At(items[i], rest[..m - 1])
          ensures At(current, path[..m]) == if i < |current.items| then At(current.items[i], rest[..m - 1]) else None
        {
          assert path[..m] == [Index(i)] + rest[..m - 1];
          AtIndex(intended, i, rest[..m - 1]);
          AtIndex(current, i, rest[..m - 1]);
        }
        if i < |current.items| {
          forall m | 0 <= m < n - 1
            ensures At(items[i], rest[..m]).Some? && At(current.items[i], rest[..m]).Some?
            ensures SameContainer(At(items[i], rest[..m]).value, At(current.items[i], rest[..m]).value)
          {
            assert At(intended, path[..m + 1]).Some?;
          }
          ApplyKeeps(items[i], current.items[i], rest, n - 1);
        }
      }
    case _ =>
  }
}
