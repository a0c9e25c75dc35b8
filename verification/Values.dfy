/**
 Child specifications as values, the drift test of the operator and the
 server-side apply that repairs it. Unset parts of an intended value (null, zero,
 the empty string, list or record) say nothing about the current one.
 */
module Values {
  datatype Value =
    | Null
    | Num(n: int)
    | Str(s: string)
    | List(items: seq<Value>)
    | Record(fields: map<string, Value>)

  predicate Unset(v: Value) {
    match v
    case Null => true
    case Num(n) => n == 0
    case Str(s) => s == ""
    case List(items) => items == []
    case Record(fields) => fields == map[]
  }

  /** Everything that the intended value sets, the current one has. */
  predicate Derivative(intended: Value, current: Value) {
    Unset(intended) ||
    match intended
    case List(items) =>
      current.List? && |items| <= |current.items| && forall i :: 0 <= i < |items| ==> Derivative(items[i], current.items[i])
    case Record(fields) =>
      current.Record? && forall k :: k in fields ==> k in current.fields && Derivative(fields[k], current.fields[k])
    case _ => intended == current
  }

  predicate Drift(intended: Value, current: Value) {
    !Derivative(intended, current)
  }

  /** The result of applying the intended value with force: what it sets wins, the rest stays. */
  function Overlay(intended: Value, current: Value): Value {
    if Unset(intended) then current
    else
      match intended
      case List(items) => if current.List? then List(OverlayItems(items, current.items)) else intended
      case Record(fields) =>
        if !current.Record? then intended
        else Record(map k | k in fields.Keys + current.fields.Keys ::
                      if k !in fields then current.fields[k]
                      else if k !in current.fields then fields[k]
                      else Overlay(fields[k], current.fields[k]))
      case _ => intended
  }

  function OverlayItems(items: seq<Value>, current: seq<Value>): (r: seq<Value>)
    ensures |r| == if |items| < |current| then |current| else |items|
    ensures forall i :: 0 <= i < |r| ==>
              r[i] == if i >= |items| then current[i] else if i >= |current| then items[i] else Overlay(items[i], current[i])
  {
    if items == [] then current
    else if current == [] then items
    else [Overlay(items[0], current[0])] + OverlayItems(items[1..], current[1..])
  }

  lemma {:induction false} DerivativeOfItself(v: Value)
    ensures Derivative(v, v)
  {
    match v
    case List(items) =>
      forall i | 0 <= i < |items| ensures Derivative(items[i], items[i]) {
        DerivativeOfItself(items[i]);
      }
    case Record(fields) =>
      forall k | k in fields ensures Derivative(fields[k], fields[k]) {
        DerivativeOfItself(fields[k]);
      }
    case _ =>
  }

  /** Applying removes the drift, whatever was there before. */
  lemma {:induction false} ApplyRemovesDrift(intended: Value, current: Value)
    ensures Derivative(intended, Overlay(intended, current))
  {
    if Unset(intended) {
      return;
    }
    DerivativeOfItself(intended);
    match intended
    case List(items) =>
      if current.List? {
        forall i | 0 <= i < |items| ensures Derivative(items[i], OverlayItems(items, current.items)[i]) {
          if i < |current.items| {
            ApplyRemovesDrift(items[i], current.items[i]);
          } else {
            DerivativeOfItself(items[i]);
          }
        }
      }
    case Record(fields) =>
      if current.Record? {
        forall k | k in fields ensures Derivative(fields[k], Overlay(intended, current).fields[k]) {
          if k in current.fields {
            ApplyRemovesDrift(fields[k], current.fields[k]);
          } else {
            DerivativeOfItself(fields[k]);
          }
        }
      }
    case _ =>
  }

  /** Drift is reported exactly when an apply would change the value. */
  lemma {:induction false} DriftIffApplyChanges(intended: Value, current: Value)
    ensures Drift(intended, current) <==> Overlay(intended, current) != current
  {
    if Derivative(intended, current) {
      NoDriftNoChange(intended, current);
    } else {
      ApplyRemovesDrift(intended, current);
    }
  }

  lemma {:induction false} NoDriftNoChange(intended: Value, current: Value)
    requires Derivative(intended, current)
    ensures Overlay(intended, current) == current
  {
    if Unset(intended) {
      return;
    }
    match intended
    case List(items) =>
      forall i | 0 <= i < |items| ensures Overlay(items[i], current.items[i]) == current.items[i] {
        NoDriftNoChange(items[i], current.items[i]);
      }
      assert OverlayItems(items, current.items) == current.items;
    case Record(fields) =>
      forall k | k in fields ensures Overlay(fields[k], current.fields[k]) == current.fields[k] {
        NoDriftNoChange(fields[k], current.fields[k]);
      }
      assert Overlay(intended, current).fields == current.fields;
    case _ =>
  }

  lemma {:induction false} DerivativeTransitive(a: Value, b: Value, c: Value)
    requires Derivative(a, b) && Derivative(b, c)
    ensures Derivative(a, c)
  {
    if Unset(a) {
      return;
    }
    match a
    case List(items) =>
      forall i | 0 <= i < |items| ensures Derivative(items[i], c.items[i]) {
        DerivativeTransitive(items[i], b.items[i], c.items[i]);
      }
    case Record(fields) =>
      forall k | k in fields ensures Derivative(fields[k], c.fields[k]) {
        DerivativeTransitive(fields[k], b.fields[k], c.fields[k]);
      }
    case _ =>
  }

  /** Defaulting only fills what is unset: it never undoes a part of an intended value. */
  ghost predicate KeepsIntended(admit: Value -> Value) {
    forall i: Value, v: Value :: Derivative(i, v) ==> Derivative(i, admit(v))
  }

  /** Filling what a value leaves unset from any defaults is such a defaulting. */
  lemma DefaultsKeepIntended(defaults: Value)
    ensures KeepsIntended((v: Value) => Overlay(v, defaults))
  {
    var admit := (v: Value) => Overlay(v, defaults);
    forall i: Value, v: Value | Derivative(i, v) ensures Derivative(i, admit(v)) {
      ApplyRemovesDrift(v, defaults);
      DerivativeTransitive(i, v, Overlay(v, defaults));
    }
  }
}
