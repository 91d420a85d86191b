/** JSON documents, Python's equality on them, and the structural diff `_walk`. */
module OpenApiDiff {
  import opened Basics

  datatype Json =
    | Null
    | Bool(value: bool)
    | Num(number: real)
    | Str(text: string)
    | Arr(items: seq<Json>)
    | Obj(fields: map<string, Json>)

  /** Python's `True == 1` and `False == 0`. */
  function Numeric(j: Json): Option<real> {
    match j
    case Bool(b) => Some(if b then 1.0 else 0.0)
    case Num(n) => Some(n)
    case _ => None
  }

  /** `a == b` */
  predicate PyEq(a: Json, b: Json)
    decreases a
  {
    match a
    case Null => b.Null?
    case Bool(_) => Numeric(a) == Numeric(b)
    case Num(_) => Numeric(a) == Numeric(b)
    case Str(t) => b == Str(t)
    case Arr(items) =>
      b.Arr? && |items| == |b.items| && forall i :: 0 <= i < |items| ==> PyEq(items[i], b.items[i])
    case Obj(fields) =>
      b.Obj? && fields.Keys == b.fields.Keys && forall k :: k in fields ==> PyEq(fields[k], b.fields[k])
  }

  lemma {:induction false} PyEqReflexive(a: Json)
    ensures PyEq(a, a)
  {
    match a
    case Arr(items) =>
      forall i | 0 <= i < |items| ensures PyEq(items[i], items[i]) { PyEqReflexive(items[i]); }
    case Obj(fields) =>
      forall k | k in fields ensures PyEq(fields[k], fields[k]) { PyEqReflexive(fields[k]); }
    case _ =>
  }

  lemma {:induction false} PyEqSymmetric(a: Json, b: Json)
    ensures PyEq(a, b) == PyEq(b, a)
    decreases a
  {
    match a
    case Arr(items) =>
      if b.Arr? && |items| == |b.items| {
        forall i | 0 <= i < |items| ensures PyEq(items[i], b.items[i]) == PyEq(b.items[i], items[i]) {
          PyEqSymmetric(items[i], b.items[i]);
        }
      }
    case Obj(fields) =>
      if b.Obj? && fields.Keys == b.fields.Keys {
        forall k | k in fields ensures PyEq(fields[k], b.fields[k]) == PyEq(b.fields[k], fields[k]) {
          PyEqSymmetric(fields[k], b.fields[k]);
        }
      }
    case _ =>
  }

  // ---- what Python's equality is ----

  /** The document with booleans written as numbers. */
  function Plain(a: Json): Json {
    match a
    case Bool(b) => Num(if b then 1.0 else 0.0)
    case Arr(items) => Arr(seq(|items|, i requires 0 <= i < |items| => Plain(items[i])))
    case Obj(fields) => Obj(map k | k in fields :: Plain(fields[k]))
    case _ => a
  }

  /** Python's equality is equality up to writing booleans as numbers. */
  lemma {:induction false} PyEqIsPlainEquality(a: Json, b: Json)
    ensures PyEq(a, b) <==> Plain(a) == Plain(b)
    decreases a, 1
  {
    if a.Arr? && b.Arr? && |a.items| == |b.items| {
      ArraysPlainEqual(a.items, b.items);
    } else if a.Obj? && b.Obj? && a.fields.Keys == b.fields.Keys {
      ObjectsPlainEqual(a.fields, b.fields);
    } else if a.Arr? && b.Arr? {
      assert |Plain(a).items| == |a.items| && |Plain(b).items| == |b.items|;
    } else if a.Obj? && b.Obj? {
      assert Plain(a).fields.Keys == a.fields.Keys && Plain(b).fields.Keys == b.fields.Keys;
    }
  }

  lemma {:induction false} ArraysPlainEqual(a: seq<Json>, b: seq<Json>)
    requires |a| == |b|
    ensures (forall i :: 0 <= i < |a| ==> PyEq(a[i], b[i])) <==> Plain(Arr(a)) == Plain(Arr(b))
    decreases Arr(a), 0
  {
    var x, y := Plain(Arr(a)).items, Plain(Arr(b)).items;
    forall i | 0 <= i < |a|
      ensures PyEq(a[i], b[i]) <==> x[i] == y[i]
    {
      PyEqIsPlainEquality(a[i], b[i]);
    }
    assert x == y <==> forall i :: 0 <= i < |a| ==> x[i] == y[i];
  }

  lemma {:induction false} ObjectsPlainEqual(a: map<string, Json>, b: map<string, Json>)
    requires a.Keys == b.Keys
    ensures (forall k :: k in a ==> PyEq(a[k], b[k])) <==> Plain(Obj(a)) == Plain(Obj(b))
    decreases Obj(a), 0
  {
    var x, y := Plain(Obj(a)).fields, Plain(Obj(b)).fields;
    forall k | k in a
      ensures PyEq(a[k], b[k]) <==> x[k] == y[k]
    {
      PyEqIsPlainEquality(a[k], b[k]);
    }
    assert x == y <==> forall k :: k in a ==> x[k] == y[k];
  }

  predicate NoBooleans(a: Json) {
    match a
    case Bool(_) => false
    case Arr(items) => forall i :: 0 <= i < |items| ==> NoBooleans(items[i])
    case Obj(fields) => forall k :: k in fields ==> NoBooleans(fields[k])
    case _ => true
  }

  /** Nothing is rewritten exactly in documents without booleans. */
  lemma {:induction false} PlainIsIdentityIff(a: Json)
    ensures Plain(a) == a <==> NoBooleans(a)
  {
    match a
    case Arr(items) =>
      forall i | 0 <= i < |items| ensures Plain(items[i]) == items[i] <==> NoBooleans(items[i]) { PlainIsIdentityIff(items[i]); }
      var x := Plain(a).items;
      assert x == items <==> forall i :: 0 <= i < |items| ==> x[i] == items[i];
    case Obj(fields) =>
      forall k | k in fields ensures Plain(fields[k]) == fields[k] <==> NoBooleans(fields[k]) { PlainIsIdentityIff(fields[k]); }
      var x := Plain(a).fields;
      assert x == fields <==> forall k :: k in fields ==> x[k] == fields[k];
    case _ =>
  }

  /** On documents without booleans it is equality. */
  lemma PyEqIsEquality(a: Json, b: Json)
    requires NoBooleans(a) && NoBooleans(b)
    ensures PyEq(a, b) <==> a == b
  {
    PyEqIsPlainEquality(a, b);
    PlainIsIdentityIff(a);
    PlainIsIdentityIff(b);
  }

  // ---- the diff ----

  datatype Kind = Removed | Added | Changed

  /**
    One change. `path` is the rendered path of the source; `keys` is the same position as a sequence of
    keys, relative to the node the diff started at, because keys may themselves contain slashes. An
    absent value is None in the source, which is what JSON null becomes there.
   */
  datatype SpecChange = SpecChange(keys: seq<string>, path: string, kind: Kind, before: Json, after: Json)

  /** Moves changes of a child to its parent. */
  function Under(key: string, changes: seq<SpecChange>): (r: seq<SpecChange>)
    ensures |r| == |changes|
    ensures forall i :: 0 <= i < |r| ==> r[i] == changes[i].(keys := [key] + changes[i].keys)
  {
    if changes == [] then []
    else [changes[0].(keys := [key] + changes[0].keys)] + Under(key, changes[1..])
  }

  function RemovedAt(path: string, key: string, value: Json): SpecChange {
    SpecChange([key], path + "/" + key, Removed, value, Null)
  }

  function AddedAt(path: string, key: string, value: Json): SpecChange {
    SpecChange([key], path + "/" + key, Added, Null, value)
  }

  function RemovedOf(fields: map<string, Json>, ks: seq<string>, path: string): seq<SpecChange>
    requires forall i :: 0 <= i < |ks| ==> ks[i] in fields
  {
    if ks == [] then [] else [RemovedAt(path, ks[0], fields[ks[0]])] + RemovedOf(fields, ks[1..], path)
  }

  function AddedOf(fields: map<string, Json>, ks: seq<string>, path: string): seq<SpecChange>
    requires forall i :: 0 <= i < |ks| ==> ks[i] in fields
  {
    if ks == [] then [] else [AddedAt(path, ks[0], fields[ks[0]])] + AddedOf(fields, ks[1..], path)
  }

  /** The changes inside the common keys `ks`. */
  function CommonOf(before: Json, after: Json, ks: seq<string>, path: string): seq<SpecChange>
    requires before.Obj? && after.Obj?
    requires forall i :: 0 <= i < |ks| ==> ks[i] in before.fields && ks[i] in after.fields
    decreases before, 0, |ks|
  {
    if ks == [] then []
    else
      Under(ks[0], Walk(before.fields[ks[0]], after.fields[ks[0]], path + "/" + ks[0]))
      + CommonOf(before, after, ks[1..], path)
  }

  /** The specification of `_walk`. */
  function Walk(before: Json, after: Json, path: string): seq<SpecChange>
    decreases before, 1, 0
  {
    if before.Obj? && after.Obj? then
      var b, a := before.fields.Keys, after.fields.Keys;
      RemovedOf(before.fields, Sorted(b - a), path)
      + AddedOf(after.fields, Sorted(a - b), path)
      + CommonOf(before, after, Sorted(b * a), path)
    else if PyEq(before, after) then []
    else [SpecChange([], if path == "" then "/" else path, Changed, before, after)]
  }

  method AppendRemoved(fields: map<string, Json>, ks: seq<string>, path: string) returns (changes: seq<SpecChange>)
    requires forall i :: 0 <= i < |ks| ==> ks[i] in fields
    ensures changes == RemovedOf(fields, ks, path)
  {
    changes := [];
    for i := 0 to |ks|
      invariant changes + RemovedOf(fields, ks[i..], path) == RemovedOf(fields, ks, path)
    {
      changes := changes + [RemovedAt(path, ks[i], fields[ks[i]])];
    }
  }

  method AppendAdded(fields: map<string, Json>, ks: seq<string>, path: string) returns (changes: seq<SpecChange>)
    requires forall i :: 0 <= i < |ks| ==> ks[i] in fields
    ensures changes == AddedOf(fields, ks, path)
  {
    changes := [];
    for i := 0 to |ks|
      invariant changes + AddedOf(fields, ks[i..], path) == AddedOf(fields, ks, path)
    {
      changes := changes + [AddedAt(path, ks[i], fields[ks[i]])];
    }
  }

  method ExtendCommon(before: Json, after: Json, ks: seq<string>, path: string) returns (changes: seq<SpecChange>)
    requires before.Obj? && after.Obj?
    requires forall i :: 0 <= i < |ks| ==> ks[i] in before.fields && ks[i] in after.fields
    ensures changes == CommonOf(before, after, ks, path)
    decreases before, 0
  {
    changes := [];
    for i := 0 to |ks|
      invariant changes + CommonOf(before, after, ks[i..], path) == CommonOf(before, after, ks, path)
    {
      var inner := WalkDocuments(before.fields[ks[i]], after.fields[ks[i]], path + "/" + ks[i]);
      changes := changes + Under(ks[i], inner);
    }
  }

  /** `_walk` */
  method WalkDocuments(before: Json, after: Json, path: string) returns (changes: seq<SpecChange>)
    ensures changes == Walk(before, after, path)
    decreases before, 1
  {
    changes := [];
    if before.Obj? && after.Obj? {
      var b, a := before.fields.Keys, after.fields.Keys;
      var removed := AppendRemoved(before.fields, Sorted(b - a), path);
      var added := AppendAdded(after.fields, Sorted(a - b), path);
      var common := ExtendCommon(before, after, Sorted(b * a), path);
      changes := removed + added + common;
    } else if !PyEq(before, after) {
      changes := [SpecChange([], if path == "" then "/" else path, Changed, before, after)];
    }
  }
}
