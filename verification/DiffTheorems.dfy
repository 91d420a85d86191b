/** The structural diff is a correct, minimal and reversible patch. */
module DiffTheorems {
  import opened Basics
  import opened OpenApiDiff

  // ---- patching ----

  /** The document after one change, whose position inside `t` is `keys`. */
  function ApplyAt(t: Json, keys: seq<string>, c: SpecChange): Json
    decreases |keys|
  {
    if keys == [] then c.after
    else if !t.Obj? then t
    else if |keys| == 1 && c.kind == Removed then Obj(t.fields - {keys[0]})
    else if |keys| == 1 && c.kind == Added then Obj(t.fields[keys[0] := c.after])
    else if keys[0] in t.fields then Obj(t.fields[keys[0] := ApplyAt(t.fields[keys[0]], keys[1..], c)])
    else t
  }

  /** The document after a list of changes, in order. */
  function ApplyAll(t: Json, changes: seq<SpecChange>): Json
    decreases |changes|
  {
    if changes == [] then t else ApplyAll(ApplyAt(t, changes[0].keys, changes[0]), changes[1..])
  }

  lemma {:induction false} ApplyConcat(t: Json, xs: seq<SpecChange>, ys: seq<SpecChange>)
    ensures ApplyAll(t, xs + ys) == ApplyAll(ApplyAll(t, xs), ys)
    decreases |xs|
  {
    if xs == [] {
      assert xs + ys == ys;
    } else {
      assert (xs + ys)[1..] == xs[1..] + ys;
      ApplyConcat(ApplyAt(t, xs[0].keys, xs[0]), xs[1..], ys);
    }
  }

  /** Only a changed value sits at the node itself; removals and additions name a key. */
  predicate Keyed(changes: seq<SpecChange>) {
    forall i :: 0 <= i < |changes| && changes[i].keys == [] ==> changes[i].kind == Changed
  }

  lemma {:induction false} CommonIsKeyed(before: Json, after: Json, ks: seq<string>, path: string)
    requires before.Obj? && after.Obj?
    requires forall i :: 0 <= i < |ks| ==> ks[i] in before.fields && ks[i] in after.fields
    ensures forall i :: 0 <= i < |CommonOf(before, after, ks, path)| ==>
                          |CommonOf(before, after, ks, path)[i].keys| >= 1 && CommonOf(before, after, ks, path)[i].keys[0] in ks
    decreases |ks|
  {
    if ks != [] {
      CommonIsKeyed(before, after, ks[1..], path);
    }
  }

  lemma {:induction false} RemovedIsKeyed(fields: map<string, Json>, ks: seq<string>, path: string)
    requires forall i :: 0 <= i < |ks| ==> ks[i] in fields
    ensures |RemovedOf(fields, ks, path)| == |ks|
    ensures forall i :: 0 <= i < |ks| ==> RemovedOf(fields, ks, path)[i] == RemovedAt(path, ks[i], fields[ks[i]])
  {
    if ks != [] {
      RemovedIsKeyed(fields, ks[1..], path);
    }
  }

  lemma {:induction false} AddedIsKeyed(fields: map<string, Json>, ks: seq<string>, path: string)
    requires forall i :: 0 <= i < |ks| ==> ks[i] in fields
    ensures |AddedOf(fields, ks, path)| == |ks|
    ensures forall i :: 0 <= i < |ks| ==> AddedOf(fields, ks, path)[i] == AddedAt(path, ks[i], fields[ks[i]])
  {
    if ks != [] {
      AddedIsKeyed(fields, ks[1..], path);
    }
  }

  lemma WalkIsKeyed(before: Json, after: Json, path: string)
    ensures Keyed(Walk(before, after, path))
  {
    if before.Obj? && after.Obj? {
      var b, a := before.fields.Keys, after.fields.Keys;
      RemovedIsKeyed(before.fields, Sorted(b - a), path);
      AddedIsKeyed(after.fields, Sorted(a - b), path);
      CommonIsKeyed(before, after, Sorted(b * a), path);
    }
  }

  /** Changes below a key patch that key's value and nothing else. */
  lemma {:induction false} ApplyUnder(m: map<string, Json>, key: string, changes: seq<SpecChange>)
    requires key in m && Keyed(changes)
    ensures ApplyAll(Obj(m), Under(key, changes)) == Obj(m[key := ApplyAll(m[key], changes)])
    decreases |changes|
  {
    if changes == [] {
      assert m[key := m[key]] == m;
    } else {
      var c := changes[0];
      var c' := Under(key, changes)[0];
      assert c'.keys[1..] == c.keys;
      ApplyAtIgnoresKeys(m[key], c.keys, c, c');
      var m' := m[key := ApplyAt(m[key], c.keys, c)];
      assert ApplyAt(Obj(m), c'.keys, c') == Obj(m');
      assert Under(key, changes)[1..] == Under(key, changes[1..]);
      ApplyUnder(m', key, changes[1..]);
      assert m'[key := ApplyAll(m'[key], changes[1..])] == m[key := ApplyAll(m[key], changes)];
    }
  }

  lemma {:induction false} ApplyAtIgnoresKeys(t: Json, keys: seq<string>, c: SpecChange, d: SpecChange)
    requires c.kind == d.kind && c.after == d.after
    ensures ApplyAt(t, keys, c) == ApplyAt(t, keys, d)
    decreases |keys|
  {
    if keys != [] && t.Obj? && keys[0] in t.fields {
      ApplyAtIgnoresKeys(t.fields[keys[0]], keys[1..], c, d);
    }
  }

  lemma {:induction false} ApplyRemoved(m: map<string, Json>, fields: map<string, Json>, ks: seq<string>, path: string)
    requires forall i :: 0 <= i < |ks| ==> ks[i] in fields
    ensures ApplyAll(Obj(m), RemovedOf(fields, ks, path)) == Obj(m - set k | k in ks)
    decreases |ks|
  {
    if ks == [] {
      assert m - (set k | k in ks) == m;
    } else {
      ApplyRemoved(m - {ks[0]}, fields, ks[1..], path);
      assert m - {ks[0]} - (set k | k in ks[1..]) == m - set k | k in ks;
    }
  }

  /** The fields with the given keys. */
  function Pick(fields: map<string, Json>, ks: seq<string>): map<string, Json> {
    map k | k in fields && k in ks :: fields[k]
  }

  lemma {:induction false} ApplyAdded(m: map<string, Json>, fields: map<string, Json>, ks: seq<string>, path: string)
    requires forall i :: 0 <= i < |ks| ==> ks[i] in fields
    ensures ApplyAll(Obj(m), AddedOf(fields, ks, path)) == Obj(m + Pick(fields, ks))
    decreases |ks|
  {
    if ks == [] {
      assert m + Pick(fields, ks) == m;
    } else {
      var m' := m[ks[0] := fields[ks[0]]];
      ApplyAdded(m', fields, ks[1..], path);
      assert m' + Pick(fields, ks[1..]) == m + Pick(fields, ks);
    }
  }

  function Patched(before: Json, after: Json, path: string): Json {
    ApplyAll(before, Walk(before, after, path))
  }

  /** The changes inside the common keys patch each of them with its own diff. */
  lemma {:induction false} ApplyCommon(m: map<string, Json>, before: Json, after: Json, ks: seq<string>, path: string)
    requires before.Obj? && after.Obj?
    requires forall i :: 0 <= i < |ks| ==> ks[i] in before.fields && ks[i] in after.fields && ks[i] in m && m[ks[i]] == before.fields[ks[i]]
    requires forall i, j :: 0 <= i < j < |ks| ==> ks[i] != ks[j]
    ensures var r := ApplyAll(Obj(m), CommonOf(before, after, ks, path));
            && r.Obj? && r.fields.Keys == m.Keys
            && forall k :: k in m ==>
                 r.fields[k] == if k in ks && k in before.fields && k in after.fields
                                then Patched(before.fields[k], after.fields[k], path + "/" + k) else m[k]
    decreases |ks|
  {
    if ks != [] {
      var k := ks[0];
      ApplyFirstCommon(m, before, after, ks, path);
      ApplyCommon(m[k := Patched(before.fields[k], after.fields[k], path + "/" + k)], before, after, ks[1..], path);
      assert k !in ks[1..] && forall l :: l in ks <==> l == k || l in ks[1..];
    }
  }

  lemma ApplyFirstCommon(m: map<string, Json>, before: Json, after: Json, ks: seq<string>, path: string)
    requires before.Obj? && after.Obj? && ks != []
    requires forall i :: 0 <= i < |ks| ==> ks[i] in before.fields && ks[i] in after.fields
    requires ks[0] in m && m[ks[0]] == before.fields[ks[0]]
    ensures var k := ks[0];
            ApplyAll(Obj(m), CommonOf(before, after, ks, path)) ==
            ApplyAll(Obj(m[k := Patched(before.fields[k], after.fields[k], path + "/" + k)]), CommonOf(before, after, ks[1..], path))
  {
    var k := ks[0];
    var inner := Walk(before.fields[k], after.fields[k], path + "/" + k);
    WalkIsKeyed(before.fields[k], after.fields[k], path + "/" + k);
    ApplyUnder(m, k, inner);
    ApplyConcat(Obj(m), Under(k, inner), CommonOf(before, after, ks[1..], path));
  }

  /** The fields of the patched object before its common keys are patched. */
  function Reshaped(before: map<string, Json>, after: map<string, Json>): (m: map<string, Json>)
    ensures m.Keys == after.Keys
    ensures forall k :: k in after ==> m[k] == if k in before then before[k] else after[k]
  {
    map k | k in after :: if k in before then before[k] else after[k]
  }

  /** Dropping the keys that are gone and adding those that arrived gives the new keys. */
  lemma ReshapedBySteps(before: map<string, Json>, after: map<string, Json>, gone: seq<string>, arrived: seq<string>)
    requires forall k :: k in gone <==> k in before && k !in after
    requires forall k :: k in arrived <==> k in after && k !in before
    ensures before - (set k | k in gone) + Pick(after, arrived) == Reshaped(before, after)
  {
    var r := before - (set k | k in gone) + Pick(after, arrived);
    assert forall k :: k in r <==> k in after;
  }

  lemma ApplyShape(before: Json, after: Json, path: string)
    requires before.Obj? && after.Obj?
    ensures var b, a := before.fields.Keys, after.fields.Keys;
            ApplyAll(before, RemovedOf(before.fields, Sorted(b - a), path) + AddedOf(after.fields, Sorted(a - b), path))
            == Obj(Reshaped(before.fields, after.fields))
  {
    var b, a := before.fields.Keys, after.fields.Keys;
    var gone, arrived := Sorted(b - a), Sorted(a - b);
    var removed, added := RemovedOf(before.fields, gone, path), AddedOf(after.fields, arrived, path);
    var kept := before.fields - set k | k in gone;
    calc {
      ApplyAll(before, removed + added);
    == { ApplyConcat(before, removed, added); }
      ApplyAll(ApplyAll(before, removed), added);
    == { ApplyRemoved(before.fields, before.fields, gone, path); }
      ApplyAll(Obj(kept), added);
    == { ApplyAdded(kept, after.fields, arrived, path); }
      Obj(kept + Pick(after.fields, arrived));
    == { ReshapedBySteps(before.fields, after.fields, gone, arrived); }
      Obj(Reshaped(before.fields, after.fields));
    }
  }

  /** What patching an object does, key by key. */
  lemma PatchByKey(before: Json, after: Json, path: string)
    requires before.Obj? && after.Obj?
    ensures var r := Patched(before, after, path);
            && r.Obj? && r.fields.Keys == after.fields.Keys
            && forall k :: k in after.fields ==>
                 r.fields[k] == if k in before.fields
                                then Patched(before.fields[k], after.fields[k], path + "/" + k)
                                else after.fields[k]
  {
    var b, a := before.fields.Keys, after.fields.Keys;
    var common := CommonOf(before, after, Sorted(b * a), path);
    var head := RemovedOf(before.fields, Sorted(b - a), path) + AddedOf(after.fields, Sorted(a - b), path);
    assert ApplyAll(before, head + common) == ApplyAll(Obj(Reshaped(before.fields, after.fields)), common) by {
      ApplyShape(before, after, path);
      ApplyConcat(before, head, common);
    }
    ApplyCommon(Reshaped(before.fields, after.fields), before, after, Sorted(b * a), path);
    assert forall k :: k in Sorted(b * a) <==> k in before.fields && k in after.fields;
  }

  /** Applying the diff to `before` gives `after`. */
  lemma {:induction false} DiffIsCorrectPatch(before: Json, after: Json, path: string)
    ensures PyEq(ApplyAll(before, Walk(before, after, path)), after)
    decreases before
  {
    if before.Obj? && after.Obj? {
      PatchByKey(before, after, path);
      forall k | k in after.fields
        ensures PyEq(ApplyAll(before, Walk(before, after, path)).fields[k], after.fields[k])
      {
        if k in before.fields {
          DiffIsCorrectPatch(before.fields[k], after.fields[k], path + "/" + k);
        } else {
          PyEqReflexive(after.fields[k]);
        }
      }
    } else if PyEq(before, after) {
    } else {
      var c := SpecChange([], if path == "" then "/" else path, Changed, before, after);
      assert Walk(before, after, path) == [c] && [c][1..] == [];
      assert ApplyAll(before, [c]) == after;
      PyEqReflexive(after);
    }
  }

  /** Without booleans, applying the diff to `before` gives exactly `after`. */
  lemma {:induction false} DiffIsExactPatch(before: Json, after: Json, path: string)
    requires NoBooleans(before) && NoBooleans(after)
    ensures ApplyAll(before, Walk(before, after, path)) == after
    decreases before
  {
    if before.Obj? && after.Obj? {
      PatchByKey(before, after, path);
      var patched := Patched(before, after, path);
      forall k | k in after.fields
        ensures patched.fields[k] == after.fields[k]
      {
        if k in before.fields {
          DiffIsExactPatch(before.fields[k], after.fields[k], path + "/" + k);
        }
      }
      assert patched.fields == after.fields;
    } else {
      PyEqIsEquality(before, after);
      if before != after {
        var c := SpecChange([], if path == "" then "/" else path, Changed, before, after);
        assert Walk(before, after, path) == [c] && [c][1..] == [];
      }
    }
  }

  // ---- minimality ----

  /** Nothing is reported about the keys themselves exactly if they are the same. */
  lemma SameKeysIffNoKeyChange(before: Json, after: Json, path: string)
    requires before.Obj? && after.Obj?
    ensures Walk(before, after, path) == [] <==>
            && before.fields.Keys == after.fields.Keys
            && CommonOf(before, after, Sorted(before.fields.Keys * after.fields.Keys), path) == []
  {
    var b, a := before.fields.Keys, after.fields.Keys;
    RemovedIsKeyed(before.fields, Sorted(b - a), path);
    AddedIsKeyed(after.fields, Sorted(a - b), path);
    EmptyIffNoMembers(b - a);
    EmptyIffNoMembers(a - b);
    assert b == a <==> b - a == {} && a - b == {};
  }

  /** Nothing is reported exactly for equal documents. */
  lemma {:induction false} DiffIsEmptyIffEqual(before: Json, after: Json, path: string)
    ensures Walk(before, after, path) == [] <==> PyEq(before, after)
    decreases before, 2, 0
  {
    if before.Obj? && after.Obj? {
      if PyEq(before, after) {
        EqualObjectsHaveNoDiff(before, after, path);
      } else if Walk(before, after, path) == [] {
        ObjectsWithoutDiffAreEqual(before, after, path);
      }
    }
  }

  /** Without booleans, nothing is reported exactly if the documents are the same. */
  lemma NoDiffIffSame(before: Json, after: Json, path: string)
    requires NoBooleans(before) && NoBooleans(after)
    ensures Walk(before, after, path) == [] <==> before == after
  {
    DiffIsEmptyIffEqual(before, after, path);
    PyEqIsEquality(before, after);
  }

  lemma {:induction false} EqualObjectsHaveNoDiff(before: Json, after: Json, path: string)
    requires before.Obj? && PyEq(before, after)
    ensures Walk(before, after, path) == []
    decreases before, 1, 0
  {
    SameKeysIffNoKeyChange(before, after, path);
    CommonOfEqualIsEmpty(before, after, Sorted(before.fields.Keys * after.fields.Keys), path);
  }

  lemma {:induction false} ObjectsWithoutDiffAreEqual(before: Json, after: Json, path: string)
    requires before.Obj? && after.Obj? && Walk(before, after, path) == []
    ensures PyEq(before, after)
    decreases before, 1, 0
  {
    SameKeysIffNoKeyChange(before, after, path);
    forall k | k in before.fields
      ensures PyEq(before.fields[k], after.fields[k])
    {
      EmptyCommonIsEqual(before, after, Sorted(before.fields.Keys * after.fields.Keys), path, k);
    }
  }

  lemma EmptyIffNoMembers(s: set<string>)
    ensures Sorted(s) == [] <==> s == {}
  {
    if s != {} {
      var k :| k in s;
      assert k in Sorted(s);
    }
  }

  lemma CommonLength(before: Json, after: Json, ks: seq<string>, path: string)
    requires before.Obj? && after.Obj? && ks != []
    requires forall i :: 0 <= i < |ks| ==> ks[i] in before.fields && ks[i] in after.fields
    ensures |CommonOf(before, after, ks, path)| ==
            |Walk(before.fields[ks[0]], after.fields[ks[0]], path + "/" + ks[0])| + |CommonOf(before, after, ks[1..], path)|
  {
  }

  lemma {:induction false} EmptyCommonIsEqual(before: Json, after: Json, ks: seq<string>, path: string, k: string)
    requires before.Obj? && after.Obj?
    requires forall i :: 0 <= i < |ks| ==> ks[i] in before.fields && ks[i] in after.fields
    requires k in ks && |CommonOf(before, after, ks, path)| == 0
    ensures PyEq(before.fields[k], after.fields[k])
    decreases before, 0, |ks|
  {
    CommonLength(before, after, ks, path);
    if k == ks[0] {
      DiffIsEmptyIffEqual(before.fields[k], after.fields[k], path + "/" + k);
    } else {
      EmptyCommonIsEqual(before, after, ks[1..], path, k);
    }
  }

  lemma {:induction false} CommonOfEqualIsEmpty(before: Json, after: Json, ks: seq<string>, path: string)
    requires before.Obj? && after.Obj?
    requires forall i :: 0 <= i < |ks| ==> ks[i] in before.fields && ks[i] in after.fields
    requires forall i :: 0 <= i < |ks| ==> PyEq(before.fields[ks[i]], after.fields[ks[i]])
    ensures |CommonOf(before, after, ks, path)| == 0
    decreases before, 0, |ks|
  {
    if ks != [] {
      CommonLength(before, after, ks, path);
      DiffIsEmptyIffEqual(before.fields[ks[0]], after.fields[ks[0]], path + "/" + ks[0]);
      CommonOfEqualIsEmpty(before, after, ks[1..], path);
    }
  }

  /** No change's position is a prefix of another's. */
  predicate Independent(changes: seq<SpecChange>) {
    forall i, j :: 0 <= i < |changes| && 0 <= j < |changes| && i != j ==> !(changes[i].keys <= changes[j].keys)
  }

  /** Every change lies below one of the given keys. */
  predicate Below(changes: seq<SpecChange>, ks: seq<string>) {
    forall i :: 0 <= i < |changes| ==> |changes[i].keys| >= 1 && changes[i].keys[0] in ks
  }

  lemma IndependentConcat(xs: seq<SpecChange>, ys: seq<SpecChange>, ks: seq<string>, ls: seq<string>)
    requires Independent(xs) && Independent(ys) && Below(xs, ks) && Below(ys, ls)
    requires forall k :: k in ks ==> k !in ls
    ensures Independent(xs + ys) && Below(xs + ys, ks + ls)
  {
  }

  lemma UnderIsIndependent(key: string, changes: seq<SpecChange>)
    requires Independent(changes)
    ensures Independent(Under(key, changes)) && Below(Under(key, changes), [key])
  {
    var r := Under(key, changes);
    forall i, j | 0 <= i < |r| && 0 <= j < |r| && i != j
      ensures !(r[i].keys <= r[j].keys)
    {
      assert !(changes[i].keys <= changes[j].keys);
      assert r[i].keys[1..] == changes[i].keys && r[j].keys[1..] == changes[j].keys;
    }
  }

  lemma RemovedIsIndependent(fields: map<string, Json>, ks: seq<string>, path: string)
    requires forall i :: 0 <= i < |ks| ==> ks[i] in fields
    requires forall i, j :: 0 <= i < j < |ks| ==> ks[i] != ks[j]
    ensures Independent(RemovedOf(fields, ks, path)) && Below(RemovedOf(fields, ks, path), ks)
  {
    RemovedIsKeyed(fields, ks, path);
  }

  lemma AddedIsIndependent(fields: map<string, Json>, ks: seq<string>, path: string)
    requires forall i :: 0 <= i < |ks| ==> ks[i] in fields
    requires forall i, j :: 0 <= i < j < |ks| ==> ks[i] != ks[j]
    ensures Independent(AddedOf(fields, ks, path)) && Below(AddedOf(fields, ks, path), ks)
  {
    AddedIsKeyed(fields, ks, path);
  }

  lemma {:induction false} CommonIsIndependent(before: Json, after: Json, ks: seq<string>, path: string)
    requires before.Obj? && after.Obj?
    requires forall i :: 0 <= i < |ks| ==> ks[i] in before.fields && ks[i] in after.fields
    requires forall i, j :: 0 <= i < j < |ks| ==> ks[i] != ks[j]
    ensures Independent(CommonOf(before, after, ks, path)) && Below(CommonOf(before, after, ks, path), ks)
    decreases before, 0, |ks|
  {
    if ks != [] {
      var inner := Walk(before.fields[ks[0]], after.fields[ks[0]], path + "/" + ks[0]);
      var rest := CommonOf(before, after, ks[1..], path);
      assert Independent(Under(ks[0], inner) + rest) && Below(Under(ks[0], inner) + rest, [ks[0]] + ks[1..]) by {
        DiffIsMinimal(before.fields[ks[0]], after.fields[ks[0]], path + "/" + ks[0]);
        UnderIsIndependent(ks[0], inner);
        CommonIsIndependent(before, after, ks[1..], path);
        IndependentConcat(Under(ks[0], inner), rest, [ks[0]], ks[1..]);
      }
      assert [ks[0]] + ks[1..] == ks;
    }
  }

  lemma PartsAreIndependent(b: map<string, Json>, a: map<string, Json>, gone: seq<string>, arrived: seq<string>,
                            zs: seq<SpecChange>, common: seq<string>, path: string)
    requires forall i :: 0 <= i < |gone| ==> gone[i] in b && gone[i] !in a
    requires forall i :: 0 <= i < |arrived| ==> arrived[i] in a && arrived[i] !in b
    requires forall i :: 0 <= i < |common| ==> common[i] in b && common[i] in a
    requires forall i, j :: 0 <= i < j < |gone| ==> gone[i] != gone[j]
    requires forall i, j :: 0 <= i < j < |arrived| ==> arrived[i] != arrived[j]
    requires Independent(zs) && Below(zs, common)
    ensures Independent(RemovedOf(b, gone, path) + AddedOf(a, arrived, path) + zs)
  {
    var xs, ys := RemovedOf(b, gone, path), AddedOf(a, arrived, path);
    RemovedIsIndependent(b, gone, path);
    AddedIsIndependent(a, arrived, path);
    IndependentConcat(xs, ys, gone, arrived);
    IndependentConcat(xs + ys, zs, gone + arrived, common);
  }

  /** Every position is reported at most once, and never together with a position inside it. */
  lemma {:induction false} DiffIsMinimal(before: Json, after: Json, path: string)
    ensures Independent(Walk(before, after, path))
    decreases before, 1, 0
  {
    if before.Obj? && after.Obj? {
      var b, a := before.fields.Keys, after.fields.Keys;
      var common := Sorted(b * a);
      CommonIsIndependent(before, after, common, path);
      PartsAreIndependent(before.fields, after.fields, Sorted(b - a), Sorted(a - b),
                          CommonOf(before, after, common, path), common, path);
    }
  }

  // ---- reversal ----

  function Inverse(c: SpecChange): SpecChange {
    SpecChange(c.keys, c.path,
               match c.kind case Removed => Added case Added => Removed case Changed => Changed,
               c.after, c.before)
  }

  function Inverses(changes: seq<SpecChange>): seq<SpecChange> {
    if changes == [] then [] else [Inverse(changes[0])] + Inverses(changes[1..])
  }

  lemma {:induction false} InversesConcat(xs: seq<SpecChange>, ys: seq<SpecChange>)
    ensures Inverses(xs + ys) == Inverses(xs) + Inverses(ys)
  {
    if xs == [] {
      assert xs + ys == ys;
    } else {
      assert (xs + ys)[1..] == xs[1..] + ys;
      InversesConcat(xs[1..], ys);
    }
  }

  lemma {:induction false} InversesUnder(key: string, changes: seq<SpecChange>)
    ensures Inverses(Under(key, changes)) == Under(key, Inverses(changes))
  {
    if changes != [] {
      InversesUnder(key, changes[1..]);
      assert Under(key, changes)[1..] == Under(key, changes[1..]);
      assert Inverses(changes)[1..] == Inverses(changes[1..]);
    }
  }

  lemma {:induction false} InversesRemoved(fields: map<string, Json>, ks: seq<string>, path: string)
    requires forall i :: 0 <= i < |ks| ==> ks[i] in fields
    ensures Inverses(RemovedOf(fields, ks, path)) == AddedOf(fields, ks, path)
    ensures Inverses(AddedOf(fields, ks, path)) == RemovedOf(fields, ks, path)
  {
    if ks != [] {
      InversesRemoved(fields, ks[1..], path);
    }
  }

  lemma MovedIs(key: string, x: SpecChange, c: SpecChange)
    ensures x.(keys := [key] + x.keys) == c <==> c.keys != [] && c.keys[0] == key && c.(keys := c.keys[1..]) == x
  {
    assert ([key] + x.keys)[1..] == x.keys;
    assert c.keys != [] ==> c.keys == [c.keys[0]] + c.keys[1..];
  }

  /** How often a change occurs among the changes below a key. */
  lemma {:induction false} UnderCounts(key: string, xs: seq<SpecChange>, c: SpecChange)
    ensures multiset(Under(key, xs))[c] ==
            if c.keys != [] && c.keys[0] == key then multiset(xs)[c.(keys := c.keys[1..])] else 0
  {
    if xs != [] {
      UnderCounts(key, xs[1..], c);
      assert xs == [xs[0]] + xs[1..];
      MovedIs(key, xs[0], c);
    }
  }

  /** Moving changes below a key moves a multiset of changes. */
  lemma UnderIsMultisetMap(key: string, xs: seq<SpecChange>, ys: seq<SpecChange>)
    requires multiset(xs) == multiset(ys)
    ensures multiset(Under(key, xs)) == multiset(Under(key, ys))
  {
    forall c
      ensures multiset(Under(key, xs))[c] == multiset(Under(key, ys))[c]
    {
      UnderCounts(key, xs, c);
      UnderCounts(key, ys, c);
    }
  }

  lemma {:induction false} CommonIsReversible(before: Json, after: Json, ks: seq<string>, path: string)
    requires before.Obj? && after.Obj?
    requires forall i :: 0 <= i < |ks| ==> ks[i] in before.fields && ks[i] in after.fields
    ensures multiset(CommonOf(after, before, ks, path)) == multiset(Inverses(CommonOf(before, after, ks, path)))
    decreases before, 0, |ks|
  {
    if ks != [] {
      var k := ks[0];
      var there := Walk(before.fields[k], after.fields[k], path + "/" + k);
      var back := Walk(after.fields[k], before.fields[k], path + "/" + k);
      DiffIsReversible(before.fields[k], after.fields[k], path + "/" + k);
      UnderIsMultisetMap(k, back, Inverses(there));
      InversesUnder(k, there);
      InversesConcat(Under(k, there), CommonOf(before, after, ks[1..], path));
      CommonIsReversible(before, after, ks[1..], path);
    }
  }

  lemma Rearranged(xs: seq<SpecChange>, ys: seq<SpecChange>, zs: seq<SpecChange>, zs': seq<SpecChange>)
    requires multiset(zs) == multiset(zs')
    ensures multiset(ys + xs + zs) == multiset(xs + ys + zs')
  {
    assert multiset(ys + xs + zs) == multiset(ys) + multiset(xs) + multiset(zs);
    assert multiset(xs + ys + zs') == multiset(xs) + multiset(ys) + multiset(zs');
  }

  lemma InversesOfThree(xs: seq<SpecChange>, ys: seq<SpecChange>, zs: seq<SpecChange>)
    ensures Inverses(xs + ys + zs) == Inverses(xs) + Inverses(ys) + Inverses(zs)
  {
    InversesConcat(xs + ys, zs);
    InversesConcat(xs, ys);
  }

  /** The same for the parts of a diff of two objects. */
  lemma PartsAreReversible(b: map<string, Json>, a: map<string, Json>, gone: seq<string>, arrived: seq<string>,
                           zs: seq<SpecChange>, back: seq<SpecChange>, path: string)
    requires forall i :: 0 <= i < |gone| ==> gone[i] in b
    requires forall i :: 0 <= i < |arrived| ==> arrived[i] in a
    requires multiset(back) == multiset(Inverses(zs))
    ensures multiset(RemovedOf(a, arrived, path) + AddedOf(b, gone, path) + back) ==
            multiset(Inverses(RemovedOf(b, gone, path) + AddedOf(a, arrived, path) + zs))
  {
    InversesOfThree(RemovedOf(b, gone, path), AddedOf(a, arrived, path), zs);
    InversesRemoved(b, gone, path);
    InversesRemoved(a, arrived, path);
    Rearranged(AddedOf(b, gone, path), RemovedOf(a, arrived, path), back, Inverses(zs));
  }

  lemma LeafIsReversible(before: Json, after: Json, path: string)
    requires !before.Obj? || !after.Obj?
    ensures Walk(after, before, path) == Inverses(Walk(before, after, path))
  {
    PyEqSymmetric(before, after);
    assert PyEq(before, after) || |Walk(before, after, path)| == 1;
  }

  lemma ObjectsAreReversible(before: Json, after: Json, common: seq<string>, path: string)
    requires before.Obj? && after.Obj? && common == Sorted(before.fields.Keys * after.fields.Keys)
    requires multiset(CommonOf(after, before, common, path)) == multiset(Inverses(CommonOf(before, after, common, path)))
    ensures multiset(Walk(after, before, path)) == multiset(Inverses(Walk(before, after, path)))
  {
    var b, a := before.fields.Keys, after.fields.Keys;
    assert a * b == b * a;
    PartsAreReversible(before.fields, after.fields, Sorted(b - a), Sorted(a - b),
                       CommonOf(before, after, common, path), CommonOf(after, before, common, path), path);
  }

  /** Swapping the arguments yields the inverse changes. */
  lemma {:induction false} DiffIsReversible(before: Json, after: Json, path: string)
    ensures multiset(Walk(after, before, path)) == multiset(Inverses(Walk(before, after, path)))
    decreases before, 1, 0
  {
    if before.Obj? && after.Obj? {
      var common := Sorted(before.fields.Keys * after.fields.Keys);
      CommonIsReversible(before, after, common, path);
      ObjectsAreReversible(before, after, common, path);
    } else {
      LeafIsReversible(before, after, path);
    }
  }
}
