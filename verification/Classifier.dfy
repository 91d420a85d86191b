/** `classify_openapi_changes`, as a fold over the changes and as what the fold means. */
module Classifier {
  import opened Basics
  import opened Strings
  import opened OpenApiDiff
  import opened DiffTheorems
  import opened Endpoints
  import Jobs

  type ChangeType = Jobs.ChangeType

  datatype Severity = Low | Medium | High

  datatype Classification = Classification(
    changeType: ChangeType, severity: Severity, endpoints: seq<string>, fields: seq<string>)

  // ---- what one change contributes ----

  function EndpointOf(c: SpecChange): Option<string> {
    EndpointFromPath(c.path, if c.after != Null then c.after else c.before)
  }

  predicate TouchesContract(path: string) {
    Contains(path, "/required") || Contains(path, "/parameters/") || Contains(path, "/requestBody") || Contains(path, "/schema")
  }

  predicate Breaks(c: SpecChange) {
    c.kind == Removed || (c.kind == Changed && TouchesContract(c.path) && c.before != Null && c.after != Null)
  }

  predicate Deprecates(c: SpecChange) {
    Contains(c.path, "/deprecated") && c.after == Bool(true)
  }

  predicate Adds(c: SpecChange) {
    c.kind == Added
  }

  // ---- what a list of changes amounts to ----

  predicate SomeBreaks(cs: seq<SpecChange>) {
    exists i :: 0 <= i < |cs| && Breaks(cs[i])
  }

  predicate SomeDeprecates(cs: seq<SpecChange>) {
    exists i :: 0 <= i < |cs| && Deprecates(cs[i])
  }

  predicate SomeAdds(cs: seq<SpecChange>) {
    exists i :: 0 <= i < |cs| && Adds(cs[i])
  }

  function EndpointSet(cs: seq<SpecChange>): set<string> {
    set c | c in cs && EndpointOf(c).Some? :: EndpointOf(c).value
  }

  function FieldSet(cs: seq<SpecChange>): set<string> {
    set c | c in cs && c.kind == Removed && EndpointOf(c).None? :: c.path
  }

  function Precedence(breaking: bool, deprecation: bool, newFeature: bool): ChangeType {
    if breaking then Jobs.Breaking
    else if deprecation then Jobs.Deprecation
    else if newFeature then Jobs.NewFeature
    else Jobs.NonBreakingFix
  }

  function SeverityOf(t: ChangeType): Severity {
    match t
    case Breaking => High
    case Deprecation => Medium
    case _ => Low
  }

  function TypeOf(cs: seq<SpecChange>): ChangeType {
    Precedence(SomeBreaks(cs), SomeDeprecates(cs), SomeAdds(cs))
  }

  function Meaning(cs: seq<SpecChange>): Classification {
    Classification(TypeOf(cs), SeverityOf(TypeOf(cs)), Sorted(EndpointSet(cs)), Sorted(FieldSet(cs)))
  }

  /** Which changes give which type and severity. */
  lemma TypeSpelledOut(cs: seq<SpecChange>)
    ensures var breaking :=
              exists i :: 0 <= i < |cs| &&
                (|| cs[i].kind == Removed
                 || (&& cs[i].kind == Changed && cs[i].before != Null && cs[i].after != Null
                     && (|| Contains(cs[i].path, "/required") || Contains(cs[i].path, "/parameters/")
                         || Contains(cs[i].path, "/requestBody") || Contains(cs[i].path, "/schema"))));
            var deprecation := exists i :: 0 <= i < |cs| && Contains(cs[i].path, "/deprecated") && cs[i].after == Bool(true);
            var newFeature := exists i :: 0 <= i < |cs| && cs[i].kind == Added;
            var r := Meaning(cs);
            && (r.changeType == Jobs.Breaking <==> breaking)
            && (r.changeType == Jobs.Deprecation <==> !breaking && deprecation)
            && (r.changeType == Jobs.NewFeature <==> !breaking && !deprecation && newFeature)
            && (r.severity == High <==> breaking)
            && (r.severity == Medium <==> !breaking && deprecation)
  {
    assert SomeBreaks(cs) <==> exists i :: 0 <= i < |cs| && Breaks(cs[i]);
    assert SomeDeprecates(cs) <==> exists i :: 0 <= i < |cs| && Deprecates(cs[i]);
    assert SomeAdds(cs) <==> exists i :: 0 <= i < |cs| && Adds(cs[i]);
  }

  /** Which endpoints and fields are reported: sorted, without repetition. */
  lemma ListsSpelledOut(cs: seq<SpecChange>)
    ensures var r := Meaning(cs);
            && (forall e :: e in r.endpoints <==>
                  exists c :: c in cs && EndpointFromPath(c.path, if c.after != Null then c.after else c.before) == Some(e))
            && (forall f :: f in r.fields <==>
                  exists c :: c in cs && c.path == f && c.kind == Removed
                              && EndpointFromPath(c.path, if c.after != Null then c.after else c.before) == None)
            && (forall i, j :: 0 <= i < j < |r.endpoints| ==> r.endpoints[i] != r.endpoints[j] && StrLe(r.endpoints[i], r.endpoints[j]))
            && (forall i, j :: 0 <= i < j < |r.fields| ==> r.fields[i] != r.fields[j] && StrLe(r.fields[i], r.fields[j]))
  {
    assert forall e :: e in EndpointSet(cs) <==> exists c :: c in cs && EndpointOf(c) == Some(e);
    assert forall f :: f in FieldSet(cs) <==> exists c :: c in cs && c.path == f && c.kind == Removed && EndpointOf(c) == None;
  }

  /** The loop of the source, with its two sets and three flags. */
  method Classify(changes: seq<SpecChange>) returns (r: Classification)
    ensures r == Meaning(changes)
  {
    var endpoints: set<string>, fields: set<string> := {}, {};
    var breaking, deprecation, newFeature := false, false, false;
    for i := 0 to |changes|
      invariant breaking == SomeBreaks(changes[..i])
      invariant deprecation == SomeDeprecates(changes[..i])
      invariant newFeature == SomeAdds(changes[..i])
      invariant endpoints == EndpointSet(changes[..i])
      invariant fields == FieldSet(changes[..i])
    {
      var change := changes[i];
      Extend(changes[..i], change);
      assert changes[..i + 1] == changes[..i] + [change];
      var endpoint := EndpointOf(change);
      if endpoint.Some? {
        endpoints := endpoints + {endpoint.value};
      }
      if Contains(change.path, "/deprecated") && change.after == Bool(true) {
        deprecation := true;
      }
      if change.kind == Removed {
        breaking := true;
        if endpoint.None? {
          fields := fields + {change.path};
        }
      } else if change.kind == Changed && TouchesContract(change.path) {
        if change.before != Null && change.after != Null {
          breaking := true;
        }
      } else if change.kind == Added {
        newFeature := true;
      }
    }
    assert changes[..|changes|] == changes;
    var t := Precedence(breaking, deprecation, newFeature);
    r := Classification(t, SeverityOf(t), Sorted(endpoints), Sorted(fields));
  }

  lemma Extend(cs: seq<SpecChange>, c: SpecChange)
    ensures SomeBreaks(cs + [c]) == (SomeBreaks(cs) || Breaks(c))
    ensures SomeDeprecates(cs + [c]) == (SomeDeprecates(cs) || Deprecates(c))
    ensures SomeAdds(cs + [c]) == (SomeAdds(cs) || Adds(c))
    ensures EndpointSet(cs + [c]) == EndpointSet(cs) + (if EndpointOf(c).Some? then {EndpointOf(c).value} else {})
    ensures FieldSet(cs + [c]) == FieldSet(cs) + (if c.kind == Removed && EndpointOf(c).None? then {c.path} else {})
  {
    FlagsConcat(cs, [c]);
    SetsConcat(cs, [c]);
    assert SomeBreaks([c]) == Breaks(c) by { assert [c][0] == c; }
    assert SomeDeprecates([c]) == Deprecates(c) by { assert [c][0] == c; }
    assert SomeAdds([c]) == Adds(c) by { assert [c][0] == c; }
    assert forall x :: x in [c] <==> x == c;
  }

  // ---- the homomorphism ----

  lemma FlagsConcat(xs: seq<SpecChange>, ys: seq<SpecChange>)
    ensures SomeBreaks(xs + ys) == (SomeBreaks(xs) || SomeBreaks(ys))
    ensures SomeDeprecates(xs + ys) == (SomeDeprecates(xs) || SomeDeprecates(ys))
    ensures SomeAdds(xs + ys) == (SomeAdds(xs) || SomeAdds(ys))
  {
    var zs := xs + ys;
    assert forall i :: 0 <= i < |xs| ==> zs[i] == xs[i];
    assert forall i :: 0 <= i < |ys| ==> zs[|xs| + i] == ys[i];
  }

  lemma SetsConcat(xs: seq<SpecChange>, ys: seq<SpecChange>)
    ensures EndpointSet(xs + ys) == EndpointSet(xs) + EndpointSet(ys)
    ensures FieldSet(xs + ys) == FieldSet(xs) + FieldSet(ys)
  {
    assert forall c :: c in xs + ys <==> c in xs || c in ys;
  }

  function Level(t: ChangeType): nat {
    match t
    case Breaking => 3
    case Deprecation => 2
    case NewFeature => 1
    case NonBreakingFix => 0
  }

  function Elements(s: seq<string>): set<string> {
    set x | x in s
  }

  /** The higher of the two types, and the sorted unions. */
  function Merge(a: Classification, b: Classification): Classification {
    var t := Higher(a.changeType, b.changeType);
    Classification(t, SeverityOf(t),
                   Sorted(Elements(a.endpoints) + Elements(b.endpoints)), Sorted(Elements(a.fields) + Elements(b.fields)))
  }

  function Higher(a: ChangeType, b: ChangeType): ChangeType {
    if Level(a) >= Level(b) then a else b
  }

  lemma TypeConcat(xs: seq<SpecChange>, ys: seq<SpecChange>)
    ensures TypeOf(xs + ys) == Higher(TypeOf(xs), TypeOf(ys))
  {
    FlagsConcat(xs, ys);
  }

  /** Classifying a concatenation merges the classifications. */
  lemma ClassificationIsHomomorphism(xs: seq<SpecChange>, ys: seq<SpecChange>)
    ensures Meaning(xs + ys) == Merge(Meaning(xs), Meaning(ys))
  {
    TypeConcat(xs, ys);
    SetsConcat(xs, ys);
    var e, f := EndpointSet(xs), EndpointSet(ys);
    var g, h := FieldSet(xs), FieldSet(ys);
    ElementsOfSorted(e);
    ElementsOfSorted(f);
    ElementsOfSorted(g);
    ElementsOfSorted(h);
    assert Meaning(xs + ys).endpoints == Sorted(e + f) && Meaning(xs + ys).fields == Sorted(g + h);
    assert Merge(Meaning(xs), Meaning(ys)).endpoints == Sorted(e + f);
    assert Merge(Meaning(xs), Meaning(ys)).fields == Sorted(g + h);
  }

  lemma ElementsOfSorted(s: set<string>)
    ensures Elements(Sorted(s)) == s
  {
  }

  /** Order and repetition of the changes do not matter. */
  lemma ClassificationIgnoresOrder(xs: seq<SpecChange>, ys: seq<SpecChange>)
    requires forall c :: c in xs <==> c in ys
    ensures Meaning(xs) == Meaning(ys)
  {
    assert EndpointSet(xs) == EndpointSet(ys);
    assert FieldSet(xs) == FieldSet(ys);
    assert forall c :: c in xs <==> exists i :: 0 <= i < |xs| && xs[i] == c;
    assert forall c :: c in ys <==> exists i :: 0 <= i < |ys| && ys[i] == c;
    SameFlags(xs, ys);
    SameFlags(ys, xs);
  }

  lemma SameFlags(xs: seq<SpecChange>, ys: seq<SpecChange>)
    requires forall c :: c in xs ==> c in ys
    ensures SomeBreaks(xs) ==> SomeBreaks(ys)
    ensures SomeDeprecates(xs) ==> SomeDeprecates(ys)
    ensures SomeAdds(xs) ==> SomeAdds(ys)
  {
    assert forall i :: 0 <= i < |xs| ==> xs[i] in ys;
  }

  // ---- composed with the diff ----

  /** Somewhere inside common objects a key is dropped. */
  predicate Drops(before: Json, after: Json)
    decreases before
  {
    before.Obj? && after.Obj? &&
    ((exists k :: k in before.fields && k !in after.fields) ||
     (exists k :: k in before.fields && k in after.fields && Drops(before.fields[k], after.fields[k])))
  }

  /** `after` is `before` with nothing but additional keys. */
  predicate OnlyAddsKeys(before: Json, after: Json)
    decreases before
  {
    PyEq(before, after) ||
    (&& before.Obj? && after.Obj? && before.fields.Keys <= after.fields.Keys
     && forall k :: k in before.fields ==> k in after.fields && OnlyAddsKeys(before.fields[k], after.fields[k]))
  }

  predicate SomeRemoved(cs: seq<SpecChange>) {
    exists i :: 0 <= i < |cs| && cs[i].kind == Removed
  }

  predicate AllAdded(cs: seq<SpecChange>) {
    forall i :: 0 <= i < |cs| ==> cs[i].kind == Added
  }

  lemma {:induction false} CommonKinds(before: Json, after: Json, ks: seq<string>, path: string)
    requires before.Obj? && after.Obj?
    requires forall i :: 0 <= i < |ks| ==> ks[i] in before.fields && ks[i] in after.fields
    ensures SomeRemoved(CommonOf(before, after, ks, path)) <==>
            exists i :: 0 <= i < |ks| && Drops(before.fields[ks[i]], after.fields[ks[i]])
    ensures AllAdded(CommonOf(before, after, ks, path)) <==>
            forall i :: 0 <= i < |ks| ==> OnlyAddsKeys(before.fields[ks[i]], after.fields[ks[i]])
    decreases before, 0, |ks|
  {
    if ks != [] {
      var inner := Walk(before.fields[ks[0]], after.fields[ks[0]], path + "/" + ks[0]);
      WalkKinds(before.fields[ks[0]], after.fields[ks[0]], path + "/" + ks[0]);
      CommonKinds(before, after, ks[1..], path);
      KindsConcat(Under(ks[0], inner), CommonOf(before, after, ks[1..], path));
      KindsUnder(ks[0], inner);
      assert forall i :: 0 < i < |ks| ==> ks[i] == ks[1..][i - 1];
    }
  }

  lemma KindsUnder(key: string, cs: seq<SpecChange>)
    ensures SomeRemoved(Under(key, cs)) == SomeRemoved(cs) && AllAdded(Under(key, cs)) == AllAdded(cs)
  {
    var us := Under(key, cs);
    assert forall i :: 0 <= i < |cs| ==> us[i].kind == cs[i].kind;
  }

  lemma KindsConcat(xs: seq<SpecChange>, ys: seq<SpecChange>)
    ensures SomeRemoved(xs + ys) == (SomeRemoved(xs) || SomeRemoved(ys))
    ensures AllAdded(xs + ys) == (AllAdded(xs) && AllAdded(ys))
  {
    var zs := xs + ys;
    assert forall i :: 0 <= i < |xs| ==> zs[i] == xs[i];
    assert forall i :: 0 <= i < |ys| ==> zs[|xs| + i] == ys[i];
  }

  lemma KeyKinds(before: map<string, Json>, gone: seq<string>, after: map<string, Json>, arrived: seq<string>, path: string)
    requires forall i :: 0 <= i < |gone| ==> gone[i] in before
    requires forall i :: 0 <= i < |arrived| ==> arrived[i] in after
    ensures SomeRemoved(RemovedOf(before, gone, path)) <==> gone != []
    ensures AllAdded(RemovedOf(before, gone, path)) <==> gone == []
    ensures !SomeRemoved(AddedOf(after, arrived, path)) && AllAdded(AddedOf(after, arrived, path))
  {
    RemovedIsKeyed(before, gone, path);
    AddedIsKeyed(after, arrived, path);
    if gone != [] {
      assert RemovedOf(before, gone, path)[0].kind == Removed;
    }
  }

  /** A removal is reported exactly if a key was dropped; only additions exactly if only keys were added. */
  lemma {:induction false} WalkKinds(before: Json, after: Json, path: string)
    ensures SomeRemoved(Walk(before, after, path)) <==> Drops(before, after)
    ensures AllAdded(Walk(before, after, path)) <==> OnlyAddsKeys(before, after)
    decreases before, 1, 0
  {
    if before.Obj? && after.Obj? {
      var b, a := before.fields.Keys, after.fields.Keys;
      var gone, arrived, common := Sorted(b - a), Sorted(a - b), Sorted(b * a);
      var xs, ys, zs := RemovedOf(before.fields, gone, path), AddedOf(after.fields, arrived, path), CommonOf(before, after, common, path);
      KeyKinds(before.fields, gone, after.fields, arrived, path);
      EmptyIffNoMembers(b - a);
      CommonKinds(before, after, common, path);
      KindsConcat(xs, ys);
      KindsConcat(xs + ys, zs);
      DroppedKeys(before, after, common);
      AddedKeys(before, after, common);
    } else if !PyEq(before, after) {
      assert Walk(before, after, path)[0].kind == Changed;
    }
  }

  /** The two predicates, read over the sorted keys. */
  lemma DroppedKeys(before: Json, after: Json, common: seq<string>)
    requires before.Obj? && after.Obj?
    requires forall k :: k in common <==> k in before.fields && k in after.fields
    requires forall i :: 0 <= i < |common| ==> common[i] in before.fields && common[i] in after.fields
    ensures Drops(before, after) <==>
            || before.fields.Keys - after.fields.Keys != {}
            || exists i :: 0 <= i < |common| && Drops(before.fields[common[i]], after.fields[common[i]])
  {
    if Drops(before, after) {
      if k :| k in before.fields && k !in after.fields {
        assert k in before.fields.Keys - after.fields.Keys;
      } else {
        var k :| k in before.fields && k in after.fields && Drops(before.fields[k], after.fields[k]);
        assert k in common;
      }
    }
    if before.fields.Keys - after.fields.Keys != {} {
      var k :| k in before.fields.Keys - after.fields.Keys;
      assert k in before.fields && k !in after.fields;
    }
  }

  lemma AddedKeys(before: Json, after: Json, common: seq<string>)
    requires before.Obj? && after.Obj?
    requires forall k :: k in common <==> k in before.fields && k in after.fields
    requires forall i :: 0 <= i < |common| ==> common[i] in before.fields && common[i] in after.fields
    ensures OnlyAddsKeys(before, after) <==>
            && before.fields.Keys - after.fields.Keys == {}
            && forall i :: 0 <= i < |common| ==> OnlyAddsKeys(before.fields[common[i]], after.fields[common[i]])
  {
    var inside := forall i :: 0 <= i < |common| ==> OnlyAddsKeys(before.fields[common[i]], after.fields[common[i]]);
    if before.fields.Keys - after.fields.Keys == {} && inside {
      forall k | k in before.fields
        ensures k in after.fields && OnlyAddsKeys(before.fields[k], after.fields[k])
      {
        assert k !in before.fields.Keys - after.fields.Keys;
        var i :| 0 <= i < |common| && common[i] == k;
      }
    }
  }

  /** A dropped key makes the whole diff breaking. */
  lemma DroppedKeyIsBreaking(before: Json, after: Json)
    requires Drops(before, after)
    ensures Meaning(Walk(before, after, "")).changeType == Jobs.Breaking
    ensures Meaning(Walk(before, after, "")).severity == High
  {
    WalkKinds(before, after, "");
    var cs := Walk(before, after, "");
    var i :| 0 <= i < |cs| && cs[i].kind == Removed;
    assert Breaks(cs[i]);
  }

  /** A document that only gains keys is never breaking, and a fix only if nothing changed at all. */
  lemma AddedKeysAreNotBreaking(before: Json, after: Json)
    requires OnlyAddsKeys(before, after)
    ensures Meaning(Walk(before, after, "")).changeType != Jobs.Breaking
    ensures Meaning(Walk(before, after, "")).changeType == Jobs.NonBreakingFix <==> PyEq(before, after)
    ensures Meaning(Walk(before, after, "")).fields == []
  {
    WalkKinds(before, after, "");
    DiffIsEmptyIffEqual(before, after, "");
    var cs := Walk(before, after, "");
    if cs != [] {
      assert Adds(cs[0]);
    }
    assert FieldSet(cs) == {};
  }

  // ---- keys that matter ----

  /** A key of a change's position shows in its path, behind a slash. */
  lemma {:induction false} KeyShowsInRendering(keys: seq<string>, n: nat, name: string)
    requires n < |keys| && name <= keys[n]
    ensures Contains(Render(keys), "/" + name)
  {
    var rest := Render(keys[1..]);
    assert Render(keys) == "/" + keys[0] + rest;
    if n == 0 {
      assert keys[0] == name + keys[0][|name|..];
      assert Render(keys)[0..1 + |name|] == "/" + name;
      assert OccursAt(Render(keys), "/" + name, 0);
    } else {
      KeyShowsInRendering(keys[1..], n - 1, name);
      var i :| 0 <= i <= |rest| && OccursAt(rest, "/" + name, i);
      var at := i + 1 + |keys[0]|;
      assert Render(keys)[at..at + 1 + |name|] == rest[i..i + 1 + |name|];
      assert OccursAt(Render(keys), "/" + name, at);
    }
  }

  lemma KeyShowsInPath(before: Json, after: Json, i: nat, n: nat, name: string)
    requires i < |Walk(before, after, "")| && n < |Walk(before, after, "")[i].keys|
    requires name <= Walk(before, after, "")[i].keys[n]
    ensures Contains(Walk(before, after, "")[i].path, "/" + name)
  {
    var c := Walk(before, after, "")[i];
    RenderedPaths(before, after, "");
    KeyShowsInRendering(c.keys, n, name);
    assert "" + Render(c.keys) == Render(c.keys);
  }

  /** A changed value at or below a key that begins with `required`, `requestBody` or `schema` is breaking. */
  lemma ContractChangeIsBreaking(before: Json, after: Json, i: nat, n: nat, name: string)
    requires i < |Walk(before, after, "")| && n < |Walk(before, after, "")[i].keys|
    requires name in {"required", "requestBody", "schema"} && name <= Walk(before, after, "")[i].keys[n]
    requires var c := Walk(before, after, "")[i]; c.kind == Changed && c.before != Null && c.after != Null
    ensures Meaning(Walk(before, after, "")).changeType == Jobs.Breaking
  {
    KeyShowsInPath(before, after, i, n, name);
    ContractPathBreaks(Walk(before, after, ""), i, name);
  }

  lemma ContractPathBreaks(cs: seq<SpecChange>, i: nat, name: string)
    requires i < |cs| && name in {"required", "requestBody", "schema"} && Contains(cs[i].path, "/" + name)
    requires cs[i].kind == Changed && cs[i].before != Null && cs[i].after != Null
    ensures Meaning(cs).changeType == Jobs.Breaking
  {
    assert "/" + "required" == "/required" && "/" + "requestBody" == "/requestBody" && "/" + "schema" == "/schema";
    assert Breaks(cs[i]);
  }

  /** A `deprecated` key that is set makes the diff a deprecation, unless something breaks. */
  lemma DeprecationIsReported(before: Json, after: Json, i: nat, n: nat)
    requires i < |Walk(before, after, "")| && n < |Walk(before, after, "")[i].keys|
    requires "deprecated" <= Walk(before, after, "")[i].keys[n] && Walk(before, after, "")[i].after == Bool(true)
    ensures var r := Meaning(Walk(before, after, ""));
            || (r.changeType == Jobs.Breaking && r.severity == High)
            || (r.changeType == Jobs.Deprecation && r.severity == Medium)
  {
    KeyShowsInPath(before, after, i, n, "deprecated");
    DeprecatedPathDeprecates(Walk(before, after, ""), i);
  }

  lemma DeprecatedPathDeprecates(cs: seq<SpecChange>, i: nat)
    requires i < |cs| && Contains(cs[i].path, "/" + "deprecated") && cs[i].after == Bool(true)
    ensures var r := Meaning(cs);
            || (r.changeType == Jobs.Breaking && r.severity == High)
            || (r.changeType == Jobs.Deprecation && r.severity == Medium)
  {
    assert "/" + "deprecated" == "/deprecated";
    assert Deprecates(cs[i]);
  }
}
