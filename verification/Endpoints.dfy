/** `_endpoint_from_path`: finding the OpenAPI endpoint that a rendered change path belongs to. */
module Endpoints {
  import opened Basics
  import opened Strings
  import opened OpenApiDiff

  const METHODS := {"get", "put", "post", "delete", "options", "head", "patch", "trace"}
  const PATHS := "/paths/"

  /** `str.lower`; beyond ASCII no letter turns into a letter of a method name. */
  function LowerChar(c: char): char {
    if 'A' <= c <= 'Z' then (c as int + 32) as char else c
  }

  function Lower(s: string): string {
    if s == "" then "" else [LowerChar(s[0])] + Lower(s[1..])
  }

  predicate IsMethod(segment: string) {
    Lower(segment) in METHODS
  }

  predicate HoldsMethod(value: Json) {
    value.Obj? && exists k :: k in value.fields && IsMethod(k)
  }

  /** The index of the first segment from `i` on that is an HTTP method. */
  function FirstMethod(segments: seq<string>, i: nat): (r: Option<nat>)
    ensures r.Some? ==> i <= r.value < |segments| && IsMethod(segments[r.value])
    ensures r.Some? ==> forall k :: i <= k < r.value ==> !IsMethod(segments[k])
    ensures r.None? ==> forall k :: i <= k < |segments| ==> !IsMethod(segments[k])
    decreases |segments| - i
  {
    if i >= |segments| then None
    else if IsMethod(segments[i]) then Some(i)
    else FirstMethod(segments, i + 1)
  }

  function EndpointFromPath(path: string, value: Json): Option<string> {
    if !StartsWith(path, PATHS) then None
    else
      var suffix := path[|PATHS|..];
      if suffix == "" then None
      else if HoldsMethod(value) then Some(suffix)
      else
        var segments := Split(suffix, SLASH);
        var at := FirstMethod(segments, 0);
        if at.None? then None
        else
          var endpoint := Join(segments[..at.value], SLASH);
          Some(if endpoint == "" then "/" else endpoint)
  }

  /** No part of the endpoint could be taken for an HTTP method. */
  predicate NoMethodSegment(endpoint: string) {
    forall i :: 0 <= i < |Split(endpoint, SLASH)| ==> !IsMethod(Split(endpoint, SLASH)[i])
  }

  /** What follows the method in a rendered path: nothing, or deeper keys. */
  predicate Deeper(rest: string) {
    rest == "" || rest[0] == SLASH
  }

  lemma {:induction false} JoinLength(parts: seq<string>, i: nat, sep: char)
    requires i < |parts|
    ensures |Join(parts[..i], sep)| <= |Join(parts, sep)|
    ensures i > 0 ==> |Join(parts[..i], sep)| < |Join(parts, sep)|
  {
    if i > 0 {
      assert parts[..i][1..] == parts[1..][..i - 1];
      JoinLength(parts[1..], i - 1, sep);
    }
  }

  lemma {:induction false} LowerByCharacter(s: string)
    ensures |Lower(s)| == |s| && forall i :: 0 <= i < |s| ==> Lower(s)[i] == LowerChar(s[i])
  {
    if s != "" {
      LowerByCharacter(s[1..]);
    }
  }

  lemma MethodHasNoSlash(segment: string)
    requires IsMethod(segment)
    ensures SLASH !in segment
  {
    LowerByCharacter(segment);
    if SLASH in segment {
      var i :| 0 <= i < |segment| && segment[i] == SLASH;
      assert Lower(segment)[i] == SLASH;
    }
    assert forall m :: m in METHODS ==> SLASH !in m;
  }

  /** The method names: these eight words in any mixture of small and capital ASCII letters. */
  lemma MethodNames(segment: string)
    ensures IsMethod(segment) <==> Lower(segment) in {"get", "put", "post", "delete", "options", "head", "patch", "trace"}
    ensures |Lower(segment)| == |segment|
    ensures forall i :: 0 <= i < |segment| ==>
              Lower(segment)[i] == if 65 <= segment[i] as int <= 90 then (segment[i] as int + 32) as char else segment[i]
  {
    LowerByCharacter(segment);
  }

  /** The segments of a path below an endpoint. */
  lemma NestedSegments(endpoint: string, method': string, rest: string)
    requires SLASH !in method' && Deeper(rest)
    ensures var segments := Split(endpoint + "/" + method' + rest, SLASH);
            var own := Split(endpoint, SLASH);
            |segments| > |own| && segments[..|own|] == own && segments[|own|] == method'
  {
    var own := Split(endpoint, SLASH);
    assert endpoint + "/" + method' + rest == endpoint + [SLASH] + (method' + rest);
    SplitConcat(endpoint, method' + rest, SLASH);
    SplitWithoutSeparator(method', SLASH);
    if rest == "" {
      assert method' + rest == method';
    } else {
      assert method' + rest == method' + [SLASH] + rest[1..];
      SplitConcat(method', rest[1..], SLASH);
    }
  }

  /** The same question asked of the segments: where is the first method? */
  lemma FirstMethodBelowEndpoint(endpoint: string, method': string, rest: string)
    requires IsMethod(method') && Deeper(rest)
    ensures var segments := Split(endpoint + "/" + method' + rest, SLASH);
            var own := Split(endpoint, SLASH);
            var at := FirstMethod(segments, 0);
            && at.Some? && at.value <= |own| && segments[..at.value] == own[..at.value]
            && (at.value < |own| ==> IsMethod(own[at.value]))
            && (at.value == |own| <==> NoMethodSegment(endpoint))
  {
    var own := Split(endpoint, SLASH);
    MethodHasNoSlash(method');
    NestedSegments(endpoint, method', rest);
    var segments := Split(endpoint + "/" + method' + rest, SLASH);
    assert forall k :: 0 <= k < |own| ==> own[k] == segments[..|own|][k];
  }

  /**
    Extraction undoes path building: from a change below a method of an endpoint it recovers exactly
    that endpoint if, and only if, the changed value holds no method key itself and no segment of the
    endpoint is spelled like a method.
   */
  lemma ExtractionUndoesRendering(endpoint: string, method': string, rest: string, value: Json)
    requires endpoint != "" && IsMethod(method') && Deeper(rest)
    ensures EndpointFromPath(PATHS + endpoint + "/" + method' + rest, value) == Some(endpoint) <==>
            !HoldsMethod(value) && NoMethodSegment(endpoint)
  {
    var suffix := endpoint + "/" + method' + rest;
    assert PATHS + endpoint + "/" + method' + rest == PATHS + suffix;
    assert (PATHS + suffix)[|PATHS|..] == suffix;
    var own := Split(endpoint, SLASH);
    FirstMethodBelowEndpoint(endpoint, method', rest);
    var at := FirstMethod(Split(suffix, SLASH), 0).value;
    JoinedSegments(endpoint, at);
  }

  /** Which leading segments make up the whole endpoint again: all of them. */
  lemma JoinedSegments(endpoint: string, at: nat)
    requires at <= |Split(endpoint, SLASH)| && endpoint != ""
    requires at < |Split(endpoint, SLASH)| ==> IsMethod(Split(endpoint, SLASH)[at])
    ensures var joined := Join(Split(endpoint, SLASH)[..at], SLASH);
            (if joined == "" then "/" else joined) == endpoint <==> at == |Split(endpoint, SLASH)|
  {
    var own := Split(endpoint, SLASH);
    JoinSplit(endpoint, SLASH);
    if at < |own| {
      JoinLength(own, at, SLASH);
      if endpoint == "/" {
        SplitOfSlash();
      }
    } else {
      assert own[..at] == own;
    }
  }

  lemma SplitOfSlash()
    ensures Split("/", SLASH) == ["", ""] && !IsMethod("")
  {
    assert "/"[1..] == "";
  }

  /** Exactly which paths belong to no endpoint; and a value that holds a method key is at its endpoint. */
  lemma ExtractionSpelledOut(path: string, value: Json)
    ensures EndpointFromPath(path, value).None? <==>
            || !("/paths/" <= path) || path == "/paths/"
            || (!HoldsMethod(value) && NoMethodSegment(path[|"/paths/"|..]))
    ensures "/paths/" <= path && path != "/paths/" && HoldsMethod(value) ==>
              EndpointFromPath(path, value) == Some(path[|"/paths/"|..])
  {
    if "/paths/" <= path {
      assert path == "/paths/" + path[|"/paths/"|..];
      assert path[|"/paths/"|..] == "" <==> path == "/paths/";
    }
  }

  /** Below its first method a path belongs to what comes before the method, which is `/` if that is empty. */
  lemma FirstMethodEndsEndpoint(endpoint: string, method': string, rest: string, value: Json)
    requires IsMethod(method') && Deeper(rest) && !HoldsMethod(value) && NoMethodSegment(endpoint)
    ensures EndpointFromPath("/paths/" + endpoint + "/" + method' + rest, value) == Some(if endpoint == "" then "/" else endpoint)
    ensures EndpointFromPath("/paths/" + method' + rest, value) == Some("/")
  {
    var suffix := endpoint + "/" + method' + rest;
    assert "/paths/" + endpoint + "/" + method' + rest == PATHS + suffix;
    assert (PATHS + suffix)[|PATHS|..] == suffix;
    FirstMethodBelowEndpoint(endpoint, method', rest);
    assert Split(suffix, SLASH)[..|Split(endpoint, SLASH)|] == Split(endpoint, SLASH);
    JoinSplit(endpoint, SLASH);
    MethodAtTheTop(method', rest, value);
  }

  lemma MethodAtTheTop(method': string, rest: string, value: Json)
    requires IsMethod(method') && Deeper(rest) && !HoldsMethod(value)
    ensures EndpointFromPath("/paths/" + method' + rest, value) == Some("/")
  {
    var suffix := method' + rest;
    assert "/paths/" + method' + rest == PATHS + suffix;
    assert (PATHS + suffix)[|PATHS|..] == suffix;
    assert method' != "" by { SplitOfSlash(); }
    MethodHasNoSlash(method');
    SplitWithoutSeparator(method', SLASH);
    if rest == "" {
      assert suffix == method';
    } else {
      assert suffix == method' + [SLASH] + rest[1..];
      SplitConcat(method', rest[1..], SLASH);
    }
    assert FirstMethod(Split(suffix, SLASH), 0) == Some(0);
  }

  /** The same, spelled out for the methods of the OpenAPI path item. */
  lemma ExtractionForEachMethod(endpoint: string, m: string, rest: string, value: Json)
    requires endpoint != "" && Deeper(rest) && m in {"get", "put", "post", "delete", "options", "head", "patch", "trace"}
    ensures EndpointFromPath("/paths/" + endpoint + "/" + m + rest, value) == Some(endpoint) <==>
            !HoldsMethod(value) && NoMethodSegment(endpoint)
  {
    LowercaseStays(m);
    ExtractionUndoesRendering(endpoint, m, rest, value);
  }

  lemma LowercaseStays(m: string)
    requires forall i :: 0 <= i < |m| ==> 'a' <= m[i] <= 'z'
    ensures Lower(m) == m
  {
    LowerByCharacter(m);
  }

  // ---- the paths that the diff renders ----

  function Render(keys: seq<string>): string {
    if keys == [] then "" else "/" + keys[0] + Render(keys[1..])
  }

  /** The path of a change at `keys` below `path`. */
  function PathAt(path: string, keys: seq<string>): string {
    if path + Render(keys) == "" then "/" else path + Render(keys)
  }

  lemma RenderOne(key: string)
    ensures Render([key]) == "/" + key
  {
    assert [key][1..] == [];
  }

  lemma {:induction false} RenderedRemoved(fields: map<string, Json>, ks: seq<string>, path: string)
    requires forall i :: 0 <= i < |ks| ==> ks[i] in fields
    ensures forall i :: 0 <= i < |RemovedOf(fields, ks, path)| ==>
                          RemovedOf(fields, ks, path)[i].path == PathAt(path, RemovedOf(fields, ks, path)[i].keys)
    ensures forall i :: 0 <= i < |AddedOf(fields, ks, path)| ==>
                          AddedOf(fields, ks, path)[i].path == PathAt(path, AddedOf(fields, ks, path)[i].keys)
  {
    if ks != [] {
      RenderOne(ks[0]);
      assert path + "/" + ks[0] == path + ("/" + ks[0]);
      RenderedRemoved(fields, ks[1..], path);
    }
  }

  lemma {:induction false} RenderedCommon(before: Json, after: Json, ks: seq<string>, path: string)
    requires before.Obj? && after.Obj?
    requires forall i :: 0 <= i < |ks| ==> ks[i] in before.fields && ks[i] in after.fields
    ensures forall i :: 0 <= i < |CommonOf(before, after, ks, path)| ==>
                          CommonOf(before, after, ks, path)[i].path == PathAt(path, CommonOf(before, after, ks, path)[i].keys)
    decreases before, 0, |ks|
  {
    if ks != [] {
      var below := path + "/" + ks[0];
      var inner := Walk(before.fields[ks[0]], after.fields[ks[0]], below);
      RenderedPaths(before.fields[ks[0]], after.fields[ks[0]], below);
      forall i | 0 <= i < |inner|
        ensures Under(ks[0], inner)[i].path == PathAt(path, Under(ks[0], inner)[i].keys)
      {
        assert ([ks[0]] + inner[i].keys)[1..] == inner[i].keys;
        assert below + Render(inner[i].keys) == path + ("/" + ks[0] + Render(inner[i].keys));
      }
      RenderedCommon(before, after, ks[1..], path);
    }
  }

  /** Every change carries the rendering of its position. */
  lemma {:induction false} RenderedPaths(before: Json, after: Json, path: string)
    ensures forall i :: 0 <= i < |Walk(before, after, path)| ==>
                          Walk(before, after, path)[i].path == PathAt(path, Walk(before, after, path)[i].keys)
    decreases before, 1, 0
  {
    if before.Obj? && after.Obj? {
      var b, a := before.fields.Keys, after.fields.Keys;
      RenderedRemoved(before.fields, Sorted(b - a), path);
      RenderedRemoved(after.fields, Sorted(a - b), path);
      RenderedCommon(before, after, Sorted(b * a), path);
    } else {
      assert path + "" == path;
    }
  }

  lemma {:induction false} RenderIsDeeper(keys: seq<string>)
    ensures Deeper(Render(keys))
  {
  }

  lemma RenderThree(keys: seq<string>)
    requires |keys| >= 3
    ensures Render(keys) == "/" + keys[0] + ("/" + keys[1] + ("/" + keys[2] + Render(keys[3..])))
  {
    assert keys[1..][1..] == keys[2..] && keys[2..][1..] == keys[3..];
    assert Render(keys[1..]) == "/" + keys[1] + Render(keys[2..]);
    assert Render(keys[2..]) == "/" + keys[2] + Render(keys[3..]);
  }

  lemma RenderedBelowMethod(keys: seq<string>)
    requires |keys| >= 3 && keys[0] == "paths"
    ensures PathAt("", keys) == PATHS + keys[1] + "/" + keys[2] + Render(keys[3..])
  {
    RenderThree(keys);
    var k1, k2, rest := keys[1], keys[2], Render(keys[3..]);
    assert "/" + "paths" + ("/" + k1 + ("/" + k2 + rest)) == PATHS + k1 + "/" + k2 + rest;
    assert "" + Render(keys) == Render(keys);
  }

  /** A change below a method of an endpoint is attributed to that endpoint, under the same two conditions. */
  lemma DiffAttributesEndpoint(before: Json, after: Json, i: nat, value: Json)
    requires i < |Walk(before, after, "")|
    requires var keys := Walk(before, after, "")[i].keys;
             |keys| >= 3 && keys[0] == "paths" && keys[1] != "" && IsMethod(keys[2])
    ensures var c := Walk(before, after, "")[i];
            EndpointFromPath(c.path, value) == Some(c.keys[1]) <==> !HoldsMethod(value) && NoMethodSegment(c.keys[1])
  {
    RenderedPaths(before, after, "");
    var keys := Walk(before, after, "")[i].keys;
    var rest := Render(keys[3..]);
    RenderIsDeeper(keys[3..]);
    RenderedBelowMethod(keys);
    ExtractionUndoesRendering(keys[1], keys[2], rest, value);
  }

  // ---- an endpoint as a whole ----

  /**
    From a change of a path item itself: the whole endpoint exactly if the changed value holds a method
    key; otherwise nothing, unless a segment of the endpoint is spelled like a method.
   */
  lemma ExtractionOfPathItem(endpoint: string, value: Json)
    requires endpoint != ""
    ensures EndpointFromPath(PATHS + endpoint, value) == Some(endpoint) <==> HoldsMethod(value)
    ensures EndpointFromPath(PATHS + endpoint, value) == None <==> !HoldsMethod(value) && NoMethodSegment(endpoint)
  {
    assert (PATHS + endpoint)[|PATHS|..] == endpoint;
    var at := FirstMethod(Split(endpoint, SLASH), 0);
    if at.Some? {
      JoinedSegments(endpoint, at.value);
    }
  }

  lemma RenderedPathItem(endpoint: string)
    ensures PathAt("", ["paths", endpoint]) == PATHS + endpoint
  {
    assert ["paths", endpoint][1..] == [endpoint];
    RenderOne(endpoint);
    assert "/" + "paths" + ("/" + endpoint) == PATHS + endpoint;
    assert "" + (PATHS + endpoint) == PATHS + endpoint;
  }

  /** The same for every change that the diff reports at a path item: added, removed or replaced. */
  lemma DiffAttributesPathItem(before: Json, after: Json, i: nat, value: Json)
    requires i < |Walk(before, after, "")|
    requires var keys := Walk(before, after, "")[i].keys;
             |keys| == 2 && keys[0] == "paths" && keys[1] != ""
    ensures var c := Walk(before, after, "")[i];
            && (EndpointFromPath(c.path, value) == Some(c.keys[1]) <==> HoldsMethod(value))
            && (EndpointFromPath(c.path, value) == None <==> !HoldsMethod(value) && NoMethodSegment(c.keys[1]))
  {
    RenderedPaths(before, after, "");
    var keys := Walk(before, after, "")[i].keys;
    assert keys == ["paths", keys[1]];
    RenderedPathItem(keys[1]);
    ExtractionOfPathItem(keys[1], value);
  }
}
