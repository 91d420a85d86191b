/** `validate_relative_path` over a model of `posixpath.normpath`, against the path check of delivery. */
module RepositoryPaths {
  import opened Basics
  import opened Strings
  import opened GitHub

  // ---- posixpath.normpath ----

  /** How many leading slashes normalisation keeps: POSIX gives exactly two a meaning of their own. */
  function InitialSlashes(path: string): nat {
    if !StartsWith(path, "/") then 0
    else if StartsWith(path, "//") && !StartsWith(path, "///") then 2
    else 1
  }

  /** One component on the stack of components kept so far. */
  function Push(stack: seq<string>, comp: string, rooted: bool): seq<string> {
    if comp == "" || comp == "." then stack
    else if comp != ".." || (!rooted && stack == []) || (stack != [] && stack[|stack| - 1] == "..")
    then stack + [comp]
    else if stack != [] then stack[..|stack| - 1]
    else stack
  }

  function Resolve(comps: seq<string>, stack: seq<string>, rooted: bool): seq<string>
    decreases |comps|
  {
    if comps == [] then stack else Resolve(comps[1..], Push(stack, comps[0], rooted), rooted)
  }

  function Normpath(path: string): string {
    if path == "" then "."
    else
      var slashes := InitialSlashes(path);
      var r := (if slashes == 2 then "//" else if slashes == 1 then "/" else "")
               + Join(Resolve(Split(path, SLASH), [], slashes > 0), SLASH);
      if r == "" then "." else r
  }

  // ---- the validator ----

  /** `path.replace("\\", "/")` */
  function ForwardSlashes(s: string): string {
    if s == "" then "" else [if s[0] == BACKSLASH then SLASH else s[0]] + ForwardSlashes(s[1..])
  }

  datatype PathError = NotRelative | EscapesRoot

  function ValidateRelativePath(path: string): Result<string, PathError> {
    if path == "" || NUL in path || StartsWith(path, "/") then Err(NotRelative)
    else
      var normalized := Normpath(ForwardSlashes(path));
      if normalized == "." || normalized == ".." || StartsWith(normalized, "../") then Err(EscapesRoot)
      else Ok(normalized)
  }

  // ---- the stack of components ----

  predicate Plain(comp: string) {
    comp !in {"", ".", ".."} && SLASH !in comp && NUL !in comp && BACKSLASH !in comp
  }

  /** Parent references, if any, come first; everything else is plain. */
  predicate Reduced(stack: seq<string>) {
    && (forall i :: 0 <= i < |stack| ==> stack[i] == ".." || Plain(stack[i]))
    && (forall i, k :: 0 <= i < k < |stack| && stack[k] == ".." ==> stack[i] == "..")
  }

  /** A component of a string without backslash and NUL. */
  predicate Clean(comp: string) {
    SLASH !in comp && NUL !in comp && BACKSLASH !in comp
  }

  lemma {:induction false} ResolveIsReduced(comps: seq<string>, stack: seq<string>)
    requires Reduced(stack) && forall i :: 0 <= i < |comps| ==> Clean(comps[i])
    ensures Reduced(Resolve(comps, stack, false))
    decreases |comps|
  {
    if comps != [] {
      ResolveIsReduced(comps[1..], Push(stack, comps[0], false));
    }
  }

  /** Plain components are all kept. */
  lemma {:induction false} ResolveKeepsPlain(comps: seq<string>, stack: seq<string>, rooted: bool)
    requires forall i :: 0 <= i < |comps| ==> comps[i] !in {"", ".", ".."}
    ensures Resolve(comps, stack, rooted) == stack + comps
    decreases |comps|
  {
    if comps == [] {
      assert stack + comps == stack;
    } else {
      ResolveKeepsPlain(comps[1..], stack + [comps[0]], rooted);
      assert stack + [comps[0]] + comps[1..] == stack + comps;
    }
  }

  // ---- what parent references do ----

  lemma {:induction false} ResolveConcat(xs: seq<string>, ys: seq<string>, stack: seq<string>, rooted: bool)
    ensures Resolve(xs + ys, stack, rooted) == Resolve(ys, Resolve(xs, stack, rooted), rooted)
    decreases |xs|
  {
    if xs == [] {
      assert xs + ys == ys;
    } else {
      assert (xs + ys)[1..] == xs[1..] + ys;
      ResolveConcat(xs[1..], ys, Push(stack, xs[0], rooted), rooted);
    }
  }

  lemma ResolveOne(c: string, stack: seq<string>, rooted: bool)
    ensures Resolve([c], stack, rooted) == Push(stack, c, rooted)
  {
    assert [c][1..] == [];
  }

  /** A component and the parent reference after it cancel. */
  lemma ParentCancels(xs: seq<string>, c: string, ys: seq<string>, rooted: bool)
    requires c !in {"", ".", ".."}
    ensures Resolve(xs + [c, ".."] + ys, [], rooted) == Resolve(xs + ys, [], rooted)
  {
    var stack := Resolve(xs, [], rooted);
    ResolveConcat(xs + [c, ".."], ys, [], rooted);
    ResolveConcat(xs, [c, ".."], [], rooted);
    ResolveConcat(xs, ys, [], rooted);
    assert Resolve([c, ".."], stack, rooted) == stack by {
      assert [c, ".."] == [c] + [".."];
      ResolveConcat([c], [".."], stack, rooted);
      ResolveOne(c, stack, rooted);
      ResolveOne("..", stack + [c], rooted);
      assert (stack + [c])[..|stack|] == stack;
    }
  }

  /** Empty components and references to the same directory do not matter. */
  lemma SameDirectoryIsSkipped(xs: seq<string>, c: string, ys: seq<string>, rooted: bool)
    requires c in {"", "."}
    ensures Resolve(xs + [c] + ys, [], rooted) == Resolve(xs + ys, [], rooted)
  {
    ResolveConcat(xs + [c], ys, [], rooted);
    ResolveConcat(xs, [c], [], rooted);
    ResolveConcat(xs, ys, [], rooted);
    ResolveOne(c, Resolve(xs, [], rooted), rooted);
  }

  /** How many directories below its start a component leads. */
  function Weight(comp: string): int {
    if comp == "" || comp == "." then 0 else if comp == ".." then -1 else 1
  }

  function Depth(comps: seq<string>): int {
    if comps == [] then 0 else Depth(comps[..|comps| - 1]) + Weight(comps[|comps| - 1])
  }

  /** Some initial part of the components leads above the start. */
  predicate Escapes(comps: seq<string>) {
    exists n :: 0 <= n <= |comps| && Depth(comps[..n]) < 0
  }

  /** How many parent references the stack begins with. */
  function Ups(stack: seq<string>): nat {
    if stack == [] || stack[0] != ".." then 0 else 1 + Ups(stack[1..])
  }

  lemma {:induction false} UpsOfPush(stack: seq<string>, comp: string)
    requires Reduced(stack)
    ensures var after := Push(stack, comp, false);
            && Ups(after) == Ups(stack) + (if comp == ".." && Ups(stack) == |stack| then 1 else 0)
            && |after| - 2 * Ups(after) == |stack| - 2 * Ups(stack) + Weight(comp)
            && Ups(stack) <= |stack|
  {
    if stack != [] {
      if stack[0] == ".." {
        assert Reduced(stack[1..]);
        UpsOfPush(stack[1..], comp);
        if |stack| > 1 {
          assert Push(stack, comp, false)[1..] == Push(stack[1..], comp, false);
        } else {
          assert stack == [".."];
          assert Push(stack, comp, false) == if comp == "" || comp == "." then [".."] else ["..", comp];
          assert [".."][1..] == [] && ["..", comp][1..] == [comp] && [comp][1..] == [];
        }
      } else {
        assert forall k :: 0 <= k < |stack| ==> stack[k] != "..";
      }
    } else {
      assert [comp][1..] == [];
    }
  }

  /** The resolved stack keeps the depth, and begins with a parent reference exactly if the path escaped. */
  lemma {:induction false} ResolveKeepsDepth(comps: seq<string>)
    requires forall i :: 0 <= i < |comps| ==> Clean(comps[i])
    ensures var stack := Resolve(comps, [], false);
            && Reduced(stack) && Ups(stack) <= |stack| && |stack| - 2 * Ups(stack) == Depth(comps)
            && (Ups(stack) > 0 <==> Escapes(comps))
  {
    if comps == [] {
    } else {
      var past, last := comps[..|comps| - 1], comps[|comps| - 1];
      var stack := Resolve(past, [], false);
      ResolveKeepsDepth(past);
      assert comps == past + [last];
      ResolveConcat(past, [last], [], false);
      ResolveOne(last, stack, false);
      UpsOfPush(stack, last);
      ResolveIsReduced(comps, []);
      EscapesLater(past, last);
    }
  }

  lemma EscapesLater(past: seq<string>, last: string)
    ensures Escapes(past + [last]) <==> Escapes(past) || Depth(past + [last]) < 0
  {
    var comps := past + [last];
    assert comps[..|comps|] == comps;
    assert forall n :: 0 <= n <= |past| ==> comps[..n] == past[..n];
  }

  lemma {:induction false} ForwardSlashesClean(s: string)
    ensures |ForwardSlashes(s)| == |s|
    ensures forall i :: 0 <= i < |s| ==> ForwardSlashes(s)[i] == if s[i] == BACKSLASH then SLASH else s[i]
  {
    if s != "" {
      ForwardSlashesClean(s[1..]);
    }
  }

  /** The first component of a joined path. */
  lemma FirstComponent(parts: seq<string>)
    requires |parts| >= 1
    ensures StartsWith(Join(parts, SLASH), parts[0])
    ensures parts[0] == ".." ==> Join(parts, SLASH) == ".." || StartsWith(Join(parts, SLASH), "../")
  {
    if |parts| > 1 {
      assert Join(parts, SLASH) == parts[0] + [SLASH] + Join(parts[1..], SLASH);
    }
  }

  lemma {:induction false} JoinCharacters(parts: seq<string>, c: char)
    requires c in Join(parts, SLASH) && c != SLASH
    ensures exists i :: 0 <= i < |parts| && c in parts[i]
  {
    if |parts| > 1 && c !in parts[0] {
      JoinCharacters(parts[1..], c);
      var i :| 0 <= i < |parts[1..]| && c in parts[1..][i];
      assert c in parts[i + 1];
    }
  }

  /** Joining plain components gives a path that delivery accepts, with these components. */
  lemma JoinOfPlainIsValid(parts: seq<string>)
    requires |parts| >= 1 && forall i :: 0 <= i < |parts| ==> Plain(parts[i])
    ensures ValidPath(Join(parts, SLASH)) && Split(Join(parts, SLASH), SLASH) == parts
  {
    var s := Join(parts, SLASH);
    SplitJoin(parts, SLASH);
    FirstComponent(parts);
    assert s[0] == parts[0][0];
    if NUL in s {
      JoinCharacters(parts, NUL);
    }
    if BACKSLASH in s {
      JoinCharacters(parts, BACKSLASH);
    }
  }

  /** The components of a relative path with forward slashes, once resolved. */
  lemma RelativeComponents(path: string)
    requires path != "" && NUL !in path && !StartsWith(path, "/") && path[0] != BACKSLASH
    ensures var q := ForwardSlashes(path);
            && q != "" && InitialSlashes(q) == 0
            && (forall i :: 0 <= i < |Split(q, SLASH)| ==> Clean(Split(q, SLASH)[i]))
            && Reduced(Resolve(Split(q, SLASH), [], false))
  {
    var q := ForwardSlashes(path);
    ForwardSlashesClean(path);
    assert BACKSLASH !in q && NUL !in q && q[0] != SLASH;
    CleanComponents(q);
    ResolveIsReduced(Split(q, SLASH), []);
  }

  lemma CleanComponents(q: string)
    requires BACKSLASH !in q && NUL !in q
    ensures forall i :: 0 <= i < |Split(q, SLASH)| ==> Clean(Split(q, SLASH)[i])
  {
    var comps := Split(q, SLASH);
    SplitPartsHaveNoSeparator(q, SLASH);
    forall i | 0 <= i < |comps|
      ensures Clean(comps[i])
    {
      if NUL in comps[i] {
        SplitPartsComeFrom(q, SLASH, i, NUL);
      }
      if BACKSLASH in comps[i] {
        SplitPartsComeFrom(q, SLASH, i, BACKSLASH);
      }
    }
  }

  lemma ValidPathStaysInside(s: string)
    requires ValidPath(s)
    ensures s != "." && s != ".." && !StartsWith(s, "../")
  {
    assert Split(s, SLASH)[0] !in {"", ".", ".."};
    if s == "." || s == ".." {
      SplitWithoutSeparator(s, SLASH);
    } else if StartsWith(s, "../") {
      assert s == ".." + [SLASH] + s[3..];
      SplitConcat("..", s[3..], SLASH);
      SplitWithoutSeparator("..", SLASH);
    }
  }

  lemma ValidPathIsNormalised(s: string)
    requires ValidPath(s)
    ensures Normpath(s) == s
  {
    var comps := Split(s, SLASH);
    ResolveKeepsPlain(comps, [], false);
    assert [] + comps == comps;
    JoinSplit(s, SLASH);
    assert "" + s == s;
  }

  /** Every string that delivery accepts passes the validator unchanged. */
  lemma ValidPathsAreNormal(s: string)
    requires ValidPath(s)
    ensures ValidateRelativePath(s) == Ok(s)
  {
    ForwardSlashesClean(s);
    assert ForwardSlashes(s) == s;
    ValidPathStaysInside(s);
    ValidPathIsNormalised(s);
  }

  /**
    What the validator accepts is in the normal form of delivery, and is then a fixed point of the
    validator, exactly if the input does not begin with a backslash.
   */
  lemma AcceptedPathsAreValid(path: string)
    requires ValidateRelativePath(path).Ok?
    ensures var normalized := ValidateRelativePath(path).value;
            && (ValidPath(normalized) <==> path[0] != BACKSLASH)
            && (path[0] != BACKSLASH ==> ValidateRelativePath(normalized) == Ok(normalized))
            && (path[0] == BACKSLASH ==> StartsWith(normalized, "/"))
  {
    var normalized := ValidateRelativePath(path).value;
    if path[0] == BACKSLASH {
      ForwardSlashesClean(path);
      assert InitialSlashes(ForwardSlashes(path)) > 0;
    } else {
      RelativeComponents(path);
      var parts := Resolve(Split(ForwardSlashes(path), SLASH), [], false);
      assert "" + Join(parts, SLASH) == Join(parts, SLASH);
      FirstComponent(parts);
      JoinOfPlainIsValid(parts);
      ValidPathsAreNormal(normalized);
    }
  }

  /** The components of a path, with either kind of slash between them. */
  function Components(path: string): seq<string> {
    Split(ForwardSlashes(path), SLASH)
  }

  /**
    Exactly which paths are refused: empty or absolute ones, ones with a NUL, and among the others that do
    not begin with a backslash those that lead above the root at some point or end at the root itself.
    What is accepted is the path of the resolved components.
   */
  lemma RefusedIffOutside(path: string)
    ensures ValidateRelativePath(path).Err? <==>
            || path == "" || NUL in path || path[0] == SLASH
            || (path[0] != BACKSLASH && (Escapes(Components(path)) || Depth(Components(path)) == 0))
    ensures ValidateRelativePath(path).Ok? && path[0] != BACKSLASH ==>
              ValidateRelativePath(path).value == Join(Resolve(Components(path), [], false), SLASH)
  {
    if path != "" && NUL !in path && path[0] != SLASH {
      if path[0] == BACKSLASH {
        assert path == [BACKSLASH] + path[1..];
        LeadingBackslashEscapes(path[1..]);
      } else {
        RelativeRefusal(path);
      }
    }
  }

  /** The stack is empty or begins with a parent reference exactly if the path escapes or ends at the root. */
  lemma OutsideByDepth(comps: seq<string>)
    requires forall i :: 0 <= i < |comps| ==> Clean(comps[i])
    ensures var parts := Resolve(comps, [], false);
            parts == [] || parts[0] == ".." <==> Escapes(comps) || Depth(comps) == 0
  {
    ResolveKeepsDepth(comps);
  }

  /** Such a stack is one whose rendering the validator refuses. */
  lemma RefusedRendering(parts: seq<string>)
    requires Reduced(parts)
    ensures RefusedName(Join(parts, SLASH)) <==> parts == [] || parts[0] == ".."
  {
    if parts == [] {
    } else if parts[0] == ".." {
      FirstComponent(parts);
    } else {
      assert forall i :: 0 <= i < |parts| ==> Plain(parts[i]);
      JoinOfPlainIsValid(parts);
      ValidPathStaysInside(Join(parts, SLASH));
    }
  }

  predicate RefusedName(joined: string) {
    joined == "" || joined == "." || joined == ".." || StartsWith(joined, "../")
  }

  /** A relative path is judged by the rendering of its resolved components. */
  lemma RelativeResult(path: string)
    requires path != "" && NUL !in path && path[0] != SLASH && path[0] != BACKSLASH
    ensures var joined := Join(Resolve(Components(path), [], false), SLASH);
            ValidateRelativePath(path) == if RefusedName(joined) then Err(EscapesRoot) else Ok(joined)
  {
    var joined := Join(Resolve(Components(path), [], false), SLASH);
    RelativeComponents(path);
    assert "" + joined == joined;
  }

  lemma RelativeRefusal(path: string)
    requires path != "" && NUL !in path && path[0] != SLASH && path[0] != BACKSLASH
    ensures ValidateRelativePath(path).Err? <==> Escapes(Components(path)) || Depth(Components(path)) == 0
    ensures ValidateRelativePath(path).Ok? ==>
              ValidateRelativePath(path).value == Join(Resolve(Components(path), [], false), SLASH)
  {
    RelativeResult(path);
    RelativeComponents(path);
    OutsideByDepth(Components(path));
    RefusedRendering(Resolve(Components(path), [], false));
  }

  /** Two relative paths with the same resolved components are treated alike. */
  lemma SameComponentsSameFile(p: string, q: string)
    requires p != "" && q != "" && NUL !in p && NUL !in q
    requires p[0] !in {SLASH, BACKSLASH} && q[0] !in {SLASH, BACKSLASH}
    requires Resolve(Components(p), [], false) == Resolve(Components(q), [], false)
    ensures ValidateRelativePath(p) == ValidateRelativePath(q)
  {
    RelativeResult(p);
    RelativeResult(q);
  }

  /** A directory and the parent reference after it can be left out of a path, and so can `.` and double slashes. */
  lemma DetoursCancel(p: string, q: string, xs: seq<string>, c: string, ys: seq<string>)
    requires p != "" && q != "" && NUL !in p && NUL !in q
    requires p[0] !in {SLASH, BACKSLASH} && q[0] !in {SLASH, BACKSLASH}
    requires Components(q) == xs + ys
    requires || (c !in {"", ".", ".."} && Components(p) == xs + [c, ".."] + ys)
             || (c in {"", "."} && Components(p) == xs + [c] + ys)
    ensures ValidateRelativePath(p) == ValidateRelativePath(q)
  {
    if c in {"", "."} {
      SameDirectoryIsSkipped(xs, c, ys, false);
    } else {
      ParentCancels(xs, c, ys, false);
    }
    SameComponentsSameFile(p, q);
  }

  /** A leading backslash turns into an absolute path that the validator lets through. */
  lemma LeadingBackslashEscapes(rest: string)
    requires NUL !in rest
    ensures ValidateRelativePath([BACKSLASH] + rest).Ok?
    ensures StartsWith(ValidateRelativePath([BACKSLASH] + rest).value, "/")
    ensures !ValidPath(ValidateRelativePath([BACKSLASH] + rest).value)
  {
    var path := [BACKSLASH] + rest;
    assert path[0] != SLASH && NUL !in path;
    ForwardSlashesClean(path);
    assert InitialSlashes(ForwardSlashes(path)) > 0;
    assert Normpath(ForwardSlashes(path))[0] == SLASH;
  }

  /** In an absolute path no parent reference is kept. */
  lemma {:induction false} RootedIsPlain(comps: seq<string>, stack: seq<string>)
    requires forall i :: 0 <= i < |comps| ==> Clean(comps[i])
    requires forall i :: 0 <= i < |stack| ==> Plain(stack[i])
    ensures forall i :: 0 <= i < |Resolve(comps, stack, true)| ==> Plain(Resolve(comps, stack, true)[i])
    decreases |comps|
  {
    if comps != [] {
      RootedIsPlain(comps[1..], Push(stack, comps[0], true));
    }
  }

  /** A slash of either kind. */
  predicate SlashAt(path: string, i: nat) {
    i < |path| && path[i] in {SLASH, BACKSLASH}
  }

  /** What a path with a leading backslash turns into: two slashes if it has exactly two, else one, and plain components. */
  lemma RootedResult(path: string)
    requires path != "" && path[0] == BACKSLASH && NUL !in path
    ensures var rest := Join(Resolve(Components(path), [], true), SLASH);
            && ValidateRelativePath(path) == Ok((if SlashAt(path, 1) && !SlashAt(path, 2) then "//" else "/") + rest)
            && (rest == "" || ValidPath(rest))
  {
    var q := ForwardSlashes(path);
    ForwardSlashesClean(path);
    CleanComponents(q);
    assert StartsWith(q, "/") && (StartsWith(q, "//") <==> SlashAt(path, 1));
    assert StartsWith(q, "///") <==> SlashAt(path, 1) && SlashAt(path, 2);
    var parts := Resolve(Components(path), [], true);
    RootedIsPlain(Components(path), []);
    var start := if SlashAt(path, 1) && !SlashAt(path, 2) then "//" else "/";
    assert InitialSlashes(q) == |start|;
    assert Normpath(q) == start + Join(parts, SLASH);
    assert Normpath(q)[0] == SLASH;
    if parts != [] {
      JoinOfPlainIsValid(parts);
    }
  }
}
