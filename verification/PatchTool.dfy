/** `ApplyPatchTool`: replacing the text that matches exactly once. */
module PatchTool {
  import opened Basics
  import opened Strings

  const MAX_FILE_CHARS := 64_000

  /** `s.find(t, from)` */
  function Find(s: string, t: string, from: nat): (r: Option<nat>)
    ensures r.Some? ==> from <= r.value && OccursAt(s, t, r.value)
    ensures r.Some? ==> forall i :: from <= i < r.value ==> !OccursAt(s, t, i)
    ensures r.None? ==> forall i :: from <= i ==> !OccursAt(s, t, i)
    decreases |s| - from
  {
    if from + |t| > |s| then None
    else if OccursAt(s, t, from) then Some(from)
    else Find(s, t, from + 1)
  }

  /** `s.count(t)` from an index on: matches are counted from the left, without overlap. */
  function Count(s: string, t: string, from: nat): nat
    requires t != ""
    decreases |s| - from
  {
    var at := Find(s, t, from);
    if at.None? then 0 else 1 + Count(s, t, at.value + |t|)
  }

  /** `s.replace(t, u, 1)` */
  function ReplaceFirst(s: string, t: string, u: string): string {
    var at := Find(s, t, 0);
    if at.None? then s else s[..at.value] + u + s[at.value + |t|..]
  }

  // ---- reading text ----

  const RETURN: char := '\r'

  /** `read_text` translates every kind of line end to a newline; on POSIX `write_text` writes text as it is. */
  function ReadText(file: string): string
    decreases |file|
  {
    if file == "" then ""
    else if file[0] != RETURN then [file[0]] + ReadText(file[1..])
    else if |file| > 1 && file[1] == '\n' then "\n" + ReadText(file[2..])
    else "\n" + ReadText(file[1..])
  }

  lemma {:induction false} ReadTextHasNoReturn(file: string)
    ensures RETURN !in ReadText(file)
    decreases |file|
  {
    if file != "" {
      ReadTextHasNoReturn(file[1..]);
      if |file| > 1 {
        ReadTextHasNoReturn(file[2..]);
      }
    }
  }

  /** Reading goes piece by piece, unless a carriage return and its newline are torn apart. */
  lemma {:induction false} ReadTextConcat(a: string, b: string)
    requires a == "" || b == "" || a[|a| - 1] != RETURN || b[0] != '\n'
    ensures ReadText(a + b) == ReadText(a) + ReadText(b)
    decreases |a|
  {
    if a == "" {
      assert a + b == b;
    } else if |a| > 1 && a[0] == RETURN && a[1] == '\n' {
      assert (a + b)[2..] == a[2..] + b;
      ReadTextConcat(a[2..], b);
    } else {
      assert (a + b)[1..] == a[1..] + b;
      ReadTextConcat(a[1..], b);
    }
  }

  /** Every kind of line end is read as one newline, and every other character as itself. */
  lemma LineEnds(c: char)
    ensures ReadText("\r\n") == "\n" && ReadText("\r") == "\n" && ReadText("\n") == "\n"
    ensures c != RETURN ==> ReadText([c]) == [c]
  {
    assert "\r\n"[2..] == "" && "\r"[1..] == "" && "\n"[1..] == "" && [c][1..] == "";
  }

  /** Reading changes exactly the files with a carriage return. */
  lemma {:induction false} ReadTextIsIdentityIff(file: string)
    ensures ReadText(file) == file <==> RETURN !in file
    decreases |file|
  {
    ReadTextHasNoReturn(file);
    if file != "" && RETURN !in file {
      ReadTextIsIdentityIff(file[1..]);
      assert file == [file[0]] + file[1..];
    }
  }

  /** The file after an accepted patch. */
  function Edited(file: string, oldText: string, newText: string): string {
    ReplaceFirst(ReadText(file), oldText, newText)
  }

  datatype PatchError = EmptyOld | PatchTooLarge | NoSuchFile | FileTooLarge | NotExactlyOne

  /** The files below the repository root. */
  class RepositoryFiles {
    var files: map<string, string>

    constructor (files: map<string, string>)
      ensures this.files == files
    {
      this.files := files;
    }

    /** `invoke` after its argument was parsed and its path resolved. */
    method ApplyPatch(path: string, oldText: string, newText: string) returns (r: Result<(), PatchError>)
      modifies this
      ensures r.Ok? <==>
              && oldText != "" && |oldText| <= MAX_FILE_CHARS && |newText| <= MAX_FILE_CHARS
              && path in old(files) && |ReadText(old(files)[path])| <= MAX_FILE_CHARS
              && Count(ReadText(old(files)[path]), oldText, 0) == 1
      ensures r.Ok? ==> path in old(files) && files == old(files)[path := Edited(old(files)[path], oldText, newText)]
      ensures r.Err? ==> files == old(files)
    {
      if oldText == "" {
        return Err(EmptyOld);
      }
      if |oldText| > MAX_FILE_CHARS || |newText| > MAX_FILE_CHARS {
        return Err(PatchTooLarge);
      }
      if path !in files {
        return Err(NoSuchFile);
      }
      var current := ReadText(files[path]);
      if |current| > MAX_FILE_CHARS {
        return Err(FileTooLarge);
      }
      if Count(current, oldText, 0) != 1 {
        return Err(NotExactlyOne);
      }
      files := files[path := ReplaceFirst(current, oldText, newText)];
      r := Ok(());
    }
  }

  /**
    An accepted patch replaces the leftmost match and keeps everything around it; every other
    occurrence of the old text overlaps that match.
   */
  lemma PatchReplacesTheMatch(current: string, oldText: string, newText: string)
    requires oldText != "" && Count(current, oldText, 0) == 1
    ensures var at := Find(current, oldText, 0);
            && at.Some?
            && current == current[..at.value] + oldText + current[at.value + |oldText|..]
            && ReplaceFirst(current, oldText, newText) == current[..at.value] + newText + current[at.value + |oldText|..]
            && |ReplaceFirst(current, oldText, newText)| == |current| - |oldText| + |newText|
            && forall k :: OccursAt(current, oldText, k) ==> at.value <= k < at.value + |oldText|
  {
    var at := Find(current, oldText, 0).value;
    assert Count(current, oldText, at + |oldText|) == 0;
    assert Find(current, oldText, at + |oldText|).None?;
  }

  /** A proper prefix that is also a suffix. */
  predicate Border(t: string, b: int) {
    0 < b < |t| && t[..b] == t[|t| - b..]
  }

  predicate Bordered(t: string) {
    exists b :: 0 <= b < |t| && Border(t, b)
  }

  /** Overlapping occurrences are a border. */
  lemma OverlapIsBorder(s: string, t: string, i: int, k: int)
    requires OccursAt(s, t, i) && OccursAt(s, t, k) && i < k < i + |t|
    ensures Border(t, i + |t| - k) && Bordered(t)
  {
    var b := i + |t| - k;
    assert t[..b] == s[k..i + |t|];
    assert t[|t| - b..] == s[k..i + |t|];
    assert Border(t, b);
  }

  // ---- what happens to the file ----

  /** A text with a carriage return matches nothing. */
  lemma ReturnMatchesNothing(file: string, oldText: string)
    requires RETURN in oldText
    ensures Count(ReadText(file), oldText, 0) == 0
  {
    ReadTextHasNoReturn(file);
    assert forall i :: OccursAt(ReadText(file), oldText, i) ==> RETURN in ReadText(file)[i..i + |oldText|];
  }

  /** The file is what it was, with one occurrence of the old text replaced. */
  ghost predicate OnlyMatchReplaced(file: string, oldText: string, newText: string, after: string) {
    exists i :: 0 <= i <= |file| && OccursAt(file, oldText, i) && after == file[..i] + newText + file[i + |oldText|..]
  }

  /** How many carriage returns a replacement leaves. */
  lemma ReturnsAround(s: string, oldText: string, newText: string, i: int)
    requires OccursAt(s, oldText, i) && RETURN !in oldText
    ensures multiset(s[..i] + newText + s[i + |oldText|..])[RETURN] == multiset(s)[RETURN] + multiset(newText)[RETURN]
  {
    assert s == s[..i] + oldText + s[i + |oldText|..];
    assert multiset(oldText)[RETURN] == 0;
  }

  lemma AcceptedTextHasNoReturn(file: string, oldText: string)
    requires oldText != "" && Count(ReadText(file), oldText, 0) == 1
    ensures RETURN !in oldText
  {
    if RETURN in oldText {
      ReturnMatchesNothing(file, oldText);
    }
  }

  lemma KeptMeansNoReturn(file: string, oldText: string, newText: string, i: int)
    requires oldText != "" && Count(ReadText(file), oldText, 0) == 1 && OccursAt(file, oldText, i)
    requires Edited(file, oldText, newText) == file[..i] + newText + file[i + |oldText|..]
    ensures RETURN !in file
  {
    var t := ReadText(file);
    AcceptedTextHasNoReturn(file, oldText);
    ReturnsAround(file, oldText, newText, i);
    ReturnsAround(t, oldText, newText, Find(t, oldText, 0).value);
    assert multiset(t)[RETURN] == 0 by { ReadTextHasNoReturn(file); }
  }

  /**
    Everything around the match is kept exactly if the file has no carriage return: otherwise the line
    ends of the whole file are rewritten together with the match.
   */
  lemma RestIsKeptIffNoReturn(file: string, oldText: string, newText: string)
    requires oldText != "" && Count(ReadText(file), oldText, 0) == 1
    ensures OnlyMatchReplaced(file, oldText, newText, Edited(file, oldText, newText)) <==> RETURN !in file
  {
    var after := Edited(file, oldText, newText);
    if RETURN !in file {
      ReadTextIsIdentityIff(file);
      var at := Find(file, oldText, 0).value;
      assert OccursAt(file, oldText, at) && after == file[..at] + newText + file[at + |oldText|..];
    } else if i :| 0 <= i <= |file| && OccursAt(file, oldText, i) && after == file[..i] + newText + file[i + |oldText|..] {
      KeptMeansNoReturn(file, oldText, newText, i);
    }
  }

  /** The line end after the match is not kept, and text copied with its line end is not found. */
  lemma LineEndsAreRewritten()
    ensures Count(ReadText("a\r\nb"), "a", 0) == 1 && Edited("a\r\nb", "a", "c") == "c\nb"
    ensures Count(ReadText("a\r\nb"), "a\r\nb", 0) == 0
  {
    var file := "a\r\nb";
    assert file[1..][2..] == "b" && "b"[1..] == "";
    assert ReadText("b") == "b";
    assert ReadText(file[1..]) == "\n" + "b";
    assert ReadText(file) == "a\nb";
    assert OccursAt("a\nb", "a", 0) && !OccursAt("a\nb", "a", 1) && !OccursAt("a\nb", "a", 2);
    assert file[1] == RETURN;
    ReturnMatchesNothing(file, file);
  }

  // ---- when one match is not the only one ----

  /** A file that the tool patches although the old text occurs more than once in it. */
  ghost predicate Ambiguous(file: string, t: string)
    requires t != ""
  {
    var current := ReadText(file);
    && |current| <= MAX_FILE_CHARS && Count(current, t, 0) == 1
    && exists i, k :: i < k && OccursAt(current, t, i) && OccursAt(current, t, k)
  }

  /** `t` overlaps itself within a file that is not too large, and can be found in a file at all. */
  predicate CanOverlap(t: string) {
    RETURN !in t && exists b :: 0 <= b < |t| && Border(t, b) && 2 * |t| - b <= MAX_FILE_CHARS
  }

  /** Counting once means occurring once, in every file that the tool patches, exactly for texts that cannot overlap. */
  lemma UniqueIffNoOverlap(t: string)
    requires t != ""
    ensures CanOverlap(t) <==> exists file :: Ambiguous(file, t)
  {
    if CanOverlap(t) {
      var b :| 0 <= b < |t| && Border(t, b) && 2 * |t| - b <= MAX_FILE_CHARS;
      OverlapIsAmbiguous(t, b);
    }
    forall file | Ambiguous(file, t)
      ensures CanOverlap(t)
    {
      AmbiguousOverlaps(file, t);
    }
  }

  lemma AmbiguousOverlaps(file: string, t: string)
    requires t != "" && Ambiguous(file, t)
    ensures CanOverlap(t)
  {
    var current := ReadText(file);
    AcceptedTextHasNoReturn(file, t);
    PatchReplacesTheMatch(current, t, "");
    var i, k :| i < k && OccursAt(current, t, i) && OccursAt(current, t, k);
    OverlapIsBorder(current, t, i, k);
  }

  lemma OverlapIsAmbiguous(t: string, b: int)
    requires Border(t, b) && RETURN !in t && 2 * |t| - b <= MAX_FILE_CHARS
    ensures Ambiguous(t + t[b..], t)
  {
    var s := t + t[b..];
    ReadTextIsIdentityIff(s);
    assert OccursAt(s, t, 0);
    var k := |t| - b;
    assert s[k..k + |t|] == t[|t| - b..] + t[b..];
    assert t == t[..b] + t[b..];
    assert OccursAt(s, t, k);
    assert Find(s, t, 0) == Some(0);
    assert Find(s, t, |t|).None?;
  }

  // ---- undoing a patch ----

  /** A replacement is undone by the reverse one if the new text has no border and now counts once. */
  lemma ReverseReplacement(current: string, oldText: string, newText: string)
    requires oldText != "" && newText != "" && Count(current, oldText, 0) == 1 && !Bordered(newText)
    requires Count(ReplaceFirst(current, oldText, newText), newText, 0) == 1
    ensures ReplaceFirst(ReplaceFirst(current, oldText, newText), newText, oldText) == current
  {
    var at := Find(current, oldText, 0).value;
    PatchReplacesTheMatch(current, oldText, newText);
    var updated := ReplaceFirst(current, oldText, newText);
    assert OccursAt(updated, newText, at);
    PatchReplacesTheMatch(updated, newText, oldText);
    var back := Find(updated, newText, 0).value;
    if back != at {
      OverlapIsBorder(updated, newText, back, at);
    }
    assert updated[..at] == current[..at] && updated[at + |newText|..] == current[at + |oldText|..];
  }

  /**
    If the reverse patch is accepted too, and the new text has no border, then the two patches leave the
    text that was read, which is the file itself exactly if it had no carriage return.
   */
  lemma ReversePatchRestores(file: string, oldText: string, newText: string)
    requires oldText != "" && newText != "" && !Bordered(newText) && Count(ReadText(file), oldText, 0) == 1
    requires Count(ReadText(Edited(file, oldText, newText)), newText, 0) == 1
    ensures Edited(Edited(file, oldText, newText), newText, oldText) == ReadText(file)
    ensures Edited(Edited(file, oldText, newText), newText, oldText) == file <==> RETURN !in file
  {
    var t, updated := ReadText(file), Edited(file, oldText, newText);
    ReadTextHasNoReturn(file);
    ReadTextIsIdentityIff(file);
    AcceptedTextHasNoReturn(updated, newText);
    PatchReplacesTheMatch(t, oldText, newText);
    assert RETURN !in updated;
    ReadTextIsIdentityIff(updated);
    ReverseReplacement(t, oldText, newText);
  }
}
