/** `bounded_artifact`: cutting UTF-8 output at a byte limit and decoding what is left. */
module Utf8Artifacts {
  import opened Basics

  type Byte = x: int | 0 <= x < 256

  const REPLACEMENT: char := 0xFFFD as char

  /** Section 3 of RFC 3629. */
  function EncodeChar(c: char): (r: seq<Byte>)
    ensures 1 <= |r| <= 4
  {
    var n := c as int;
    if n < 0x80 then [n]
    else if n < 0x800 then [0xC0 + n / 64, 0x80 + n % 64]
    else if n < 0x10000 then [0xE0 + n / 4096, 0x80 + n / 64 % 64, 0x80 + n % 64]
    else [0xF0 + n / 262144, 0x80 + n / 4096 % 64, 0x80 + n / 64 % 64, 0x80 + n % 64]
  }

  function Encode(s: string): seq<Byte> {
    if s == "" then [] else EncodeChar(s[0]) + Encode(s[1..])
  }

  // ---- decoding with errors="replace" ----

  /** The bytes that may follow a lead byte; the narrower ranges exclude overlong forms and surrogates. */
  predicate Second(lead: Byte, b: Byte) {
    match lead
    case 0xE0 => 0xA0 <= b <= 0xBF
    case 0xED => 0x80 <= b <= 0x9F
    case 0xF0 => 0x90 <= b <= 0xBF
    case 0xF4 => 0x80 <= b <= 0x8F
    case _ => 0x80 <= b <= 0xBF
  }

  predicate Continuation(b: Byte) {
    0x80 <= b <= 0xBF
  }

  /** How many bytes a sequence with this lead byte has, or 0 if it is none. */
  function Length(lead: Byte): nat {
    if lead < 0x80 then 1
    else if 0xC2 <= lead <= 0xDF then 2
    else if 0xE0 <= lead <= 0xEF then 3
    else if 0xF0 <= lead <= 0xF4 then 4
    else 0
  }

  /** How many of the first bytes belong together as the beginning of a well-formed sequence. */
  function Matching(bs: seq<Byte>): (n: nat)
    requires bs != []
    ensures 1 <= n <= |bs| && (Length(bs[0]) > 0 ==> n <= Length(bs[0]))
  {
    var len := Length(bs[0]);
    if len <= 1 || |bs| == 1 || !Second(bs[0], bs[1]) then 1
    else if len == 2 || |bs| == 2 || !Continuation(bs[2]) then 2
    else if len == 3 || |bs| == 3 || !Continuation(bs[3]) then 3
    else 4
  }

  /** The payload of a continuation byte. */
  function Tail(b: Byte): int {
    b as int - 0x80
  }

  function CodePoint(bs: seq<Byte>): int
    requires bs != [] && Matching(bs) == Length(bs[0])
  {
    var lead: int := bs[0];
    match Length(bs[0])
    case 1 => lead
    case 2 => (lead - 0xC0) * 64 + Tail(bs[1])
    case 3 => (lead - 0xE0) * 4096 + Tail(bs[1]) * 64 + Tail(bs[2])
    case _ => (lead - 0xF0) * 262144 + Tail(bs[1]) * 4096 + Tail(bs[2]) * 64 + Tail(bs[3])
  }

  predicate IsChar(n: int) {
    0 <= n < 0xD800 || 0xE000 <= n < 0x110000
  }

  lemma CodePointIsChar(bs: seq<Byte>)
    requires bs != [] && Matching(bs) == Length(bs[0])
    ensures IsChar(CodePoint(bs))
  {
  }

  /** A complete sequence gives its character; a maximal incomplete one gives one replacement character. */
  function Decode(bs: seq<Byte>): string {
    if bs == [] then ""
    else
      var n := Matching(bs);
      var c := if n == Length(bs[0]) then CodePointIsChar(bs); CodePoint(bs) as char else REPLACEMENT;
      [c] + Decode(bs[n..])
  }

  // ---- the artifact ----

  datatype WorkerStatus = CompletedRun | FailedRun

  datatype ExecutionResult = ExecutionResult(exitCode: int, stdout: string, stderr: string, durationMs: int)

  datatype Artifact = Artifact(status: WorkerStatus, exitCode: int, stdout: string, stderr: string, durationMs: int)

  /** `text.encode("utf-8")[:limit].decode("utf-8", errors="replace")` */
  function Cut(s: string, limit: nat): string {
    var bytes := Encode(s);
    Decode(if limit < |bytes| then bytes[..limit] else bytes)
  }

  // ---- what cutting does ----

  /** How many whole characters fit into `limit` bytes. */
  function Fitting(s: string, limit: nat): (k: nat)
    ensures k <= |s|
  {
    if s == "" || |EncodeChar(s[0])| > limit then 0
    else 1 + Fitting(s[1..], limit - |EncodeChar(s[0])|)
  }

  lemma EncodeCons(c: char, s: string)
    ensures Encode([c] + s) == EncodeChar(c) + Encode(s)
  {
    assert ([c] + s)[1..] == s;
  }

  /** That many fit, and not one more. */
  lemma {:induction false} FittingIsLongest(s: string, limit: nat)
    ensures var k := Fitting(s, limit);
            && |Encode(s[..k])| <= limit
            && (k < |s| ==> |Encode(s[..k + 1])| > limit)
            && (k == |s| <==> |Encode(s)| <= limit)
  {
    if s != "" {
      var k := Fitting(s, limit);
      if |EncodeChar(s[0])| > limit {
        assert s[..1] == [s[0]] + s[1..][..0];
        EncodeCons(s[0], s[1..][..0]);
      } else {
        FittingIsLongest(s[1..], limit - |EncodeChar(s[0])|);
        assert s[..k] == [s[0]] + s[1..][..k - 1];
        EncodeCons(s[0], s[1..][..k - 1]);
        if k < |s| {
          assert s[..k + 1] == [s[0]] + s[1..][..k];
          EncodeCons(s[0], s[1..][..k]);
        }
      }
    }
  }

  /** A number is the sum of its base-64 digits. */
  lemma Digits(n: nat)
    ensures n == n / 64 * 64 + n % 64
    ensures n == n / 4096 * 4096 + n / 64 % 64 * 64 + n % 64
    ensures n == n / 262144 * 262144 + n / 4096 % 64 * 4096 + n / 64 % 64 * 64 + n % 64
  {
    assert n / 64 / 64 == n / 4096;
    assert n / 4096 / 64 == n / 262144;
  }

  /** The bytes of a character are recognised as far as they go. */
  lemma BytesMatch(c: char, k: nat, bs: seq<Byte>)
    requires 1 <= k <= |EncodeChar(c)| && k <= |bs| && bs[..k] == EncodeChar(c)[..k]
    requires k == |EncodeChar(c)| || k == |bs|
    ensures Matching(bs) == k && Length(bs[0]) == |EncodeChar(c)|
  {
    var e := EncodeChar(c);
    assert bs[0] == bs[..k][0] == e[0];
    assert k > 1 ==> bs[1] == bs[..k][1] == e[1];
    assert k > 2 ==> bs[2] == bs[..k][2] == e[2];
    assert k > 3 ==> bs[3] == bs[..k][3] == e[3];
  }

  lemma BytesDecode(c: char, bs: seq<Byte>)
    requires |EncodeChar(c)| <= |bs| && bs[..|EncodeChar(c)|] == EncodeChar(c)
    requires Matching(bs) == Length(bs[0]) == |EncodeChar(c)|
    ensures CodePoint(bs) == c as int
  {
    var e := EncodeChar(c);
    var k := |e|;
    Digits(c as int);
    assert bs[0] == bs[..k][0] == e[0];
    assert k > 1 ==> bs[1] == bs[..k][1] == e[1];
    assert k > 2 ==> bs[2] == bs[..k][2] == e[2];
    assert k > 3 ==> bs[3] == bs[..k][3] == e[3];
  }

  /** A whole character at the front is decoded as itself. */
  lemma DecodeWhole(c: char, rest: seq<Byte>)
    ensures Decode(EncodeChar(c) + rest) == [c] + Decode(rest)
  {
    var e := EncodeChar(c);
    var bs := e + rest;
    assert bs[..|e|] == e == e[..|e|] && bs[|e|..] == rest;
    BytesMatch(c, |e|, bs);
    BytesDecode(c, bs);
  }

  /** The beginning of a character is decoded as one replacement character. */
  lemma DecodePartial(c: char, n: nat)
    requires 1 <= n < |EncodeChar(c)|
    ensures Decode(EncodeChar(c)[..n]) == [REPLACEMENT]
  {
    var bs := EncodeChar(c)[..n];
    assert bs[..n] == bs && bs[n..] == [];
    BytesMatch(c, n, bs);
  }

  /** Cutting keeps a first character that fits, and cuts a first character that does not. */
  lemma CutFirst(s: string, limit: nat)
    requires s != ""
    ensures var len := |EncodeChar(s[0])|;
            Cut(s, limit) == if len <= limit then [s[0]] + Cut(s[1..], limit - len)
                             else if limit == 0 then "" else [REPLACEMENT]
  {
    var len := |EncodeChar(s[0])|;
    var rest := Encode(s[1..]);
    if limit == 0 {
    } else if len > limit {
      assert Encode(s)[..limit] == EncodeChar(s[0])[..limit];
      DecodePartial(s[0], limit);
    } else if limit < |Encode(s)| {
      assert Encode(s)[..limit] == EncodeChar(s[0]) + rest[..limit - len];
      DecodeWhole(s[0], rest[..limit - len]);
    } else {
      DecodeWhole(s[0], rest);
    }
  }

  /** The output is the longest prefix that fits, and one replacement character if a character was cut. */
  lemma {:induction false} CutKeepsLongestPrefix(s: string, limit: nat)
    ensures var k := Fitting(s, limit);
            Cut(s, limit) == s[..k] + (if k == |s| || |Encode(s[..k])| == limit then "" else [REPLACEMENT])
  {
    if s != "" {
      var k, len := Fitting(s, limit), |EncodeChar(s[0])|;
      CutFirst(s, limit);
      if len <= limit {
        CutKeepsLongestPrefix(s[1..], limit - len);
        assert s[..k] == [s[0]] + s[1..][..k - 1];
        EncodeCons(s[0], s[1..][..k - 1]);
      }
    }
  }

  lemma {:induction false} EncodeConcat(a: string, b: string)
    ensures Encode(a + b) == Encode(a) + Encode(b)
  {
    if a == "" {
      assert a + b == b;
    } else {
      assert (a + b)[1..] == a[1..] + b;
      EncodeConcat(a[1..], b);
    }
  }

  lemma {:induction false} EncodeLength(s: string)
    ensures |s| <= |Encode(s)|
  {
    if s != "" {
      EncodeLength(s[1..]);
    }
  }

  /** All output has at most `limit` characters and `limit + 2` bytes. */
  lemma CutIsBounded(s: string, limit: nat)
    ensures |Cut(s, limit)| <= limit
    ensures |Encode(Cut(s, limit))| <= limit + 2
  {
    var k := Fitting(s, limit);
    CutKeepsLongestPrefix(s, limit);
    FittingIsLongest(s, limit);
    EncodeLength(s[..k]);
    if k < |s| && |Encode(s[..k])| < limit {
      EncodeConcat(s[..k], [REPLACEMENT]);
      assert |Encode([REPLACEMENT])| == 3 by { EncodeCons(REPLACEMENT, ""); assert [REPLACEMENT] + "" == [REPLACEMENT]; }
    } else {
      assert s[..k] + "" == s[..k];
    }
  }

  /**
   * Output that fits is unchanged, and so is output whose only cut character is a final replacement
   * character: nothing else is.
   */
  lemma UnchangedIffFits(s: string, limit: nat)
    ensures Cut(s, limit) == s <==>
            || |Encode(s)| <= limit
            || (s != "" && s[|s| - 1] == REPLACEMENT && |Encode(s[..|s| - 1])| < limit)
  {
    var k := Fitting(s, limit);
    CutKeepsLongestPrefix(s, limit);
    FittingIsLongest(s, limit);
    if k == |s| {
      assert s[..k] + "" == s;
    } else {
      var last := |s| - 1;
      assert s == s[..last] + [s[last]];
      if k == last {
        assert s[..k] + "" != s;
      } else {
        assert |Cut(s, limit)| <= k + 1 < |s|;
        PrefixGrows(s, k + 1, last);
      }
    }
  }

  lemma PrefixGrows(s: string, i: nat, j: nat)
    requires i <= j <= |s|
    ensures |Encode(s[..i])| <= |Encode(s[..j])|
  {
    assert s[..j] == s[..i] + s[i..j];
    EncodeConcat(s[..i], s[i..j]);
  }

  /** Decoding undoes encoding. */
  lemma DecodeUndoesEncode(s: string)
    ensures Decode(Encode(s)) == s
  {
    FittingIsLongest(s, |Encode(s)|);
    CutKeepsLongestPrefix(s, |Encode(s)|);
    assert s[..|s|] == s && s + "" == s;
  }

  /** Refused without a positive limit; otherwise both outputs are cut, and failure is a non-zero exit. */
  function BoundedArtifact(r: ExecutionResult, limit: int): (a: Option<Artifact>)
    ensures a.None? <==> limit < 1
    ensures a.Some? ==>
              && |Encode(a.value.stdout)| <= limit + 2 && |Encode(a.value.stderr)| <= limit + 2
              && (|Encode(r.stdout)| <= limit ==> a.value.stdout == r.stdout)
              && (|Encode(r.stderr)| <= limit ==> a.value.stderr == r.stderr)
              && (a.value.status == FailedRun <==> a.value.exitCode != 0)
              && a.value.exitCode == r.exitCode && a.value.durationMs == r.durationMs
  {
    if limit < 1 then None
    else
      CutIsBounded(r.stdout, limit);
      CutIsBounded(r.stderr, limit);
      UnchangedIffFits(r.stdout, limit);
      UnchangedIffFits(r.stderr, limit);
      Some(Artifact(if r.exitCode == 0 then CompletedRun else FailedRun, r.exitCode,
                    Cut(r.stdout, limit), Cut(r.stderr, limit), r.durationMs))
  }
}
