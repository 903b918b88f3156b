/**
 * The variable extraction of `fetchAndExtractJSON` (Redirect/airq.go:79-84):
 * `regexp.MustCompile("var " + QuoteMeta(name) + " = (\[.+?\]);").FindSubmatch(body)[1]`.
 *
 * The match is on bytes. The pattern has no `(?s)` flag, so `.` matches any
 * character but a newline; the lazy `+?` makes the capture the shortest one
 * at the leftmost position that has a match at all. Every delimiter of the
 * pattern is ASCII, so it can only match at a character boundary, and a
 * newline byte never occurs inside a multi-byte character: matching the
 * bytes is matching the characters.
 */
module Extraction {

  import opened Encoding
  import opened Results

  const Newline: byte := 0x0A
  const OpenBracket: byte := 0x5B
  const CloseBracket: byte := 0x5D
  const Semicolon: byte := 0x3B

  /** The literal start of the pattern, `var <name> = `; QuoteMeta makes the name literal. */
  function Prefix(name: string): seq<byte> {
    [0x76, 0x61, 0x72, 0x20] + Utf8(name) + [0x20, 0x3D, 0x20]
  }

  predicate NoNewline(body: seq<byte>, i: int, j: int)
    requires 0 <= i && j <= |body|
  {
    forall k | i <= k < j :: body[k] != Newline
  }

  /** `body[p..]` starts with the literal prefix followed by `[`. */
  predicate OpensAt(body: seq<byte>, pre: seq<byte>, p: int) {
    0 <= p && p + |pre| < |body| && body[p..p + |pre|] == pre && body[p + |pre|] == OpenBracket
  }

  /**
   * With `[` at `s`, the bytes up to `e` end the capture: `]` at `e - 1`, `;`
   * at `e`, and between the brackets at least one byte and no newline.
   */
  predicate ClosesAt(body: seq<byte>, s: int, e: int) {
    0 <= s && s + 3 <= e < |body| && body[e - 1] == CloseBracket && body[e] == Semicolon && NoNewline(body, s + 1, e - 1)
  }

  /** The pattern matches `body[p..e + 1]`. */
  predicate IsMatch(body: seq<byte>, pre: seq<byte>, p: int, e: int) {
    OpensAt(body, pre, p) && ClosesAt(body, p + |pre|, e)
  }

  /** Where a match starts (`start`) and where its closing `;` is (`close`). */
  datatype Span = Span(start: nat, close: nat)

  /** The match the regexp engine reports: leftmost start, then the shortest body. */
  ghost predicate LeftmostShortest(body: seq<byte>, pre: seq<byte>, sp: Span) {
    && IsMatch(body, pre, sp.start, sp.close)
    && (forall p, e | p < sp.start :: !IsMatch(body, pre, p, e))
    && (forall e | e < sp.close :: !IsMatch(body, pre, sp.start, e))
  }

  /** Scans for the closing `];` of a capture whose `[` is at `s`, trying `e` first. */
  function FindClose(body: seq<byte>, s: nat, e: nat): (r: Option<nat>)
    requires s + 3 <= e <= |body| + 2
    requires NoNewline(body, s + 1, e - 2)
    decreases |body| - e
    ensures r.Some? ==> e <= r.value && ClosesAt(body, s, r.value)
    ensures r.Some? ==> forall e' | e <= e' < r.value :: !ClosesAt(body, s, e')
    ensures r.None? ==> forall e' | e <= e' :: !ClosesAt(body, s, e')
  {
    if e >= |body| then None
    else if body[e - 2] == Newline then None
    else if body[e - 1] == CloseBracket && body[e] == Semicolon then Some(e)
    else FindClose(body, s, e + 1)
  }

  /** Tries each start position from `p` on; the first that has a match wins. */
  function Locate(body: seq<byte>, pre: seq<byte>, p: nat): (r: Option<Span>)
    decreases |body| - p
    ensures r.Some? ==> p <= r.value.start && IsMatch(body, pre, r.value.start, r.value.close)
    ensures r.Some? ==> forall p', e | p <= p' < r.value.start :: !IsMatch(body, pre, p', e)
    ensures r.Some? ==> forall e | e < r.value.close :: !IsMatch(body, pre, r.value.start, e)
    ensures r.None? ==> forall p', e | p <= p' :: !IsMatch(body, pre, p', e)
  {
    if p >= |body| then None
    else
      var found := if OpensAt(body, pre, p) then FindClose(body, p + |pre|, p + |pre| + 3) else None;
      match found
      case Some(e) => Some(Span(p, e))
      case None => Locate(body, pre, p + 1)
  }

  /**
   * The captured group `match[1]`: present exactly when the pattern matches,
   * and then the `[...]` of the leftmost, shortest match.
   */
  function Extract(body: seq<byte>, name: string): (r: Option<seq<byte>>)
    ensures r.None? <==> forall p, e :: !IsMatch(body, Prefix(name), p, e)
    ensures r.Some? ==>
      exists sp :: (LeftmostShortest(body, Prefix(name), sp) && r.value == body[sp.start + |Prefix(name)|..sp.close])
    ensures r.Some? ==> && |r.value| >= 3
                        && r.value[0] == OpenBracket
                        && r.value[|r.value| - 1] == CloseBracket
                        && forall k | 1 <= k < |r.value| - 1 :: r.value[k] != Newline
  {
    var pre := Prefix(name);
    match Locate(body, pre, 0)
    case None => None
    case Some(sp) =>
      assert LeftmostShortest(body, pre, sp);
      CaptureShape(body, pre, sp);
      Some(body[sp.start + |pre|..sp.close])
  }

  /** The capture of a match is `[`, one or more newline-free bytes, `]`. */
  lemma CaptureShape(body: seq<byte>, pre: seq<byte>, sp: Span)
    requires IsMatch(body, pre, sp.start, sp.close)
    ensures var c := body[sp.start + |pre|..sp.close];
      && |c| >= 3
      && c[0] == OpenBracket
      && c[|c| - 1] == CloseBracket
      && forall k | 1 <= k < |c| - 1 :: c[k] != Newline
  {
    var s := sp.start + |pre|;
    var c := body[s..sp.close];
    forall k | 1 <= k < |c| - 1 ensures c[k] != Newline {
      assert c[k] == body[s + k];
    }
  }

  /** There is only one leftmost, shortest match, so the capture is determined. */
  lemma LeftmostShortestUnique(body: seq<byte>, pre: seq<byte>, a: Span, b: Span)
    requires LeftmostShortest(body, pre, a) && LeftmostShortest(body, pre, b)
    ensures a == b
  {
  }

  /** `[`, one or more newline-free bytes, `]`, with no `];` before the end. */
  predicate SingleLineArray(literal: seq<byte>) {
    && |literal| >= 3 && literal[0] == OpenBracket && literal[|literal| - 1] == CloseBracket
    && (forall k | 1 <= k < |literal| - 1 :: literal[k] != Newline)
    && (forall k | 0 <= k < |literal| - 1 :: !(literal[k] == CloseBracket && literal[k + 1] == Semicolon))
  }

  /**
   * An array literal assigned at the start of the body is extracted as
   * written, provided it is `[`, one or more newline-free bytes, `]`, and
   * holds no `];` before its end.
   */
  lemma ExtractAssignment(name: string, literal: seq<byte>, rest: seq<byte>)
    requires SingleLineArray(literal)
    ensures Extract(Prefix(name) + literal + [Semicolon] + rest, name) == Some(literal)
  {
    var pre := Prefix(name);
    var body := pre + literal + [Semicolon] + rest;
    var s := |pre|;
    var e := |pre| + |literal|;
    assert body[..s] == pre;
    assert body[s..e] == literal;
    assert body[0..0 + |pre|] == pre;
    assert IsMatch(body, pre, 0, e) by {
      assert body[s] == literal[0];
      assert body[e - 1] == literal[|literal| - 1];
      forall k | s + 1 <= k < e - 1 ensures body[k] != Newline {
        assert body[k] == literal[k - s];
      }
    }
    var r := Locate(body, pre, 0);
    assert r.Some?;
    assert r.value.start == 0;
    assert r.value.close == e;
  }

  /** `var <name> = [];` on its own is not found: `.+?` needs at least one byte between the brackets. */
  lemma EmptyArrayNotFound(name: string)
    ensures Extract(Prefix(name) + [OpenBracket, CloseBracket, Semicolon], name) == None
  {
    var pre := Prefix(name);
    var body := pre + [OpenBracket, CloseBracket, Semicolon];
    forall p, e ensures !IsMatch(body, pre, p, e) {
    }
  }
}
