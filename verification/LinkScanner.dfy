/**
The link scanner of lib/youtube-preview.ts: a bounded prefix of a message is
scanned for tokens, tokens are parsed to video ids, and an id is printed back
as a watch URL.
*/
module LinkScanner {
  import opened Basics

  const SCAN_LIMIT := 16384
  const RAW_TOKEN_LIMIT := 32
  const TOKEN_LIMIT := 2048
  const MAX_COUNT := 3

  predicate IsAsciiSpace(c: char) { c == ' ' || 9 <= c as int <= 13 }

  predicate IsDelimiter(c: char) {
    || c == '"' || c == '\'' || c == '`' || c == '<' || c == '>' || c == '(' || c == ')'
    || c == '[' || c == ']' || c == '{' || c == '}' || c == ',' || c == ';' || c == '!'
  }

  /** A character that ends a token. */
  predicate IsBreak(c: char) { IsAsciiSpace(c) || IsDelimiter(c) }

  /* ---- The bounded body ---- */

  /** The longest prefix that stops before white space, or the empty one. */
  function BackToSpace(s: string, n: nat): (k: nat)
    requires n <= |s|
    ensures k <= n && (k == 0 || (k < n && IsAsciiSpace(s[k])))
  {
    if n == 0 then 0 else if IsAsciiSpace(s[n - 1]) then n - 1 else BackToSpace(s, n - 1)
  }

  /** Where the scanned part of the body ends. */
  function Cut(body: string): (k: nat)
    ensures k <= |body|
  {
    if |body| <= SCAN_LIMIT then |body|
    else if IsBreak(body[SCAN_LIMIT - 1]) || IsBreak(body[SCAN_LIMIT]) then SCAN_LIMIT
    else BackToSpace(body, SCAN_LIMIT)
  }

  method BoundedBody(body: string) returns (bounded: string)
    ensures bounded == body[..Cut(body)]
  {
    if |body| <= SCAN_LIMIT { return body; }
    var slice := body[..SCAN_LIMIT];
    if IsAsciiSpace(slice[SCAN_LIMIT - 1]) || IsDelimiter(slice[SCAN_LIMIT - 1])
       || IsAsciiSpace(body[SCAN_LIMIT]) || IsDelimiter(body[SCAN_LIMIT]) {
      return slice;
    }
    var index := |slice| - 1;
    while index >= 0
      invariant -1 <= index < |slice|
      invariant BackToSpace(body, index + 1) == BackToSpace(body, SCAN_LIMIT)
    {
      if IsAsciiSpace(slice[index]) { return slice[..index]; }
      index := index - 1;
    }
    return "";
  }

  /* ---- Raw tokens ---- */

  const HTTPS := "https://"

  /** The pattern stands here. */
  predicate Spells(s: string, i: nat, pattern: string)
    decreases |pattern|
  {
    pattern == "" || (i < |s| && s[i] == pattern[0] && Spells(s, i + 1, pattern[1..]))
  }

  predicate HttpsAt(s: string, i: nat) { i + 8 <= |s| && Spells(s, i, HTTPS) }

  /** indexOf("https://", from). */
  function NextHttps(s: string, from: nat): (i: int)
    ensures i == -1 || from <= i <= |s| - 8
    decreases |s| - from
  {
    if from + 8 > |s| then -1 else if HttpsAt(s, from) then from else NextHttps(s, from + 1)
  }

  /** The end of the token that runs from here. */
  function TokenEnd(s: string, i: nat): (end: nat)
    requires i <= |s|
    ensures i <= end <= |s|
    decreases |s| - i
  {
    if i < |s| && !IsBreak(s[i]) then TokenEnd(s, i + 1) else i
  }

  /** Where a token starts and ends. */
  datatype Span = Span(start: int, end: int)

  predicate SpanOk(s: string, p: Span) { 0 <= p.start <= p.end <= |s| }

  /** What a scan meets next: nothing more, a "https://" inside other text, or a token. */
  datatype Found = NoMore | Skipped(next: nat) | Token(span: Span)

  function FoundAt(s: string, cursor: nat): (f: Found)
    ensures f.Skipped? ==> cursor < f.next <= |s|
    ensures f.Token? ==> SpanOk(s, f.span) && cursor < f.span.end
  {
    var start := NextHttps(s, cursor);
    if start < 0 then NoMore
    else if start > 0 && !IsBreak(s[start - 1]) then Skipped(start + 8)
    else Token(Span(start, TokenEnd(s, start + 8)))
  }

  /** scanRawYouTubeTokens from a cursor on, finding at most `room` more tokens. */
  function SpansFrom(s: string, cursor: nat, room: nat): seq<Span>
    decreases |s| - cursor
  {
    if cursor >= |s| || room == 0 then []
    else match FoundAt(s, cursor)
      case NoMore => []
      case Skipped(next) => SpansFrom(s, next, room)
      case Token(span) => [span] + SpansFrom(s, span.end, room - 1)
  }

  function Text(s: string, p: Span): string { if SpanOk(s, p) then s[p.start..p.end] else "" }

  function Texts(s: string, spans: seq<Span>): seq<string> {
    seq(|spans|, k requires 0 <= k < |spans| => Text(s, spans[k]))
  }

  function Tokens(s: string): seq<string> { Texts(s, SpansFrom(s, 0, RAW_TOKEN_LIMIT)) }

  /** The same with the tokens found before. */
  function CollectOn(s: string, cursor: nat, found: seq<Span>): seq<Span>
    decreases |s| - cursor
  {
    if cursor >= |s| || |found| >= RAW_TOKEN_LIMIT then found
    else match FoundAt(s, cursor)
      case NoMore => found
      case Skipped(next) => CollectOn(s, next, found)
      case Token(span) => CollectOn(s, span.end, found + [span])
  }

  lemma Regroup(a: seq<Span>, b: Span, c: seq<Span>)
    ensures a + [b] + c == a + ([b] + c) && a + [] == a && [] + c == c
  {
  }

  lemma {:induction false} ScanFolds(s: string, cursor: nat, found: seq<Span>)
    requires |found| <= RAW_TOKEN_LIMIT
    ensures CollectOn(s, cursor, found) == found + SpansFrom(s, cursor, RAW_TOKEN_LIMIT - |found|)
    decreases |s| - cursor
  {
    Regroup(found, Span(0, 0), []);
    if cursor < |s| && |found| < RAW_TOKEN_LIMIT {
      match FoundAt(s, cursor)
      case NoMore =>
      case Skipped(next) => ScanFolds(s, next, found);
      case Token(span) =>
        ScanFolds(s, span.end, found + [span]);
        Regroup(found, span, SpansFrom(s, span.end, RAW_TOKEN_LIMIT - |found| - 1));
    }
  }

  method ReadToken(s: string, from: nat) returns (end: nat)
    requires from <= |s|
    ensures end == TokenEnd(s, from)
  {
    end := from;
    while end < |s| && !IsAsciiSpace(s[end]) && !IsDelimiter(s[end])
      invariant from <= end <= |s| && TokenEnd(s, end) == TokenEnd(s, from)
    {
      end := end + 1;
    }
  }

  method ScanRawYouTubeTokens(body: string) returns (tokens: seq<string>)
    ensures tokens == Tokens(body[..Cut(body)])
  {
    var bounded := BoundedBody(body);
    tokens := [];
    ghost var spans: seq<Span> := [];
    var cursor := 0;
    ScanFolds(bounded, 0, []);
    Regroup([], Span(0, 0), SpansFrom(bounded, 0, RAW_TOKEN_LIMIT));
    while cursor < |bounded| && |tokens| < RAW_TOKEN_LIMIT
      invariant 0 <= cursor && |tokens| == |spans| <= RAW_TOKEN_LIMIT
      invariant CollectOn(bounded, cursor, spans) == SpansFrom(bounded, 0, RAW_TOKEN_LIMIT)
      invariant forall k :: 0 <= k < |spans| ==> tokens[k] == Text(bounded, spans[k])
      decreases |bounded| - cursor
    {
      var start := NextHttps(bounded, cursor);
      if start < 0 { break; }
      if start > 0 && !IsAsciiSpace(bounded[start - 1]) && !IsDelimiter(bounded[start - 1]) {
        cursor := start + 8;
        continue;
      }
      var end := ReadToken(bounded, start + 8);
      tokens := tokens + [bounded[start..end]];
      spans := spans + [Span(start, end)];
      cursor := end;
    }
    assert tokens == Texts(bounded, spans);
  }

  /* ---- Truncation is invisible ---- */

  /** A place where cutting cannot cut a token. */
  predicate SafeCut(body: string, k: nat) {
    k <= |body| && (k == 0 || k == |body| || IsBreak(body[k - 1]) || IsBreak(body[k]))
  }

  lemma CutIsSafe(body: string)
    ensures SafeCut(body, Cut(body))
  {
  }

  lemma {:induction false} SpellsInPrefix(body: string, k: nat, i: nat, pattern: string)
    requires k <= |body| && i + |pattern| <= k
    ensures Spells(body[..k], i, pattern) <==> Spells(body, i, pattern)
    decreases |pattern|
  {
    if pattern != "" { SpellsInPrefix(body, k, i + 1, pattern[1..]); }
  }

  lemma {:induction false} SpelledAt(s: string, i: nat, pattern: string, j: nat)
    requires Spells(s, i, pattern) && j < |pattern|
    ensures i + j < |s| && s[i + j] == pattern[j]
    decreases |pattern|
  {
    if j > 0 { SpelledAt(s, i + 1, pattern[1..], j - 1); }
  }

  lemma {:induction false} NextHttpsInPrefix(body: string, k: nat, cursor: nat)
    requires k <= |body| && NextHttps(body[..k], cursor) >= 0
    ensures NextHttps(body, cursor) == NextHttps(body[..k], cursor)
    ensures HttpsAt(body, NextHttps(body, cursor))
    decreases |body| - cursor
  {
    SpellsInPrefix(body, k, cursor, HTTPS);
    if !HttpsAt(body, cursor) { NextHttpsInPrefix(body, k, cursor + 1); }
  }

  /** At a safe cut the token that starts before it ends before it. */
  lemma {:induction false} EndInPrefix(body: string, k: nat, i: nat)
    requires k <= |body| && i <= k && (k < |body| ==> IsBreak(body[k]) || (i < k && IsBreak(body[k - 1])))
    ensures TokenEnd(body[..k], i) == TokenEnd(body, i)
    decreases k - i
  {
    if i < k && !IsBreak(body[i]) { EndInPrefix(body, k, i + 1); }
  }

  lemma ConsPrefix(x: Span, a: seq<Span>, b: seq<Span>)
    requires a <= b
    ensures [x] + a <= [x] + b
  {
  }

  /** Before a safe cut the scan meets the same as in the whole body. */
  lemma FoundInPrefix(body: string, k: nat, cursor: nat)
    requires SafeCut(body, k) && !FoundAt(body[..k], cursor).NoMore?
    ensures FoundAt(body[..k], cursor) == FoundAt(body, cursor)
  {
    var p := body[..k];
    var start := NextHttps(p, cursor);
    NextHttpsInPrefix(body, k, cursor);
    SpelledAt(body, start, HTTPS, 7);
    EndInPrefix(body, k, start + 8);
  }

  lemma {:induction false} PrefixScansPrefix(body: string, k: nat, cursor: nat, room: nat)
    requires SafeCut(body, k)
    ensures SpansFrom(body[..k], cursor, room) <= SpansFrom(body, cursor, room)
    decreases |body| - cursor
  {
    var p := body[..k];
    if cursor < k && room > 0 && !FoundAt(p, cursor).NoMore? {
      FoundInPrefix(body, k, cursor);
      match FoundAt(p, cursor)
      case Skipped(next) => PrefixScansPrefix(body, k, next, room);
      case Token(span) =>
        PrefixScansPrefix(body, k, span.end, room - 1);
        ConsPrefix(span, SpansFrom(p, span.end, room - 1), SpansFrom(body, span.end, room - 1));
    }
  }

  lemma {:induction false} SpansInside(s: string, cursor: nat, room: nat, i: nat)
    requires i < |SpansFrom(s, cursor, room)|
    ensures SpanOk(s, SpansFrom(s, cursor, room)[i])
    decreases |s| - cursor
  {
    match FoundAt(s, cursor)
    case Skipped(next) => SpansInside(s, next, room, i);
    case Token(span) => if i > 0 { SpansInside(s, span.end, room - 1, i - 1); }
  }

  /**
  For every body, the tokens found in the bounded part are a prefix of those the same scan finds in the whole body:
  truncating never cuts a token, invents one or changes one.
  */
  lemma TruncationIsInvisible(body: string)
    ensures Tokens(body[..Cut(body)]) <= Tokens(body)
  {
    var k := Cut(body);
    CutIsSafe(body);
    PrefixScansPrefix(body, k, 0, RAW_TOKEN_LIMIT);
    var a, b := SpansFrom(body[..k], 0, RAW_TOKEN_LIMIT), SpansFrom(body, 0, RAW_TOKEN_LIMIT);
    forall i | 0 <= i < |a| ensures Texts(body[..k], a)[i] == Texts(body, b)[i] {
      SpansInside(body[..k], 0, RAW_TOKEN_LIMIT, i);
      TextInPrefix(body, k, a[i]);
    }
  }

  lemma TextInPrefix(body: string, k: nat, p: Span)
    requires k <= |body| && SpanOk(body[..k], p)
    ensures Text(body[..k], p) == Text(body, p)
  {
    assert body[..k][p.start..p.end] == body[p.start..p.end];
  }
}
