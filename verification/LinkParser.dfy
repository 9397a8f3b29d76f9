/** Tokens to video ids and back (lib/youtube-preview.ts). */
module LinkParser {
  import opened Basics
  import opened LinkScanner

  predicate IdCharacter(c: char) {
    'A' <= c <= 'Z' || 'a' <= c <= 'z' || '0' <= c <= '9' || c == '_' || c == '-'
  }

  /** Matches /^[A-Za-z0-9_-]{11}$/. */
  predicate VideoId(s: string) { |s| == 11 && forall i :: 0 <= i < |s| ==> IdCharacter(s[i]) }

  /** Matches /^[A-Za-z0-9_.:-]{1,128}$/. */
  predicate QueryValue(s: string) {
    1 <= |s| <= 128 && forall i :: 0 <= i < |s| ==> IdCharacter(s[i]) || s[i] == '.' || s[i] == ':'
  }

  predicate QueryKey(s: string) {
    s == "v" || s == "t" || s == "start" || s == "list" || s == "index" || s == "si" || s == "feature"
  }

  predicate YouTubeHost(s: string) {
    s == "youtu.be" || s == "youtube.com" || s == "www.youtube.com" || s == "m.youtube.com"
  }

  /** White space beyond ASCII, as the `u` flag's \s sees it. */
  predicate WideSpace(c: char) {
    var n := c as int;
    n == 0xa0 || n == 0x1680 || 0x2000 <= n <= 0x200a || n == 0x2028 || n == 0x2029 || n == 0x202f || n == 0x205f || n == 0x3000 || n == 0xfeff
  }

  predicate Forbidden(c: char) {
    c as int < 0x20 || c as int == 0x7f || c == '\\' || c == '%' || c == '#' || WideSpace(c)
  }

  function IndexOf(s: string, c: char, from: nat): (i: int)
    ensures i == -1 || (from <= i < |s| && s[i] == c)
    decreases |s| - from
  {
    if from >= |s| then -1 else if s[from] == c then from else IndexOf(s, c, from + 1)
  }

  function LastIndexOf(s: string, c: char): (i: int)
    ensures i == -1 || (0 <= i < |s| && s[i] == c)
  {
    if s == "" then -1 else if s[|s| - 1] == c then |s| - 1 else LastIndexOf(s[..|s| - 1], c)
  }

  function Split(s: string, c: char): (parts: seq<string>)
    ensures |parts| >= 1
    decreases |s|
  {
    var i := IndexOf(s, c, 0);
    if i < 0 then [s] else [s[..i]] + Split(s[i + 1..], c)
  }

  /* ---- The query ---- */

  datatype Field = Field(key: string, value: string)

  function ParseField(field: string): Option<Field> {
    var equals := IndexOf(field, '=', 0);
    if equals <= 0 || equals != LastIndexOf(field, '=') then None
    else
      var f := Field(field[..equals], field[equals + 1..]);
      if QueryKey(f.key) && QueryValue(f.value) then Some(f) else None
  }

  function ParseFields(fields: seq<string>, values: map<string, string>): Option<map<string, string>>
    decreases |fields|
  {
    if fields == [] then Some(values)
    else
      var f := ParseField(fields[0]);
      if f.None? || f.value.key in values then None else ParseFields(fields[1..], values[f.value.key := f.value.value])
  }

  function ParseWatchQuery(query: string): Option<string> {
    if query == "" then None
    else
      var values := ParseFields(Split(query, '&'), map[]);
      if values.None? || "v" !in values.value || !VideoId(values.value["v"]) then None else Some(values.value["v"])
  }

  method ParseWatchQueryLoop(query: string) returns (id: Option<string>)
    ensures id == ParseWatchQuery(query)
  {
    if query == "" { return None; }
    var fields := Split(query, '&');
    var values: map<string, string> := map[];
    var k := 0;
    while k < |fields|
      invariant 0 <= k <= |fields| && ParseFields(fields[k..], values) == ParseFields(fields, map[])
    {
      assert fields[k..][1..] == fields[k + 1..];
      var field := ParseField(fields[k]);
      if field.None? || field.value.key in values { return None; }
      values := values[field.value.key := field.value.value];
      k := k + 1;
    }
    if "v" in values && VideoId(values["v"]) { return Some(values["v"]); }
    return None;
  }

  /* ---- The token ---- */

  function AuthorityEnd(token: string): (n: nat)
    requires |token| >= 8
    ensures 8 <= n <= |token|
  {
    var slash, question := IndexOf(token, '/', 8), IndexOf(token, '?', 8);
    if slash < 0 then (if question < 0 then |token| else question)
    else if question < 0 then slash
    else if slash < question then slash else question
  }

  predicate BadSegment(s: string) { s == "" || s == "." || s == ".." }

  /** What a host, a path and a query, if there is one, lead to. */
  function Route(host: string, path: string, query: Option<string>): Option<string> {
    var segments := Split(path, '/');
    if !YouTubeHost(host) then None
    else if path == "" || path[0] != '/' || (exists i :: 0 < i < |segments| && BadSegment(segments[i])) then None
    else if host == "youtu.be" then
      if query.Some? || |segments| != 2 || !VideoId(segments[1]) then None else Some(segments[1])
    else if query.None? then
      if |segments| != 3 || !(segments[1] == "shorts" || segments[1] == "embed" || segments[1] == "live") || !VideoId(segments[2])
      then None else Some(segments[2])
    else if path != "/watch" then None
    else ParseWatchQuery(query.value)
  }

  predicate HasForbidden(token: string) { exists i :: 0 <= i < |token| && Forbidden(token[i]) }

  function ParseYouTubeToken(token: string): Option<string> {
    if |token| > TOKEN_LIMIT || !HttpsAt(token, 0) || HasForbidden(token) then None
    else
      var end := AuthorityEnd(token);
      var queryIndex := IndexOf(token, '?', end);
      var pathEnd := if queryIndex < 0 then |token| else queryIndex;
      Route(token[8..end], token[end..pathEnd], if queryIndex < 0 then None else Some(token[queryIndex + 1..]))
  }

  const HOST := "www.youtube.com"
  const WATCH_PATH := "/watch"

  function YouTubeWatchUrl(id: string): string { HTTPS + (HOST + (WATCH_PATH + ("?" + ("v=" + id)))) }

  /* ---- All ids of a body ---- */

  function WithId(found: seq<string>, token: string): seq<string> {
    var id := ParseYouTubeToken(token);
    if id.None? || id.value in found then found else found + [id.value]
  }

  function IdsOn(tokens: seq<string>, found: seq<string>): seq<string>
    decreases |tokens|
  {
    if tokens == [] || |found| >= MAX_COUNT then found else IdsOn(tokens[1..], WithId(found, tokens[0]))
  }

  function ParseYouTubeVideoIds(body: string): seq<string> { IdsOn(Tokens(body[..Cut(body)]), []) }

  method ParseYouTubeVideoIdsLoop(body: string) returns (ids: seq<string>)
    ensures ids == ParseYouTubeVideoIds(body)
  {
    ids := [];
    var seen: set<string> := {};
    var tokens := ScanRawYouTubeTokens(body);
    var k := 0;
    while k < |tokens|
      invariant 0 <= k <= |tokens| && |ids| < MAX_COUNT
      invariant forall s :: s in seen <==> s in ids
      invariant IdsOn(tokens[k..], ids) == IdsOn(tokens, [])
    {
      assert tokens[k..][1..] == tokens[k + 1..];
      var id := ParseYouTubeToken(tokens[k]);
      k := k + 1;
      if id.None? || id.value in seen { continue; }
      seen := seen + {id.value};
      ids := ids + [id.value];
      if |ids| >= MAX_COUNT { break; }
    }
  }

  ghost predicate DistinctIds(ids: seq<string>) {
    && |ids| <= MAX_COUNT
    && (forall i :: 0 <= i < |ids| ==> VideoId(ids[i]))
    && (forall i, j :: 0 <= i < j < |ids| ==> ids[i] != ids[j])
  }

  lemma ParsedIsVideoId(token: string)
    ensures ParseYouTubeToken(token).Some? ==> VideoId(ParseYouTubeToken(token).value)
  {
    if |token| <= TOKEN_LIMIT && HttpsAt(token, 0) && !HasForbidden(token) {
      var end := AuthorityEnd(token);
      var queryIndex := IndexOf(token, '?', end);
      var pathEnd := if queryIndex < 0 then |token| else queryIndex;
      RouteIsVideoId(token[8..end], token[end..pathEnd], if queryIndex < 0 then None else Some(token[queryIndex + 1..]));
    }
  }

  lemma RouteIsVideoId(host: string, path: string, query: Option<string>)
    ensures Route(host, path, query).Some? ==> VideoId(Route(host, path, query).value)
  {
  }

  lemma {:induction false} IdsAreSound(tokens: seq<string>, found: seq<string>)
    requires DistinctIds(found)
    ensures var ids := IdsOn(tokens, found);
      && DistinctIds(ids) && found <= ids
      && (forall s :: s in ids ==> s in found || exists k :: 0 <= k < |tokens| && ParseYouTubeToken(tokens[k]) == Some(s))
    decreases |tokens|
  {
    if tokens != [] && |found| < MAX_COUNT {
      ParsedIsVideoId(tokens[0]);
      var next := WithId(found, tokens[0]);
      IdsAreSound(tokens[1..], next);
      forall s | s in IdsOn(tokens, found) && s !in found ensures exists k :: 0 <= k < |tokens| && ParseYouTubeToken(tokens[k]) == Some(s) {
        if s in next {
          assert ParseYouTubeToken(tokens[0]) == Some(s);
        } else {
          var k :| 0 <= k < |tokens[1..]| && ParseYouTubeToken(tokens[1..][k]) == Some(s);
          assert tokens[k + 1] == tokens[1..][k];
        }
      }
    }
  }

  lemma WithIdIsDistinct(found: seq<string>, token: string)
    requires DistinctIds(found) && |found| < MAX_COUNT
    ensures DistinctIds(WithId(found, token)) && found <= WithId(found, token)
    ensures ParseYouTubeToken(token).Some? ==> ParseYouTubeToken(token).value in WithId(found, token)
  {
    ParsedIsVideoId(token);
  }

  lemma PrefixMember(s: string, a: seq<string>, b: seq<string>)
    requires a <= b && s in a
    ensures s in b
  {
    var i :| 0 <= i < |a| && a[i] == s;
    assert b[i] == s;
  }

  lemma {:induction false} IdsAreComplete(tokens: seq<string>, found: seq<string>, k: nat)
    requires DistinctIds(found) && |IdsOn(tokens, found)| < MAX_COUNT && k < |tokens| && ParseYouTubeToken(tokens[k]).Some?
    ensures ParseYouTubeToken(tokens[k]).value in IdsOn(tokens, found)
    decreases |tokens|
  {
    assert |found| < MAX_COUNT;
    var next := WithId(found, tokens[0]);
    WithIdIsDistinct(found, tokens[0]);
    if k > 0 {
      assert tokens[1..][k - 1] == tokens[k];
      IdsAreComplete(tokens[1..], next, k - 1);
    } else {
      IdsAreSound(tokens[1..], next);
      PrefixMember(ParseYouTubeToken(tokens[0]).value, next, IdsOn(tokens[1..], next));
    }
  }

  /** The ids the tokens name, in order. */
  function Named(tokens: seq<string>): seq<string> {
    if tokens == [] then []
    else
      var id := ParseYouTubeToken(tokens[0]);
      (if id.Some? then [id.value] else []) + Named(tokens[1..])
  }

  /** Each at its first place only. */
  function FirstPlaces(ids: seq<string>): seq<string> {
    if ids == [] then []
    else
      var last := |ids| - 1;
      var before := FirstPlaces(ids[..last]);
      if ids[last] in before then before else before + [ids[last]]
  }

  function Few(ids: seq<string>): seq<string> { if |ids| <= MAX_COUNT then ids else ids[..MAX_COUNT] }

  lemma {:induction false} FirstPlacesGrow(ids: seq<string>, more: seq<string>)
    ensures FirstPlaces(ids) <= FirstPlaces(ids + more)
    decreases |more|
  {
    if more == [] {
      assert ids + more == ids;
    } else {
      var last := |more| - 1;
      assert (ids + more)[..|ids| + last] == ids + more[..last];
      FirstPlacesGrow(ids, more[..last]);
    }
  }

  lemma NamedStep(done: seq<string>, tokens: seq<string>)
    requires tokens != []
    ensures var id := ParseYouTubeToken(tokens[0]);
      done + Named(tokens) == (if id.Some? then done + [id.value] else done) + Named(tokens[1..])
  {
  }

  /** The loop keeps the first few of what has been named so far. */
  lemma {:induction false} IdsAreFirst(tokens: seq<string>, done: seq<string>)
    ensures IdsOn(tokens, Few(FirstPlaces(done))) == Few(FirstPlaces(done + Named(tokens)))
    decreases |tokens|
  {
    var found := FirstPlaces(done);
    FirstPlacesGrow(done, Named(tokens));
    if tokens == [] {
      assert done + Named(tokens) == done;
    } else if |Few(found)| < MAX_COUNT {
      var id := ParseYouTubeToken(tokens[0]);
      NamedStep(done, tokens);
      if id.Some? {
        assert (done + [id.value])[..|done|] == done;
        IdsAreFirst(tokens[1..], done + [id.value]);
      } else {
        IdsAreFirst(tokens[1..], done);
      }
    }
  }

  /**
  The ids shown are the first three different ones named by tokens, in the order of the tokens; so they are valid,
  distinct and at most three, each from a token, and all of them when fewer than three.
  */
  lemma PreviewIdsAreExact(body: string)
    ensures var ids := ParseYouTubeVideoIds(body);
      var tokens := Tokens(body[..Cut(body)]);
      && ids == Few(FirstPlaces(Named(tokens)))
      && DistinctIds(ids)
      && (forall s :: s in ids ==> exists k :: 0 <= k < |tokens| && ParseYouTubeToken(tokens[k]) == Some(s))
      && (|ids| < MAX_COUNT ==> forall k :: 0 <= k < |tokens| && ParseYouTubeToken(tokens[k]).Some? ==> ParseYouTubeToken(tokens[k]).value in ids)
  {
    var tokens := Tokens(body[..Cut(body)]);
    IdsAreFirst(tokens, []);
    assert [] + Named(tokens) == Named(tokens);
    IdsAreSound(tokens, []);
    if |IdsOn(tokens, [])| < MAX_COUNT {
      forall k | 0 <= k < |tokens| && ParseYouTubeToken(tokens[k]).Some? ensures ParseYouTubeToken(tokens[k]).value in IdsOn(tokens, []) {
        IdsAreComplete(tokens, [], k);
      }
    }
  }

  /* ---- Printing and parsing ---- */

  lemma {:induction false} IndexIs(s: string, c: char, from: nat, i: int)
    requires from <= i <= |s| && (forall j :: from <= j < i ==> s[j] != c) && (i < |s| ==> s[i] == c)
    ensures IndexOf(s, c, from) == if i < |s| then i else -1
    decreases i - from
  {
    if from < i { IndexIs(s, c, from + 1, i); }
  }

  lemma {:induction false} LastIndexIs(s: string, c: char, i: int)
    requires 0 <= i < |s| && s[i] == c && (forall j :: i < j < |s| ==> s[j] != c)
    ensures LastIndexOf(s, c) == i
    decreases |s|
  {
    if i < |s| - 1 { LastIndexIs(s[..|s| - 1], c, i); }
  }

  lemma QueryRoundTrip(id: string)
    requires VideoId(id)
    ensures ParseWatchQuery("v=" + id) == Some(id)
  {
    var q := "v=" + id;
    forall j | 2 <= j < |q| ensures q[j] != '=' && q[j] != '&' { assert q[j] == id[j - 2] && IdCharacter(id[j - 2]); }
    IndexIs(q, '&', 0, |q|);
    IndexIs(q, '=', 0, 1);
    LastIndexIs(q, '=', 1);
    assert q[..1] == "v" && q[2..] == id;
    assert ParseField(q) == Some(Field("v", id));
    assert Split(q, '&') == [q] && [q][1..] == [];
    assert ParseFields([q], map[]) == ParseFields([], map["v" := id]);
  }

  predicate Plain(s: string) { forall i :: 0 <= i < |s| ==> !Forbidden(s[i]) && !IsBreak(s[i]) }

  lemma PlainHost()
    ensures Plain(HTTPS) && Plain(HOST)
  {
  }

  lemma PlainPath()
    ensures Plain(WATCH_PATH) && Plain("?") && Plain("v=")
  {
  }

  lemma PlainId(id: string)
    requires VideoId(id)
    ensures Plain(id)
  {
    forall i | 0 <= i < |id| ensures !Forbidden(id[i]) && !IsBreak(id[i]) { assert IdCharacter(id[i]); }
  }

  lemma PlainConcat(a: string, b: string)
    requires Plain(a) && Plain(b)
    ensures Plain(a + b)
  {
  }

  lemma WatchUrlIsPlain(id: string)
    requires VideoId(id)
    ensures Plain(YouTubeWatchUrl(id))
  {
    PlainHost();
    PlainPath();
    PlainId(id);
    PlainConcat("v=", id);
    PlainConcat("?", "v=" + id);
    PlainConcat(WATCH_PATH, "?" + ("v=" + id));
    PlainConcat(HOST, WATCH_PATH + ("?" + ("v=" + id)));
    PlainConcat(HTTPS, HOST + (WATCH_PATH + ("?" + ("v=" + id))));
  }

  /** Where the pieces of a concatenation lie. */
  lemma Pieces(a: string, b: string, c: string, t: string)
    requires t == a + (b + c)
    ensures |t| == |a| + |b| + |c| && t[..|a|] == a && t[|a|..|a| + |b|] == b && t[|a| + |b|..] == c
  {
    assert t[|a|..] == b + c;
  }

  /** The first occurrence of a character after a piece that lacks it. */
  lemma FirstAfter(a: string, b: string, c: string, t: string, x: char)
    requires t == a + (b + c) && c != "" && c[0] == x && forall j :: 0 <= j < |b| ==> b[j] != x
    ensures IndexOf(t, x, |a|) == |a| + |b|
  {
    forall j | |a| <= j < |a| + |b| ensures t[j] != x { assert t[j] == b[j - |a|]; }
    IndexIs(t, x, |a|, |a| + |b|);
  }

  lemma WatchPieces(id: string)
    requires VideoId(id)
    ensures var t := YouTubeWatchUrl(id);
      && |t| == 43 && t[..8] == HTTPS && t[8..23] == HOST && t[23..29] == WATCH_PATH && t[30..] == "v=" + id
  {
    var t := YouTubeWatchUrl(id);
    var query := "?" + ("v=" + id);
    Pieces(HTTPS, HOST, WATCH_PATH + query, t);
    Regroup3(HTTPS, HOST, WATCH_PATH + query);
    Pieces(HTTPS + HOST, WATCH_PATH, query, t);
    Pieces("", "?", "v=" + id, query);
    DropTwice(t, 29, query);
  }

  lemma Regroup3(a: string, b: string, c: string)
    ensures a + (b + c) == (a + b) + c
  {
  }

  lemma DropTwice(t: string, n: nat, q: string)
    requires n < |t| && t[n..] == q
    ensures q[1..] == t[n + 1..]
  {
  }

  lemma WatchIndexes(id: string)
    requires VideoId(id)
    ensures var t := YouTubeWatchUrl(id);
      IndexOf(t, '/', 8) == 23 && IndexOf(t, '?', 8) == 29 && IndexOf(t, '?', 23) == 29
  {
    var t := YouTubeWatchUrl(id);
    var query := "?" + ("v=" + id);
    FirstAfter(HTTPS, HOST, WATCH_PATH + query, t, '/');
    Regroup3(HOST, WATCH_PATH, query);
    HostAndPath();
    FirstAfter(HTTPS, HOST + WATCH_PATH, query, t, '?');
    Regroup3(HTTPS, HOST, WATCH_PATH + query);
    FirstAfter(HTTPS + HOST, WATCH_PATH, query, t, '?');
  }

  lemma HostAndPath()
    ensures forall j :: 0 <= j < |HOST + WATCH_PATH| ==> (HOST + WATCH_PATH)[j] != '?'
    ensures forall j :: 0 <= j < |HOST| ==> HOST[j] != '/'
  {
    forall j | 0 <= j < |HOST + WATCH_PATH| ensures (HOST + WATCH_PATH)[j] != '?' {
      if j < |HOST| { assert (HOST + WATCH_PATH)[j] == HOST[j]; } else { assert (HOST + WATCH_PATH)[j] == WATCH_PATH[j - |HOST|]; }
    }
  }

  lemma WatchDelimiters(id: string)
    requires VideoId(id)
    ensures var t := YouTubeWatchUrl(id);
      && |t| == 43 && HttpsAt(t, 0) && AuthorityEnd(t) == 23 && IndexOf(t, '?', 23) == 29
      && t[8..23] == HOST && t[23..29] == WATCH_PATH && t[30..] == "v=" + id
  {
    WatchPieces(id);
    WatchIndexes(id);
    SpellsHttps(YouTubeWatchUrl(id));
  }

  lemma SpellsHttps(t: string)
    requires |t| >= 8 && t[..8] == HTTPS
    ensures HttpsAt(t, 0)
  {
    forall i | 0 <= i < 8 ensures t[i] == HTTPS[i] { assert t[..8][i] == t[i]; }
    SpellsFrom(t, 0, HTTPS);
  }

  lemma {:induction false} SpellsFrom(s: string, i: nat, pattern: string)
    requires i + |pattern| <= |s| && forall j :: 0 <= j < |pattern| ==> s[i + j] == pattern[j]
    ensures Spells(s, i, pattern)
    decreases |pattern|
  {
    if pattern != "" {
      forall j | 0 <= j < |pattern[1..]| ensures s[i + 1 + j] == pattern[1..][j] { assert s[i + (j + 1)] == pattern[j + 1]; }
      SpellsFrom(s, i + 1, pattern[1..]);
    }
  }

  lemma WatchPathSegments()
    ensures Split("/watch", '/') == ["", "watch"]
  {
    IndexIs("/watch", '/', 0, 0);
    assert "/watch"[..0] == "" && "/watch"[1..] == "watch";
    IndexIs("watch", '/', 0, 5);
  }

  /** Parsing a printed watch URL gives the id back, for the ids that have the right form and no others. */
  lemma WatchUrlRoundTrip(id: string)
    ensures ParseYouTubeToken(YouTubeWatchUrl(id)) == Some(id) <==> VideoId(id)
  {
    var t := YouTubeWatchUrl(id);
    ParsedIsVideoId(t);
    if VideoId(id) {
      WatchUrlIsPlain(id);
      WatchDelimiters(id);
      WatchRoute(id);
    }
  }

  lemma WatchRoute(id: string)
    requires VideoId(id)
    ensures Route(HOST, WATCH_PATH, Some("v=" + id)) == Some(id)
  {
    WatchPathSegments();
    QueryRoundTrip(id);
    assert !BadSegment("watch");
    assert HOST[0] == 'w' && "youtu.be"[0] == 'y';
  }

  /** And a message that is just this URL previews just this id. */
  lemma WatchUrlPreviewsItsId(id: string)
    requires VideoId(id)
    ensures ParseYouTubeVideoIds(YouTubeWatchUrl(id)) == [id]
  {
    var t := YouTubeWatchUrl(id);
    WatchUrlIsPlain(id);
    WatchDelimiters(id);
    WatchUrlRoundTrip(id);
    OneToken(t);
    var none: seq<string> := [];
    assert [t][1..] == none;
    assert IdsOn([t], none) == IdsOn(none, [id]);
  }

  /** A body that is one unbroken URL has one token. */
  lemma OneToken(t: string)
    requires HttpsAt(t, 0) && Plain(t) && |t| <= SCAN_LIMIT
    ensures Tokens(t[..Cut(t)]) == [t]
  {
    NoBreakNoEnd(t, 8);
    assert t[..Cut(t)] == t && t[0..|t|] == t;
    assert SpansFrom(t, |t|, RAW_TOKEN_LIMIT - 1) == [];
    assert SpansFrom(t, 0, RAW_TOKEN_LIMIT) == [Span(0, |t|)];
  }

  lemma {:induction false} NoBreakNoEnd(s: string, i: nat)
    requires i <= |s| && forall k :: i <= k < |s| ==> !IsBreak(s[k])
    ensures TokenEnd(s, i) == |s|
    decreases |s| - i
  {
    if i < |s| { NoBreakNoEnd(s, i + 1); }
  }
}
