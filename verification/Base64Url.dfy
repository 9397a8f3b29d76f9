/**
Canonical Base64URL (RFC 4648, section 5) as it is encoded and decoded in
lib/security/session-vault-format.ts and, a second time, in
lib/security/webauthn-prf.ts; btoa and atob are written out.
*/
module Base64Url {
  import opened Basics

  predicate IsBytes(b: seq<int>) { forall i :: 0 <= i < |b| ==> 0 <= b[i] < 256 }

  predicate IsSextets(s: seq<int>) { forall i :: 0 <= i < |s| ==> 0 <= s[i] < 64 }

  /* ---- Three bytes are four sextets ---- */

  function ToSextets(b: seq<int>): (s: seq<int>)
    ensures |s| == (4 * |b| + 2) / 3
  {
    if |b| == 0 then []
    else if |b| == 1 then [b[0] / 4, b[0] % 4 * 16]
    else if |b| == 2 then [b[0] / 4, b[0] % 4 * 16 + b[1] / 16, b[1] % 16 * 4]
    else [b[0] / 4, b[0] % 4 * 16 + b[1] / 16, b[1] % 16 * 4 + b[2] / 64, b[2] % 64] + ToSextets(b[3..])
  }

  /** Bits left over in a last, incomplete group are dropped. */
  function FromSextets(s: seq<int>): (b: seq<int>)
    ensures |b| == 3 * |s| / 4
  {
    if |s| <= 1 then []
    else if |s| == 2 then [s[0] * 4 + s[1] / 16]
    else if |s| == 3 then [s[0] * 4 + s[1] / 16, s[1] % 16 * 16 + s[2] / 4]
    else [s[0] * 4 + s[1] / 16, s[1] % 16 * 16 + s[2] / 4, s[2] % 4 * 64 + s[3]] + FromSextets(s[4..])
  }

  lemma {:induction false} SextetsRoundTrip(b: seq<int>)
    requires IsBytes(b)
    ensures IsSextets(ToSextets(b)) && FromSextets(ToSextets(b)) == b
  {
    if |b| >= 3 {
      var rest := ToSextets(b[3..]);
      SextetsRoundTrip(b[3..]);
      var s := ToSextets(b);
      assert s[4..] == rest;
      assert b == [b[0], b[1], b[2]] + b[3..];
    }
  }

  /* ---- The alphabet ---- */

  function Char(n: int): char
    requires 0 <= n < 64
  {
    if n < 26 then ('A' as int + n) as char
    else if n < 52 then ('a' as int + (n - 26)) as char
    else if n < 62 then ('0' as int + (n - 52)) as char
    else if n == 62 then '+' else '/'
  }

  function Value(c: char): int {
    if 'A' <= c <= 'Z' then c as int - 'A' as int
    else if 'a' <= c <= 'z' then c as int - 'a' as int + 26
    else if '0' <= c <= '9' then c as int - '0' as int + 52
    else if c == '+' then 62 else if c == '/' then 63 else -1
  }

  lemma AlphabetRoundTrip(n: int, c: char)
    ensures 0 <= n < 64 ==> Value(Char(n)) == n && Char(n) != '='
    ensures -1 <= Value(c) < 64 && (Value(c) >= 0 ==> Char(Value(c)) == c)
  {
  }

  predicate InAlphabet(s: string) { forall i :: 0 <= i < |s| ==> Value(s[i]) >= 0 }

  function Chars(s: seq<int>): string
    requires IsSextets(s)
  {
    seq(|s|, i requires 0 <= i < |s| => Char(s[i]))
  }

  function Values(s: string): seq<int> { seq(|s|, i requires 0 <= i < |s| => Value(s[i])) }

  function ToUrl(c: char): char { if c == '+' then '-' else if c == '/' then '_' else c }

  function ToStandard(c: char): char { if c == '-' then '+' else if c == '_' then '/' else c }

  function Url(s: string): string { seq(|s|, i requires 0 <= i < |s| => ToUrl(s[i])) }

  function Standard(s: string): string { seq(|s|, i requires 0 <= i < |s| => ToStandard(s[i])) }

  /** Matches /^[A-Za-z0-9_-]+$/. */
  predicate UrlAlphabet(s: string) {
    |s| > 0 && forall i :: 0 <= i < |s| ==> s[i] != '+' && s[i] != '/' && Value(ToStandard(s[i])) >= 0
  }

  function Padding(n: int): string { if n == 2 then "==" else if n == 1 then "=" else "" }

  /* ---- btoa and atob ---- */

  function Btoa(b: seq<int>): string
    requires IsBytes(b)
  {
    SextetsRoundTrip(b);
    Chars(ToSextets(b)) + Padding((3 - |b| % 3) % 3)
  }

  predicate IsAsciiSpace(c: char) { c == ' ' || c == '\t' || c == '\n' || c == '\r' || c as int == 12 }

  function WithoutSpaces(s: string): string {
    if s == "" then "" else (if IsAsciiSpace(s[0]) then "" else [s[0]]) + WithoutSpaces(s[1..])
  }

  function Unpadded(s: string): string {
    if |s| % 4 != 0 || s == "" || s[|s| - 1] != '=' then s
    else if |s| >= 2 && s[|s| - 2] == '=' then s[..|s| - 2] else s[..|s| - 1]
  }

  /** The forgiving-base64 decoder of the WHATWG Infra standard, section 6. */
  function Atob(s: string): Option<seq<int>> {
    var t := Unpadded(WithoutSpaces(s));
    if |t| % 4 == 1 || !InAlphabet(t) then None else Some(FromSextets(Values(t)))
  }

  /* ---- The encoder ---- */

  function StripPadding(s: string): string {
    if s == "" || s[|s| - 1] != '=' then s else StripPadding(s[..|s| - 1])
  }

  function Encode(b: seq<int>): string
    requires IsBytes(b)
  {
    StripPadding(Url(Btoa(b)))
  }

  /** encodeBase64Url accumulates the binary string byte by byte. */
  method EncodeBase64Url(bytes: array<int>) returns (text: string)
    requires IsBytes(bytes[..])
    ensures text == Encode(bytes[..])
  {
    var binary: seq<int> := [];
    var k := 0;
    while k < bytes.Length
      invariant 0 <= k <= bytes.Length && binary == bytes[..k]
    {
      binary := binary + [bytes[k]];
      k := k + 1;
    }
    assert bytes[..k] == bytes[..];
    text := StripPadding(Url(Btoa(binary)));
  }

  lemma {:induction false} StripStops(s: string, n: int)
    requires s == "" || s[|s| - 1] != '='
    ensures StripPadding(s + Padding(n)) == s
  {
    var t := s + Padding(n);
    if n == 2 {
      assert t[..|t| - 1] == s + Padding(1);
      StripStops(s, 1);
    } else if n == 1 {
      assert t[..|t| - 1] == s;
    } else {
      assert t == s;
    }
  }

  /** The encoding is the sextets in the URL alphabet, one character each. */
  lemma EncodeIsSextets(b: seq<int>)
    requires IsBytes(b)
    ensures IsSextets(ToSextets(b)) && Encode(b) == Url(Chars(ToSextets(b)))
    ensures |Encode(b)| == (4 * |b| + 2) / 3
  {
    SextetsRoundTrip(b);
    var s := Chars(ToSextets(b));
    var pad := Padding((3 - |b| % 3) % 3);
    assert Url(s + pad) == Url(s) + pad;
    if s != "" { AlphabetRoundTrip(ToSextets(b)[|s| - 1], 'A'); }
    StripStops(Url(s), (3 - |b| % 3) % 3);
  }

  /* ---- The two decoders ---- */

  /** What both decoders hand to atob. */
  function Padded(v: string): string { Standard(v) + Padding((4 - |v| % 4) % 4) }

  function CeilingOfFourThirds(n: int): int { (4 * n + 2) / 3 }

  /** decodeCanonicalBase64Url of the session vault; None is the rejection. */
  function DecodeVault(v: string, exact: Option<nat>, minimum: nat, maximum: nat): Option<seq<int>> {
    if v == "" || |v| > CeilingOfFourThirds(maximum) + 2 || !UrlAlphabet(v) || |v| % 4 == 1 then None
    else
      var binary := Atob(Padded(v));
      if binary.None? then None
      else
        var bytes := binary.value;
        var least := if exact.Some? then exact.value else minimum;
        var most := if exact.Some? then exact.value else maximum;
        if |bytes| < least || |bytes| > most || !IsBytes(bytes) || Encode(bytes) != v then None else Some(bytes)
  }

  /** decodeCanonicalBase64Url of the passkey module. */
  function DecodePrf(v: string, minimum: nat, maximum: nat): Option<seq<int>> {
    if |v| < CeilingOfFourThirds(minimum) || |v| > CeilingOfFourThirds(maximum) || |v| % 4 == 1 || !UrlAlphabet(v) then None
    else
      var decoded := Atob(Padded(v));
      if decoded.None? then None
      else if |decoded.value| < minimum || |decoded.value| > maximum || !IsBytes(decoded.value) || Encode(decoded.value) != v then None
      else decoded
  }

  /** The decoder with its buffer: rejected bytes are overwritten before the error is thrown. */
  method DecodeCanonicalBase64Url(value: string, exact: Option<nat>, minimum: nat, maximum: nat)
    returns (accepted: bool, bytes: array<int>)
    ensures accepted <==> DecodeVault(value, exact, minimum, maximum).Some?
    ensures accepted ==> DecodeVault(value, exact, minimum, maximum) == Some(bytes[..])
    ensures !accepted ==> forall i :: 0 <= i < bytes.Length ==> bytes[i] == 0
  {
    accepted, bytes := false, new int[0];
    if value == "" || |value| > CeilingOfFourThirds(maximum) + 2 || !UrlAlphabet(value) || |value| % 4 == 1 { return; }
    var binary := Atob(Padded(value));
    if binary.None? { return; }
    bytes := new int[|binary.value|](i requires 0 <= i < |binary.value| => binary.value[i]);
    assert bytes[..] == binary.value;
    var least := if exact.Some? then exact.value else minimum;
    var most := if exact.Some? then exact.value else maximum;
    if bytes.Length < least || bytes.Length > most || !IsBytes(binary.value) || Encode(binary.value) != value {
      var k := 0;
      while k < bytes.Length
        invariant 0 <= k <= bytes.Length && forall i :: 0 <= i < k ==> bytes[i] == 0
      {
        bytes[k] := 0;
        k := k + 1;
      }
      return;
    }
    accepted := true;
  }

  lemma {:induction false} NoSpaces(s: string)
    requires forall i :: 0 <= i < |s| ==> !IsAsciiSpace(s[i])
    ensures WithoutSpaces(s) == s
  {
    if s != "" { NoSpaces(s[1..]); }
  }

  lemma UnpaddedIs(s: string, n: int)
    requires s != "" && s[|s| - 1] != '=' && n == (4 - |s| % 4) % 4 && n != 3
    ensures Unpadded(s + Padding(n)) == s
  {
    var p := s + Padding(n);
    assert |p| == |s| + n;
    if n == 2 {
      assert p[|p| - 1] == '=' && p[|p| - 2] == '=' && p[..|p| - 2] == s;
    } else if n == 1 {
      assert p[|p| - 1] == '=' && p[|p| - 2] == s[|s| - 1] && p[..|p| - 1] == s;
    } else {
      assert p == s;
    }
  }

  lemma NotPadding(c: char)
    requires Value(c) >= 0
    ensures c != '=' && !IsAsciiSpace(c) && Value(c) < 64
  {
  }

  /** For a string in the alphabet atob sees exactly the characters given, whatever the padding. */
  lemma AtobOfPadded(v: string)
    requires UrlAlphabet(v) && |v| % 4 != 1
    ensures Atob(Padded(v)) == Some(FromSextets(Values(Standard(v))))
  {
    var s := Standard(v);
    forall i | 0 <= i < |s| ensures 0 <= Value(s[i]) && s[i] != '=' && !IsAsciiSpace(s[i]) { NotPadding(s[i]); }
    NoSpaces(Padded(v));
    UnpaddedIs(s, (4 - |v| % 4) % 4);
    assert InAlphabet(s);
  }

  lemma UrlCharacter(n: int)
    requires 0 <= n < 64
    ensures var c := ToUrl(Char(n)); c != '+' && c != '/' && Value(ToStandard(c)) == n
  {
  }

  lemma UrlCharacters(s: seq<int>)
    requires IsSextets(s)
    ensures var v := Url(Chars(s)); (s != [] ==> UrlAlphabet(v)) && Values(Standard(v)) == s
  {
    var v := Url(Chars(s));
    forall i | 0 <= i < |s| ensures v[i] != '+' && v[i] != '/' && Value(ToStandard(v[i])) == s[i] {
      UrlCharacter(s[i]);
    }
    assert Values(Standard(v)) == s;
  }

  /** An encoding is in the alphabet, has no length 4k + 1, and decodes to what was encoded. */
  lemma EncodingsDecode(b: seq<int>)
    requires IsBytes(b) && b != []
    ensures UrlAlphabet(Encode(b)) && |Encode(b)| % 4 != 1
    ensures Atob(Padded(Encode(b))) == Some(b)
  {
    EncodeIsSextets(b);
    SextetsRoundTrip(b);
    EncodedLength(|b|);
    SextetsDecode(ToSextets(b));
  }

  lemma SextetsDecode(s: seq<int>)
    requires IsSextets(s) && s != [] && |s| % 4 != 1
    ensures UrlAlphabet(Url(Chars(s))) && Atob(Padded(Url(Chars(s)))) == Some(FromSextets(s))
  {
    UrlCharacters(s);
    AtobOfPadded(Url(Chars(s)));
  }

  lemma EncodedLength(n: nat)
    ensures (4 * n + 2) / 3 % 4 != 1
  {
    var k, r := n / 3, n % 3;
    assert n == 3 * k + r;
    assert (4 * n + 2) / 3 == 4 * k + (4 * r + 2) / 3;
  }

  /**
  The vault's decoder accepts exactly the encodings of non-empty byte strings within the limits, and returns the
  bytes that were encoded.
  */
  lemma VaultAcceptsExactlyEncodings(v: string, exact: Option<nat>, minimum: nat, maximum: nat, b: seq<int>)
    ensures DecodeVault(v, exact, minimum, maximum) == Some(b) <==>
      && b != [] && IsBytes(b) && v == Encode(b)
      && (if exact.Some? then |b| == exact.value else minimum <= |b| <= maximum)
      && |v| <= CeilingOfFourThirds(maximum) + 2
  {
    if b != [] && IsBytes(b) && v == Encode(b) { EncodingsDecode(b); }
    if b == [] && DecodeVault(v, exact, minimum, maximum) == Some(b) { EncodeIsSextets(b); }
  }

  lemma PrfAcceptsExactlyEncodings(v: string, minimum: nat, maximum: nat, b: seq<int>)
    ensures DecodePrf(v, minimum, maximum) == Some(b) <==>
      b != [] && IsBytes(b) && v == Encode(b) && minimum <= |b| <= maximum
  {
    if b != [] && IsBytes(b) && v == Encode(b) {
      EncodingsDecode(b);
      EncodeIsSextets(b);
    }
    if b == [] && DecodePrf(v, minimum, maximum) == Some(b) { EncodeIsSextets(b); }
  }

  /** Decoding undoes encoding, and an accepted string is the one encoding of what it stands for. */
  lemma EncodingIsCanonical(b: seq<int>, c: seq<int>, maximum: nat)
    requires IsBytes(b) && IsBytes(c) && 1 <= |b| <= maximum
    ensures DecodeVault(Encode(b), None, 0, maximum) == Some(b)
    ensures Encode(b) == Encode(c) ==> b == c
  {
    EncodeIsSextets(b);
    VaultAcceptsExactlyEncodings(Encode(b), None, 0, maximum, b);
    EncodingsDecode(b);
    if c != [] { EncodingsDecode(c); } else { EncodeIsSextets(c); }
  }

  /** The two decoders, written separately, accept the same strings with the same bytes. */
  lemma DecodersAgree(v: string, minimum: nat, maximum: nat)
    ensures DecodeVault(v, None, minimum, maximum) == DecodePrf(v, minimum, maximum)
    ensures minimum == maximum ==> DecodeVault(v, Some(maximum), 0, maximum) == DecodePrf(v, maximum, maximum)
  {
    var p := DecodePrf(v, minimum, maximum);
    var d := DecodeVault(v, None, minimum, maximum);
    var e := DecodeVault(v, Some(maximum), 0, maximum);
    if p.Some? {
      PrfAcceptsExactlyEncodings(v, minimum, maximum, p.value);
      EncodeIsSextets(p.value);
      VaultAcceptsExactlyEncodings(v, None, minimum, maximum, p.value);
      VaultAcceptsExactlyEncodings(v, Some(maximum), 0, maximum, p.value);
    }
    if d.Some? {
      VaultAcceptsExactlyEncodings(v, None, minimum, maximum, d.value);
      PrfAcceptsExactlyEncodings(v, minimum, maximum, d.value);
    }
    if e.Some? {
      VaultAcceptsExactlyEncodings(v, Some(maximum), 0, maximum, e.value);
      PrfAcceptsExactlyEncodings(v, maximum, maximum, e.value);
    }
  }
}
