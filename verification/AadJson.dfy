/**
The additional data of lib/security/session-vault-format.ts: JSON text of
nested arrays (RFC 8259; strings escaped as its section 7 allows and
JSON.stringify does), and what it binds.
*/
module AadJson {
  import opened Basics

  datatype Json = Null | Number(n: nat) | Text(s: string) | List(items: Items)

  datatype Items = Nil | Cons(head: Json, tail: Items)

  /* ---- JSON.stringify ---- */

  function Hex(n: int): char
    requires 0 <= n < 16
  {
    if n < 10 then ('0' as int + n) as char else ('a' as int + (n - 10)) as char
  }

  function Escaped(c: char): (e: string)
    ensures |e| > 0 && e[0] != '"'
  {
    if c == '"' then "\\\""
    else if c == '\\' then "\\\\"
    else if c as int == 8 then "\\b"
    else if c as int == 9 then "\\t"
    else if c as int == 10 then "\\n"
    else if c as int == 12 then "\\f"
    else if c as int == 13 then "\\r"
    else if c as int < 32 then ['\\', 'u', '0', '0', Hex(c as int / 16), Hex(c as int % 16)]
    else [c]
  }

  function Body(s: string): string {
    if s == "" then "" else Escaped(s[0]) + Body(s[1..])
  }

  function Digit(d: int): char
    requires 0 <= d < 10
  {
    ('0' as int + d) as char
  }

  function Decimal(n: nat): (s: string)
    ensures |s| > 0
  {
    if n < 10 then [Digit(n)] else Decimal(n / 10) + [Digit(n % 10)]
  }

  function Print(j: Json): (s: string)
    ensures |s| > 0
    decreases j
  {
    match j
    case Null => "null"
    case Number(n) => Decimal(n)
    case Text(s) => "\"" + Body(s) + "\""
    case List(items) => "[" + PrintItems(items) + "]"
  }

  function PrintItems(items: Items): string
    decreases items
  {
    match items
    case Nil => ""
    case Cons(head, Nil) => Print(head)
    case Cons(head, tail) => Print(head) + "," + PrintItems(tail)
  }

  /* ---- Printed text can be read in only one way ---- */

  lemma Regroup(a: string, b: string, c: string, d: string)
    ensures a + b + c + d == a + (b + (c + d)) && a + b + c == a + (b + c)
  {
  }

  lemma SameTail(a: string, x: string, y: string)
    requires a + x == a + y
    ensures x == y
  {
    assert (a + x)[|a|..] == x && (a + y)[|a|..] == y;
  }

  lemma EscapesDiffer(c: char, d: char, x: string, y: string)
    requires Escaped(c) + x == Escaped(d) + y
    ensures c == d && x == y
  {
    var e, f := Escaped(c), Escaped(d);
    assert (e + x)[0] == e[0] && (f + y)[0] == f[0];
    if |e| >= 2 && |f| >= 2 { assert (e + x)[1] == e[1] && (f + y)[1] == f[1]; }
    if |e| == 6 && |f| == 6 {
      assert (e + x)[4] == e[4] && (f + y)[4] == f[4] && (e + x)[5] == e[5] && (f + y)[5] == f[5];
      HexDiffers(c as int / 16, d as int / 16);
      HexDiffers(c as int % 16, d as int % 16);
    }
    assert c == d;
    assert (e + x)[|e|..] == x && (f + y)[|f|..] == y;
  }

  lemma HexDiffers(m: int, n: int)
    requires 0 <= m < 16 && 0 <= n < 16
    ensures Hex(m) == Hex(n) ==> m == n
  {
  }

  lemma BodyStep(s: string, x: string)
    ensures s == "" ==> Body(s) + ("\"" + x) == "\"" + x
    ensures s != "" ==> Body(s) + ("\"" + x) == Escaped(s[0]) + (Body(s[1..]) + ("\"" + x))
    ensures (Body(s) + ("\"" + x))[0] == '"' <==> s == ""
  {
    if s == "" {
      assert "" + ("\"" + x) == "\"" + x;
    } else {
      Regroup(Escaped(s[0]), Body(s[1..]), "\"" + x, "");
      assert (Escaped(s[0]) + (Body(s[1..]) + ("\"" + x)))[0] == Escaped(s[0])[0];
    }
  }

  lemma {:induction false} BodiesEnd(s: string, t: string, x: string, y: string)
    requires Body(s) + ("\"" + x) == Body(t) + ("\"" + y)
    ensures s == t && x == y
    decreases |s|
  {
    BodyStep(s, x);
    BodyStep(t, y);
    if s == "" {
      SameTail("\"", x, y);
    } else {
      EscapesDiffer(s[0], t[0], Body(s[1..]) + ("\"" + x), Body(t[1..]) + ("\"" + y));
      BodiesEnd(s[1..], t[1..], x, y);
      assert s == [s[0]] + s[1..] && t == [t[0]] + t[1..];
    }
  }

  predicate IsDigit(c: char) { '0' <= c <= '9' }

  /** What follows a value inside an array, or nothing. */
  predicate Delimited(x: string) { x == "" || x[0] == ',' || x[0] == ']' }

  /** The first `n` characters are digits, and the next is not. */
  predicate DigitRun(s: string, n: nat) {
    n <= |s| && (forall i :: 0 <= i < n ==> IsDigit(s[i])) && (n < |s| ==> !IsDigit(s[n]))
  }

  lemma {:induction false} DecimalIsDigits(n: nat)
    ensures forall i :: 0 <= i < |Decimal(n)| ==> IsDigit(Decimal(n)[i])
    ensures |Decimal(n)| == 1 <==> n < 10
  {
    if n >= 10 { DecimalIsDigits(n / 10); }
  }

  lemma {:induction false} DecimalInjective(m: nat, n: nat)
    requires Decimal(m) == Decimal(n)
    ensures m == n
  {
    var a, b := Decimal(m), Decimal(n);
    DecimalIsDigits(m);
    DecimalIsDigits(n);
    assert a[|a| - 1] == Digit(m % 10) && b[|b| - 1] == Digit(n % 10);
    if m >= 10 {
      assert a[..|a| - 1] == Decimal(m / 10) && b[..|b| - 1] == Decimal(n / 10);
      DecimalInjective(m / 10, n / 10);
    }
  }

  lemma NumberIsARun(n: nat, x: string)
    requires Delimited(x)
    ensures DigitRun(Decimal(n) + x, |Decimal(n)|)
  {
    DecimalIsDigits(n);
  }

  lemma NumbersEnd(m: nat, n: nat, x: string, y: string)
    requires Decimal(m) + x == Decimal(n) + y && Delimited(x) && Delimited(y)
    ensures m == n && x == y
  {
    var a, b := Decimal(m), Decimal(n);
    NumberIsARun(m, x);
    NumberIsARun(n, y);
    assert |a| == |b|;
    assert a == (a + x)[..|a|] == (b + y)[..|b|] == b;
    assert x == (a + x)[|a|..] == (b + y)[|b|..] == y;
    DecimalInjective(m, n);
  }

  lemma FirstCharacter(j: Json, x: string)
    ensures var c := (Print(j) + x)[0];
      && (c == 'n' <==> j.Null?) && (IsDigit(c) <==> j.Number?) && (c == '"' <==> j.Text?) && (c == '[' <==> j.List?)
      && c != ']' && c != ','
  {
    if j.Number? { DecimalIsDigits(j.n); }
    assert (Print(j) + x)[0] == Print(j)[0];
  }

  /** A printed value followed by a delimiter determines the value and where it ends. */
  lemma {:induction false} ValuesEnd(v: Json, w: Json, x: string, y: string)
    requires Print(v) + x == Print(w) + y && Delimited(x) && Delimited(y)
    ensures v == w && x == y
    decreases v
  {
    FirstCharacter(v, x);
    FirstCharacter(w, y);
    match v
    case Null => SameTail("null", x, y);
    case Number(n) => NumbersEnd(n, w.n, x, y);
    case Text(s) =>
      Regroup("\"", Body(s), "\"", x);
      Regroup("\"", Body(w.s), "\"", y);
      SameTail("\"", Body(s) + ("\"" + x), Body(w.s) + ("\"" + y));
      BodiesEnd(s, w.s, x, y);
    case List(items) =>
      Regroup("[", PrintItems(items), "]", x);
      Regroup("[", PrintItems(w.items), "]", y);
      SameTail("[", PrintItems(items) + ("]" + x), PrintItems(w.items) + ("]" + y));
      ItemsEnd(items, w.items, x, y);
  }

  /** What comes after the first item of a list. */
  function Continued(tail: Items, x: string): string {
    if tail.Nil? then "]" + x else "," + (PrintItems(tail) + ("]" + x))
  }

  lemma ItemsStep(items: Items, x: string)
    ensures items.Nil? ==> PrintItems(items) + ("]" + x) == "]" + x
    ensures items.Cons? ==> PrintItems(items) + ("]" + x) == Print(items.head) + Continued(items.tail, x)
    ensures (PrintItems(items) + ("]" + x))[0] == ']' <==> items.Nil?
  {
    if items.Nil? {
      assert "" + ("]" + x) == "]" + x;
    } else {
      FirstCharacter(items.head, Continued(items.tail, x));
      if items.tail.Cons? { Regroup(Print(items.head), ",", PrintItems(items.tail), "]" + x); }
    }
  }

  lemma ContinuedFacts(tail: Items, x: string)
    ensures Delimited(Continued(tail, x)) && (Continued(tail, x)[0] == ']' <==> tail.Nil?)
  {
  }

  lemma {:induction false} ItemsEnd(v: Items, w: Items, x: string, y: string)
    requires PrintItems(v) + ("]" + x) == PrintItems(w) + ("]" + y)
    ensures v == w && x == y
    decreases v
  {
    ItemsStep(v, x);
    ItemsStep(w, y);
    if v.Nil? {
      SameTail("]", x, y);
    } else {
      ContinuedFacts(v.tail, x);
      ContinuedFacts(w.tail, y);
      ValuesEnd(v.head, w.head, Continued(v.tail, x), Continued(w.tail, y));
      if v.tail.Nil? {
        SameTail("]", x, y);
      } else {
        SameTail(",", PrintItems(v.tail) + ("]" + x), PrintItems(w.tail) + ("]" + y));
        ItemsEnd(v.tail, w.tail, x, y);
      }
    }
  }

  /** Different trees never print alike. */
  lemma PrintIsInjective(v: Json, w: Json)
    ensures Print(v) == Print(w) <==> v == w
  {
    if Print(v) == Print(w) {
      assert Print(v) + "" == Print(w) + "";
      ValuesEnd(v, w, "", "");
    }
  }

  /* ---- Additional data ---- */

  datatype AesBox = AesBox(algorithm: string, iv: string, ciphertext: string)

  datatype UnlockSlot =
    | Recovery(slotId: string, salt: string, iterations: nat, wrappedDek: AesBox)
    | Passkey(slotId: string, credentialId: string, transports: seq<string>, rpId: string, prfInput: string, hkdfSalt: string, wrappedDek: AesBox)

  datatype StorageMetadata = StorageMetadata(cryptoDatabasePrefix: string, legacySyncDatabase: Option<string>)

  const VAULT_SCHEMA_VERSION: nat := 1
  const PAYLOAD_LABEL := "sub-etha/session-vault/payload/v1"
  const SLOT_LABEL := "sub-etha/session-vault/slot/v1"
  const HKDF_LABEL := "sub-etha/session-vault/webauthn-prf-kek/v1"
  const RECOVERY := "recovery-key-pbkdf2"
  const PASSKEY := "webauthn-prf"

  function Strings(s: seq<string>): Items {
    if s == [] then Nil else Cons(Text(s[0]), Strings(s[1..]))
  }

  function CanonicalBox(b: AesBox): Json {
    List(Cons(Text(b.algorithm), Cons(Text(b.iv), Cons(Text(b.ciphertext), Nil))))
  }

  /** The fields of a slot, followed by `last`. */
  function SlotFields(s: UnlockSlot, last: Items): Json {
    match s
    case Recovery(slotId, salt, iterations, _) =>
      List(Cons(Text(RECOVERY), Cons(Text(slotId), Cons(Text(salt), Cons(Number(iterations), last)))))
    case Passkey(slotId, credentialId, transports, rpId, prfInput, hkdfSalt, _) =>
      List(Cons(Text(PASSKEY), Cons(Text(slotId), Cons(Text(credentialId), Cons(List(Strings(transports)),
           Cons(Text(rpId), Cons(Text(prfInput), Cons(Text(hkdfSalt), last))))))))
  }

  function CanonicalSlotMetadata(s: UnlockSlot): Json { SlotFields(s, Cons(CanonicalBox(s.wrappedDek), Nil)) }

  function AllSlots(slots: seq<UnlockSlot>): Items {
    if slots == [] then Nil else Cons(CanonicalSlotMetadata(slots[0]), AllSlots(slots[1..]))
  }

  function PayloadTree(recordId: string, revision: nat, storage: StorageMetadata, slots: seq<UnlockSlot>): Json {
    var legacy := if storage.legacySyncDatabase.Some? then Text(storage.legacySyncDatabase.value) else Null;
    List(Cons(Text(PAYLOAD_LABEL), Cons(Number(VAULT_SCHEMA_VERSION), Cons(Text(recordId), Cons(Number(revision),
         Cons(List(Cons(Text(storage.cryptoDatabasePrefix), Cons(legacy, Nil))), Cons(List(AllSlots(slots)), Nil)))))))
  }

  function SlotTree(recordId: string, slot: UnlockSlot): Json {
    List(Cons(Text(SLOT_LABEL), Cons(Number(VAULT_SCHEMA_VERSION), Cons(Text(recordId), Cons(SlotFields(slot, Nil), Nil)))))
  }

  function HkdfTree(recordId: string, slotId: string): Json {
    List(Cons(Text(HKDF_LABEL), Cons(Number(VAULT_SCHEMA_VERSION), Cons(Text(recordId), Cons(Text(slotId), Nil)))))
  }

  function PayloadAdditionalData(recordId: string, revision: nat, storage: StorageMetadata, slots: seq<UnlockSlot>): string {
    Print(PayloadTree(recordId, revision, storage, slots))
  }

  function SlotAdditionalData(recordId: string, slot: UnlockSlot): string { Print(SlotTree(recordId, slot)) }

  function WebAuthnHkdfInfo(recordId: string, slotId: string): string { Print(HkdfTree(recordId, slotId)) }

  /** Everything of a slot but the key it wraps. */
  predicate SameButKey(a: UnlockSlot, b: UnlockSlot) {
    match a
    case Recovery(slotId, salt, iterations, _) => b.Recovery? && b == Recovery(slotId, salt, iterations, b.wrappedDek)
    case Passkey(slotId, credentialId, transports, rpId, prfInput, hkdfSalt, _) =>
      b.Passkey? && b == Passkey(slotId, credentialId, transports, rpId, prfInput, hkdfSalt, b.wrappedDek)
  }

  lemma {:induction false} StringsInjective(s: seq<string>, t: seq<string>)
    requires Strings(s) == Strings(t)
    ensures s == t
  {
    if s != [] {
      assert t != [];
      StringsInjective(s[1..], t[1..]);
      assert s == [s[0]] + s[1..] && t == [t[0]] + t[1..];
    }
  }

  lemma KindsDiffer()
    ensures RECOVERY != PASSKEY && PAYLOAD_LABEL != SLOT_LABEL && PAYLOAD_LABEL != HKDF_LABEL && SLOT_LABEL != HKDF_LABEL
  {
    assert RECOVERY[0] != PASSKEY[0];
    assert PAYLOAD_LABEL[23] != SLOT_LABEL[23];
    assert PAYLOAD_LABEL[23] != HKDF_LABEL[23];
    assert SLOT_LABEL[23] != HKDF_LABEL[23];
  }

  lemma SlotFieldsInjective(a: UnlockSlot, b: UnlockSlot, x: Items, y: Items)
    ensures SlotFields(a, x) == SlotFields(b, y) <==> SameButKey(a, b) && x == y
  {
    KindsDiffer();
    if SlotFields(a, x) == SlotFields(b, y) && a.Passkey? && b.Passkey? {
      StringsInjective(a.transports, b.transports);
    }
  }

  lemma {:induction false} SlotsInjective(a: seq<UnlockSlot>, b: seq<UnlockSlot>)
    requires AllSlots(a) == AllSlots(b)
    ensures a == b
  {
    if a != [] {
      assert b != [];
      SlotFieldsInjective(a[0], b[0], Cons(CanonicalBox(a[0].wrappedDek), Nil), Cons(CanonicalBox(b[0].wrappedDek), Nil));
      SlotsInjective(a[1..], b[1..]);
      assert a == [a[0]] + a[1..] && b == [b[0]] + b[1..];
    }
  }

  /** The payload's additional data bind the record id, the revision, the storage and every field of every slot. */
  lemma PayloadDataBindEverything(
    id1: string, revision1: nat, storage1: StorageMetadata, slots1: seq<UnlockSlot>,
    id2: string, revision2: nat, storage2: StorageMetadata, slots2: seq<UnlockSlot>)
    ensures PayloadAdditionalData(id1, revision1, storage1, slots1) == PayloadAdditionalData(id2, revision2, storage2, slots2)
      <==> id1 == id2 && revision1 == revision2 && storage1 == storage2 && slots1 == slots2
  {
    var v, w := PayloadTree(id1, revision1, storage1, slots1), PayloadTree(id2, revision2, storage2, slots2);
    PrintIsInjective(v, w);
    if v == w { SlotsInjective(slots1, slots2); }
  }

  /** A slot's additional data bind the record id and everything of the slot but the wrapped key. */
  lemma SlotDataBindTheSlot(id1: string, slot1: UnlockSlot, id2: string, slot2: UnlockSlot)
    ensures SlotAdditionalData(id1, slot1) == SlotAdditionalData(id2, slot2) <==> id1 == id2 && SameButKey(slot1, slot2)
  {
    PrintIsInjective(SlotTree(id1, slot1), SlotTree(id2, slot2));
    SlotFieldsInjective(slot1, slot2, Nil, Nil);
  }

  lemma HkdfInfoBindsTheSlot(id1: string, slotId1: string, id2: string, slotId2: string)
    ensures WebAuthnHkdfInfo(id1, slotId1) == WebAuthnHkdfInfo(id2, slotId2) <==> id1 == id2 && slotId1 == slotId2
  {
    PrintIsInjective(HkdfTree(id1, slotId1), HkdfTree(id2, slotId2));
  }

  /** Nothing encoded for one purpose can pass for another. */
  lemma PurposesNeverCollide(
    id1: string, revision: nat, storage: StorageMetadata, slots: seq<UnlockSlot>, id2: string, slot: UnlockSlot, id3: string, slotId: string)
    ensures PayloadAdditionalData(id1, revision, storage, slots) != SlotAdditionalData(id2, slot)
    ensures PayloadAdditionalData(id1, revision, storage, slots) != WebAuthnHkdfInfo(id3, slotId)
    ensures SlotAdditionalData(id2, slot) != WebAuthnHkdfInfo(id3, slotId)
  {
    KindsDiffer();
    PrintIsInjective(PayloadTree(id1, revision, storage, slots), SlotTree(id2, slot));
    PrintIsInjective(PayloadTree(id1, revision, storage, slots), HkdfTree(id3, slotId));
    PrintIsInjective(SlotTree(id2, slot), HkdfTree(id3, slotId));
  }
}
