/**
The media cache of lib/matrix/client.ts as the plain list of entries ever made.

An entry counts while it is not released, and weighs its bytes once settled.
The object keeps two maps, an alias index, a running total and a size instead
of looking through this list; MediaCacheObject proves that they agree with it.
*/
module MediaCache {
  const MAX_BYTES := 128 * 1024 * 1024
  const MAX_ENTRIES := 96

  datatype Kind = Asset | Poster

  datatype Entry = Entry(
    kind: Kind, key: int, alias: int, byteLength: int, lastUsed: int, settled: bool, released: bool)

  /** What eviction must spare. */
  datatype Protected = Nothing | Spare(kind: Kind, key: int)

  function Weight(e: Entry): int { if e.settled && !e.released then e.byteLength else 0 }

  function Total(es: seq<Entry>): int {
    if es == [] then 0 else Weight(es[0]) + Total(es[1..])
  }

  function Live(e: Entry): int { if e.released then 0 else 1 }

  function Count(es: seq<Entry>): (n: nat)
    ensures n <= |es|
  {
    if es == [] then 0 else Live(es[0]) + Count(es[1..])
  }

  predicate Evictable(e: Entry, p: Protected) {
    e.settled && !e.released && p != Spare(e.kind, e.key)
  }

  /** The evictable entry used longest ago, or -1. */
  function Oldest(es: seq<Entry>, p: Protected): (i: int)
    ensures -1 <= i < |es|
    ensures i >= 0 ==> Evictable(es[i], p)
  {
    if es == [] then -1
    else
      var last := |es| - 1;
      var i := Oldest(es[..last], p);
      if Evictable(es[last], p) && (i < 0 || es[last].lastUsed < es[i].lastUsed) then last else i
  }

  function Released(es: seq<Entry>, i: int): (r: seq<Entry>)
    requires 0 <= i < |es|
    ensures |r| == |es|
  {
    es[i := es[i].(released := true)]
  }

  lemma {:induction false} Updated(es: seq<Entry>, i: int, e: Entry)
    requires 0 <= i < |es|
    ensures Total(es[i := e]) == Total(es) - Weight(es[i]) + Weight(e)
    ensures Count(es[i := e]) == Count(es) - Live(es[i]) + Live(e)
  {
    if i > 0 {
      assert es[i := e][1..] == es[1..][i - 1 := e];
      Updated(es[1..], i - 1, e);
    } else {
      assert es[i := e][1..] == es[1..];
    }
  }

  lemma {:induction false} Appended(es: seq<Entry>, e: Entry)
    ensures Total(es + [e]) == Total(es) + Weight(e)
    ensures Count(es + [e]) == Count(es) + Live(e)
  {
    if es == [] {
      assert es + [e] == [e] && Total([e][1..]) == 0 && Count([e][1..]) == 0;
    } else {
      assert (es + [e])[1..] == es[1..] + [e];
      Appended(es[1..], e);
    }
  }

  predicate Over(es: seq<Entry>) { Total(es) > MAX_BYTES || Count(es) > MAX_ENTRIES }

  /** evictMediaCache. */
  function Trimmed(es: seq<Entry>, p: Protected): (r: seq<Entry>)
    ensures |r| == |es|
    decreases Count(es)
  {
    var i := Oldest(es, p);
    if !Over(es) || i < 0 then es
    else
      Updated(es, i, es[i].(released := true));
      Trimmed(Released(es, i), p)
  }

  /** ensureMediaCacheSlot: what is left when it stops; a full list then means that it threw. */
  function MadeRoom(es: seq<Entry>): (r: seq<Entry>)
    ensures |r| == |es|
    decreases Count(es)
  {
    var i := Oldest(es, Nothing);
    if Count(es) < MAX_ENTRIES || i < 0 then es
    else
      Updated(es, i, es[i].(released := true));
      MadeRoom(Released(es, i))
  }

  /* ---- The segments between awaits ---- */

  datatype Cache = Cache(entries: seq<Entry>, clock: int)

  predicate Current(es: seq<Entry>, i: int, kind: Kind, key: int) {
    0 <= i < |es| && es[i].kind == kind && es[i].key == key && !es[i].released
  }

  /** A cached entry is used again. */
  function Touch(c: Cache, i: int): Cache
    requires 0 <= i < |c.entries|
  {
    Cache(c.entries[i := c.entries[i].(lastUsed := c.clock + 1)], c.clock + 1)
  }

  /** A key that is not cached: make room, and add an unsettled entry unless there is none. */
  function Open(c: Cache, kind: Kind, key: int, alias: int): Cache {
    var room := MadeRoom(c.entries);
    if Count(room) >= MAX_ENTRIES then c.(entries := room)
    else Cache(room + [Entry(kind, key, alias, 0, c.clock + 1, false, false)], c.clock + 1)
  }

  /** The load behind entry `i` succeeded. */
  function Settle(c: Cache, i: int, size: int): Cache
    requires 0 <= i < |c.entries|
  {
    var e := c.entries[i];
    if e.released then c.(entries := c.entries[i := e.(settled := true)])
    else c.(entries := Trimmed(c.entries[i := e.(settled := true, byteLength := size)], Spare(e.kind, e.key)))
  }

  /** It failed, or the request was invalidated meanwhile. */
  function Fail(c: Cache, i: int): Cache
    requires 0 <= i < |c.entries|
  {
    c.(entries := Released(c.entries, i))
  }

  function WithoutAlias(es: seq<Entry>, alias: int): (r: seq<Entry>)
    ensures |r| == |es|
    ensures forall i :: 0 <= i < |es| ==> r[i] == if es[i].alias == alias then es[i].(released := true) else es[i]
  {
    if es == [] then []
    else [if es[0].alias == alias then es[0].(released := true) else es[0]] + WithoutAlias(es[1..], alias)
  }

  function AllReleased(es: seq<Entry>): (r: seq<Entry>)
    ensures |r| == |es|
    ensures forall i :: 0 <= i < |es| ==> r[i] == es[i].(released := true)
  {
    if es == [] then [] else [es[0].(released := true)] + AllReleased(es[1..])
  }

  datatype Event =
    | Uses(i: int)
    | Opens(kind: Kind, key: int, alias: int)
    | Settles(i: int, size: int)
    | Fails(i: int)
    | Invalidates(alias: int)
    | ReleasesAll

  /** An entry's load ends once, and a key that is cached is not opened again. */
  function Step(c: Cache, e: Event): Cache {
    match e
    case Uses(i) => if 0 <= i < |c.entries| && !c.entries[i].released then Touch(c, i) else c
    case Opens(kind, key, alias) =>
      if exists i :: 0 <= i < |c.entries| && Current(c.entries, i, kind, key) then c else Open(c, kind, key, alias)
    case Settles(i, size) => if 0 <= i < |c.entries| && !c.entries[i].settled && size >= 0 then Settle(c, i, size) else c
    case Fails(i) => if 0 <= i < |c.entries| && !c.entries[i].settled then Fail(c, i) else c
    case Invalidates(alias) => c.(entries := WithoutAlias(c.entries, alias))
    case ReleasesAll => c.(entries := AllReleased(c.entries))
  }

  /* ---- What eviction does ---- */

  ghost predicate Sizes(es: seq<Entry>) { forall i :: 0 <= i < |es| ==> es[i].byteLength >= 0 }

  /** Two entries were last used at different times and, if both are live, differ in kind or key. */
  predicate Apart(es: seq<Entry>, i: int, j: int)
    requires 0 <= i < |es| && 0 <= j < |es|
  {
    && es[i].lastUsed != es[j].lastUsed
    && (!es[i].released && !es[j].released ==> es[i].kind != es[j].kind || es[i].key != es[j].key)
  }

  ghost predicate Distinct(es: seq<Entry>) { forall i, j :: 0 <= i < j < |es| ==> Apart(es, i, j) }

  ghost predicate Clocked(es: seq<Entry>, clock: int) { forall i :: 0 <= i < |es| ==> es[i].lastUsed <= clock }

  ghost predicate Consistent(c: Cache) {
    Sizes(c.entries) && Distinct(c.entries) && Clocked(c.entries, c.clock) && Count(c.entries) <= MAX_ENTRIES
  }

  lemma {:induction false} TotalIsNat(es: seq<Entry>)
    requires Sizes(es)
    ensures Total(es) >= 0
  {
    if es != [] { TotalIsNat(es[1..]); }
  }

  /** Releasing never takes away more than there is: Math.max has nothing to cut off. */
  lemma {:induction false} NoUnderflow(es: seq<Entry>, i: int)
    requires Sizes(es) && 0 <= i < |es|
    ensures Total(es) - Weight(es[i]) >= 0
  {
    Updated(es, i, es[i].(released := true));
    TotalIsNat(Released(es, i));
  }

  lemma {:induction false} OldestIsOldest(es: seq<Entry>, p: Protected)
    ensures var i := Oldest(es, p);
      (forall j :: 0 <= j < |es| && Evictable(es[j], p) ==> i >= 0 && es[i].lastUsed <= es[j].lastUsed)
  {
    if es != [] {
      OldestIsOldest(es[..|es| - 1], p);
    }
  }

  lemma {:induction false} SoleWeight(es: seq<Entry>, q: int)
    requires forall j :: 0 <= j < |es| && j != q ==> Weight(es[j]) == 0
    ensures Total(es) == if 0 <= q < |es| then Weight(es[q]) else 0
  {
    if es != [] { SoleWeight(es[1..], q - 1); }
  }

  /** `b` is `a` with some evictable entries released. */
  ghost predicate OnlyEvicts(a: seq<Entry>, b: seq<Entry>, p: Protected) {
    && |a| == |b|
    && forall i :: 0 <= i < |a| ==> b[i] == a[i] || (Evictable(a[i], p) && b[i] == a[i].(released := true))
  }

  /** Least recently used first. */
  ghost predicate OldestFirst(a: seq<Entry>, b: seq<Entry>, p: Protected)
    requires |a| == |b|
  {
    forall i, j :: 0 <= i < |a| && 0 <= j < |a| && b[i] != a[i] && Evictable(b[j], p) ==> a[i].lastUsed <= b[j].lastUsed
  }

  lemma {:induction false} TrimmedEvicts(es: seq<Entry>, p: Protected)
    ensures OnlyEvicts(es, Trimmed(es, p), p) && OldestFirst(es, Trimmed(es, p), p)
    decreases Count(es)
  {
    var i := Oldest(es, p);
    if Over(es) && i >= 0 {
      Updated(es, i, es[i].(released := true));
      OldestIsOldest(es, p);
      TrimmedEvicts(Released(es, i), p);
    }
  }

  lemma {:induction false} MadeRoomEvicts(es: seq<Entry>)
    ensures OnlyEvicts(es, MadeRoom(es), Nothing) && OldestFirst(es, MadeRoom(es), Nothing)
    ensures Count(MadeRoom(es)) >= MAX_ENTRIES ==> forall j :: 0 <= j < |es| ==> !Evictable(MadeRoom(es)[j], Nothing)
    decreases Count(es)
  {
    var i := Oldest(es, Nothing);
    OldestIsOldest(es, Nothing);
    if Count(es) >= MAX_ENTRIES && i >= 0 {
      Updated(es, i, es[i].(released := true));
      MadeRoomEvicts(Released(es, i));
    }
  }

  lemma {:induction false} EvictingLightens(a: seq<Entry>, b: seq<Entry>, p: Protected)
    requires OnlyEvicts(a, b, p) && Sizes(a)
    ensures Total(b) <= Total(a) && Count(b) <= Count(a)
  {
    if a != [] { EvictingLightens(a[1..], b[1..], p); }
  }

  /** Entries keep their key and last use; released ones stay released. */
  lemma StaysDistinct(a: seq<Entry>, b: seq<Entry>)
    requires Distinct(a) && |a| == |b|
    requires forall k :: 0 <= k < |a| ==>
      b[k].kind == a[k].kind && b[k].key == a[k].key && b[k].lastUsed == a[k].lastUsed && (a[k].released ==> b[k].released)
    ensures Distinct(b)
  {
    forall i, j | 0 <= i < j < |b| ensures Apart(b, i, j) { assert Apart(a, i, j); }
  }

  /** After trimming, the total is within the limit unless the spared entry alone exceeds it. */
  lemma {:induction false} TrimmedFits(es: seq<Entry>, q: int)
    requires Sizes(es) && Distinct(es) && 0 <= q < |es| && !es[q].released && es[q].settled && Count(es) <= MAX_ENTRIES
    ensures var r := Trimmed(es, Spare(es[q].kind, es[q].key));
      r[q] == es[q] && (Total(r) <= MAX_BYTES <==> es[q].byteLength <= MAX_BYTES)
    decreases Count(es)
  {
    var p := Spare(es[q].kind, es[q].key);
    var i := Oldest(es, p);
    OldestIsOldest(es, p);
    NoUnderflow(es, q);
    if Over(es) && i >= 0 {
      Updated(es, i, es[i].(released := true));
      StaysDistinct(es, Released(es, i));
      TrimmedFits(Released(es, i), q);
    } else if Over(es) {
      forall j | 0 <= j < |es| && j != q ensures Weight(es[j]) == 0 {
        assert if j < q then Apart(es, j, q) else Apart(es, q, j);
        assert !Evictable(es[j], p);
      }
      SoleWeight(es, q);
    }
  }

  /* ---- Every run ---- */

  ghost predicate Shape(es: seq<Entry>, clock: int) { Sizes(es) && Distinct(es) && Clocked(es, clock) }

  lemma EvictingKeepsShape(a: seq<Entry>, b: seq<Entry>, p: Protected, clock: int)
    requires Shape(a, clock) && OnlyEvicts(a, b, p)
    ensures Shape(b, clock)
  {
    StaysDistinct(a, b);
  }

  lemma AppendKeepsShape(es: seq<Entry>, e: Entry, clock: int)
    requires Shape(es, clock) && e.lastUsed == clock + 1 && e.byteLength == 0
    requires forall i :: 0 <= i < |es| && !es[i].released ==> es[i].kind != e.kind || es[i].key != e.key
    ensures Shape(es + [e], clock + 1)
  {
    var longer := es + [e];
    forall i, j | 0 <= i < j < |longer| ensures Apart(longer, i, j) {
      if j < |es| { assert Apart(es, i, j); }
    }
  }

  lemma OpenKeepsConsistent(c: Cache, kind: Kind, key: int, alias: int)
    requires Consistent(c) && forall i :: !Current(c.entries, i, kind, key)
    ensures Consistent(Open(c, kind, key, alias)) && Total(Open(c, kind, key, alias).entries) <= Total(c.entries)
  {
    var room := MadeRoom(c.entries);
    MadeRoomEvicts(c.entries);
    EvictingLightens(c.entries, room, Nothing);
    EvictingKeepsShape(c.entries, room, Nothing, c.clock);
    if Count(room) < MAX_ENTRIES {
      var e := Entry(kind, key, alias, 0, c.clock + 1, false, false);
      Appended(room, e);
      forall i | 0 <= i < |room| && !room[i].released ensures room[i].kind != kind || room[i].key != key {
        assert !Current(c.entries, i, kind, key);
      }
      AppendKeepsShape(room, e, c.clock);
    }
  }

  lemma SettledShape(es: seq<Entry>, i: int, e: Entry, clock: int)
    requires Shape(es, clock) && 0 <= i < |es|
    requires e.kind == es[i].kind && e.key == es[i].key && e.lastUsed == es[i].lastUsed && e.released == es[i].released && e.byteLength >= 0
    ensures Shape(es[i := e], clock)
  {
    StaysDistinct(es, es[i := e]);
  }

  lemma SettleKeepsConsistent(c: Cache, i: int, size: int)
    requires Consistent(c) && 0 <= i < |c.entries| && !c.entries[i].settled && size >= 0
    ensures Consistent(Settle(c, i, size))
    ensures size <= MAX_BYTES && Total(c.entries) <= MAX_BYTES ==> Total(Settle(c, i, size).entries) <= MAX_BYTES
  {
    var e := c.entries[i];
    if e.released {
      Updated(c.entries, i, e.(settled := true));
      SettledShape(c.entries, i, e.(settled := true), c.clock);
    } else {
      var settled := e.(settled := true, byteLength := size);
      var es := c.entries[i := settled];
      var p := Spare(e.kind, e.key);
      Updated(c.entries, i, settled);
      SettledShape(c.entries, i, settled, c.clock);
      TrimmedEvicts(es, p);
      EvictingLightens(es, Trimmed(es, p), p);
      EvictingKeepsShape(es, Trimmed(es, p), p, c.clock);
      TrimmedFits(es, i);
    }
  }

  lemma {:induction false} ReleasingLightens(a: seq<Entry>, b: seq<Entry>)
    requires |a| == |b| && Sizes(a)
    requires forall i :: 0 <= i < |a| ==> b[i] == a[i] || b[i] == a[i].(released := true)
    ensures Total(b) <= Total(a) && Count(b) <= Count(a)
  {
    if a != [] { ReleasingLightens(a[1..], b[1..]); }
  }

  lemma ReleasingKeepsConsistent(c: Cache, b: seq<Entry>)
    requires Consistent(c) && |c.entries| == |b|
    requires forall i :: 0 <= i < |b| ==> b[i] == c.entries[i] || b[i] == c.entries[i].(released := true)
    ensures Consistent(Cache(b, c.clock)) && Total(b) <= Total(c.entries)
  {
    ReleasingLightens(c.entries, b);
    StaysDistinct(c.entries, b);
  }

  lemma TouchKeepsConsistent(c: Cache, i: int)
    requires Consistent(c) && 0 <= i < |c.entries|
    ensures Consistent(Touch(c, i)) && Total(Touch(c, i).entries) == Total(c.entries)
  {
    Updated(c.entries, i, c.entries[i].(lastUsed := c.clock + 1));
    var es := Touch(c, i).entries;
    forall j, k | 0 <= j < k < |es| ensures Apart(es, j, k) { assert Apart(c.entries, j, k); }
  }

  lemma StepKeepsConsistent(c: Cache, e: Event)
    requires Consistent(c)
    ensures Consistent(Step(c, e))
    ensures Total(c.entries) <= MAX_BYTES && (e.Settles? ==> e.size <= MAX_BYTES) ==> Total(Step(c, e).entries) <= MAX_BYTES
  {
    match e
    case Uses(i) =>
      if 0 <= i < |c.entries| { TouchKeepsConsistent(c, i); }
    case Opens(kind, key, alias) =>
      if forall i :: !Current(c.entries, i, kind, key) { OpenKeepsConsistent(c, kind, key, alias); }
    case Settles(i, size) =>
      if 0 <= i < |c.entries| && !c.entries[i].settled && size >= 0 { SettleKeepsConsistent(c, i, size); }
    case _ => ReleasingKeepsConsistent(c, Step(c, e).entries);
  }

  function Run(es: seq<Event>): Cache {
    if es == [] then Cache([], 0) else Step(Run(es[..|es| - 1]), es[|es| - 1])
  }

  /** In any interleaving the cache stays within both limits, provided no single item exceeds the byte limit. */
  lemma {:induction false} CacheStaysBounded(es: seq<Event>)
    ensures Consistent(Run(es)) && Count(Run(es).entries) <= MAX_ENTRIES
    ensures (forall k :: 0 <= k < |es| && es[k].Settles? ==> es[k].size <= MAX_BYTES) ==> Total(Run(es).entries) <= MAX_BYTES
  {
    if es != [] {
      var last := |es| - 1;
      CacheStaysBounded(es[..last]);
      StepKeepsConsistent(Run(es[..last]), es[last]);
    }
  }

  /** The entry just settled is never evicted for it, and whatever is evicted was used before all that could have been. */
  lemma SettlingEvictsOldestFirst(c: Cache, i: int, size: int)
    requires Consistent(c) && 0 <= i < |c.entries| && !c.entries[i].settled && !c.entries[i].released && size >= 0
    ensures var r := Settle(c, i, size).entries;
      && !r[i].released && r[i].byteLength == size
      && (forall j :: 0 <= j < |r| && !c.entries[j].released && !c.entries[j].settled ==> !r[j].released)
      && (forall j, k :: 0 <= j < |r| && 0 <= k < |r| && k != i && !c.entries[j].released && r[j].released && r[k].settled && !r[k].released ==>
            c.entries[j].lastUsed < c.entries[k].lastUsed)
      && (Total(r) <= MAX_BYTES <==> size <= MAX_BYTES)
  {
    var e := c.entries[i];
    var es := c.entries[i := e.(settled := true, byteLength := size)];
    Updated(c.entries, i, es[i]);
    SettledShape(c.entries, i, es[i], c.clock);
    TrimmedEvicts(es, Spare(e.kind, e.key));
    TrimmedFits(es, i);
    var r := Settle(c, i, size).entries;
    forall j, k | 0 <= j < |r| && 0 <= k < |r| && k != i && !c.entries[j].released && r[j].released && r[k].settled && !r[k].released
      ensures c.entries[j].lastUsed < c.entries[k].lastUsed
    {
      OlderThanKept(es, r, i, j, k);
    }
  }

  lemma OlderThanKept(es: seq<Entry>, r: seq<Entry>, i: int, j: int, k: int)
    requires 0 <= i < |es| && 0 <= j < |es| && 0 <= k < |es| && k != i && !es[i].released && Distinct(es)
    requires OnlyEvicts(es, r, Spare(es[i].kind, es[i].key)) && OldestFirst(es, r, Spare(es[i].kind, es[i].key))
    requires r[j] != es[j] && r[k].settled && !r[k].released
    ensures es[j].lastUsed < es[k].lastUsed
  {
    assert r[k] == es[k] && j != k;
    assert if j < k then Apart(es, j, k) else Apart(es, k, j);
    assert if i < k then Apart(es, i, k) else Apart(es, k, i);
  }
}
