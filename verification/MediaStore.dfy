/**
The media cache of lib/matrix/client.ts as the object keeps it: two maps from
keys to entries, an alias index and a running total.  Each operation is proved
to do to the plain entry list what MediaCache says, and to keep the maps, the
index and the total in step with it.
*/
module MediaStore {
  import opened Basics
  import opened MediaCache

  /** Entries are objects in the source; here a map's value is the entry's index in `entries`. */
  datatype Store = Store(media: map<int, int>, posters: map<int, int>, aliases: map<int, set<int>>, bytes: int, cache: Cache)

  function Shelf(s: Store, kind: Kind): map<int, int> { if kind.Asset? then s.media else s.posters }

  function Size(s: Store): int { |s.media| + |s.posters| }

  /* ---- Agreement with the entry list ---- */

  /** A map holds exactly the live entries of its kind. */
  ghost predicate ShelfOk(shelf: map<int, int>, kind: Kind, es: seq<Entry>) {
    && (forall k :: k in shelf ==> Current(es, shelf[k], kind, k))
    && (forall i :: Shelved(shelf, kind, es, i))
  }

  /** A live entry of this kind is found under its key. */
  predicate Shelved(shelf: map<int, int>, kind: Kind, es: seq<Entry>, i: int) {
    0 <= i < |es| && es[i].kind == kind && !es[i].released ==> es[i].key in shelf && shelf[es[i].key] == i
  }

  predicate Indexed(aliases: map<int, set<int>>, alias: int, key: int) { alias in aliases && key in aliases[alias] }

  /** The index lists a key under an alias exactly when the asset cached under the key has that alias. */
  predicate Inverse(aliases: map<int, set<int>>, media: map<int, int>, es: seq<Entry>, a: int, k: int) {
    Indexed(aliases, a, k) <==> k in media && 0 <= media[k] < |es| && es[media[k]].alias == a
  }

  /** The alias index is exactly the inverse of the cached assets' aliases, without empty sets. */
  ghost predicate AliasesOk(aliases: map<int, set<int>>, media: map<int, int>, es: seq<Entry>) {
    && (forall a, k :: Inverse(aliases, media, es, a, k))
    && (forall a :: a in aliases ==> aliases[a] != {})
  }

  ghost predicate Valid(s: Store) {
    && Consistent(s.cache)
    && ShelfOk(s.media, Asset, s.cache.entries)
    && ShelfOk(s.posters, Poster, s.cache.entries)
    && AliasesOk(s.aliases, s.media, s.cache.entries)
    && s.bytes == Total(s.cache.entries)
    && Size(s) == Count(s.cache.entries)
  }

  /* ---- The helpers ---- */

  function AddAlias(aliases: map<int, set<int>>, alias: int, key: int): map<int, set<int>> {
    aliases[alias := (if alias in aliases then aliases[alias] else {}) + {key}]
  }

  function RemoveAlias(aliases: map<int, set<int>>, alias: int, key: int): map<int, set<int>> {
    if alias !in aliases then aliases
    else if aliases[alias] - {key} == {} then aliases - {alias}
    else aliases[alias := aliases[alias] - {key}]
  }

  /** releaseMediaEntry and releasePosterEntry. */
  function Release(s: Store, i: int): Store
    requires 0 <= i < |s.cache.entries|
  {
    var e := s.cache.entries[i];
    if e.released then s
    else s.(bytes := if e.settled then Max0(s.bytes - e.byteLength) else s.bytes,
            cache := s.cache.(entries := Released(s.cache.entries, i)))
  }

  /** Delete an entry from its map and from the alias index, then release it. */
  function Drop(s: Store, kind: Kind, key: int): Store
    requires key in Shelf(s, kind) && 0 <= Shelf(s, kind)[key] < |s.cache.entries|
  {
    var i := Shelf(s, kind)[key];
    if kind.Asset?
    then Release(s.(media := s.media - {key}, aliases := RemoveAlias(s.aliases, s.cache.entries[i].alias, key)), i)
    else Release(s.(posters := s.posters - {key}), i)
  }

  function Insert(s: Store, kind: Kind, key: int, alias: int): Store {
    var i := |s.cache.entries|;
    var c := Cache(s.cache.entries + [Entry(kind, key, alias, 0, s.cache.clock + 1, false, false)], s.cache.clock + 1);
    if kind.Asset?
    then s.(media := s.media[key := i], aliases := AddAlias(s.aliases, alias, key), cache := c)
    else s.(posters := s.posters[key := i], cache := c)
  }

  /* ---- Each helper keeps the agreement ---- */

  lemma RemoveAliasKeeps(aliases: map<int, set<int>>, alias: int, key: int, a: int, k: int)
    ensures Indexed(RemoveAlias(aliases, alias, key), a, k) <==> Indexed(aliases, a, k) && !(a == alias && k == key)
  {
    if a == alias && Indexed(aliases, a, k) && k != key { assert k in aliases[alias] - {key}; }
  }

  lemma DropSize(shelf: map<int, int>, key: int)
    requires key in shelf
    ensures |shelf - {key}| == |shelf| - 1
  {
    assert (shelf - {key}).Keys == shelf.Keys - {key};
  }

  lemma DropShelf(shelf: map<int, int>, kind: Kind, es: seq<Entry>, key: int)
    requires ShelfOk(shelf, kind, es) && key in shelf
    ensures ShelfOk(shelf - {key}, kind, Released(es, shelf[key]))
  {
    forall i ensures Shelved(shelf - {key}, kind, Released(es, shelf[key]), i) { assert Shelved(shelf, kind, es, i); }
  }

  lemma DropOtherShelf(shelf: map<int, int>, kind: Kind, es: seq<Entry>, i: int)
    requires ShelfOk(shelf, kind, es) && 0 <= i < |es| && es[i].kind != kind
    ensures ShelfOk(shelf, kind, Released(es, i))
  {
    forall j ensures Shelved(shelf, kind, Released(es, i), j) { assert Shelved(shelf, kind, es, j); }
  }

  lemma DropAliases(aliases: map<int, set<int>>, media: map<int, int>, es: seq<Entry>, key: int)
    requires AliasesOk(aliases, media, es) && ShelfOk(media, Asset, es) && key in media
    ensures AliasesOk(RemoveAlias(aliases, es[media[key]].alias, key), media - {key}, Released(es, media[key]))
  {
    var alias := es[media[key]].alias;
    forall a, k ensures Inverse(RemoveAlias(aliases, alias, key), media - {key}, Released(es, media[key]), a, k) {
      assert Inverse(aliases, media, es, a, k);
      RemoveAliasKeeps(aliases, alias, key, a, k);
    }
  }

  lemma ReleaseElsewhereKeepsAliases(aliases: map<int, set<int>>, media: map<int, int>, es: seq<Entry>, i: int)
    requires AliasesOk(aliases, media, es) && 0 <= i < |es|
    ensures AliasesOk(aliases, media, Released(es, i))
  {
    forall a, k ensures Inverse(aliases, media, Released(es, i), a, k) { assert Inverse(aliases, media, es, a, k); }
  }

  lemma DropKeepsValid(s: Store, kind: Kind, key: int)
    requires Valid(s) && key in Shelf(s, kind)
    ensures Valid(Drop(s, kind, key))
    ensures Drop(s, kind, key).cache == Fail(s.cache, Shelf(s, kind)[key])
  {
    var i := Shelf(s, kind)[key];
    var es := s.cache.entries;
    Updated(es, i, es[i].(released := true));
    NoUnderflow(es, i);
    ReleasingKeepsConsistent(s.cache, Released(es, i));
    DropSize(Shelf(s, kind), key);
    DropShelf(Shelf(s, kind), kind, es, key);
    if kind.Asset? {
      DropOtherShelf(s.posters, Poster, es, i);
      DropAliases(s.aliases, s.media, es, key);
    } else {
      DropOtherShelf(s.media, Asset, es, i);
      ReleaseElsewhereKeepsAliases(s.aliases, s.media, es, i);
    }
  }

  lemma InsertShelf(shelf: map<int, int>, kind: Kind, es: seq<Entry>, e: Entry)
    requires ShelfOk(shelf, kind, es) && e.kind == kind && !e.released && e.key !in shelf
    ensures ShelfOk(shelf[e.key := |es|], kind, es + [e])
    ensures |shelf[e.key := |es|]| == |shelf| + 1
  {
    assert shelf[e.key := |es|].Keys == shelf.Keys + {e.key};
    var longer, entries := shelf[e.key := |es|], es + [e];
    forall i ensures Shelved(longer, kind, entries, i) { assert Shelved(shelf, kind, es, i); }
  }

  lemma InsertOtherShelf(shelf: map<int, int>, kind: Kind, es: seq<Entry>, e: Entry)
    requires ShelfOk(shelf, kind, es) && e.kind != kind
    ensures ShelfOk(shelf, kind, es + [e])
  {
    forall i ensures Shelved(shelf, kind, es + [e], i) { assert Shelved(shelf, kind, es, i); }
  }

  lemma InsertAliases(aliases: map<int, set<int>>, media: map<int, int>, es: seq<Entry>, e: Entry)
    requires AliasesOk(aliases, media, es) && ShelfOk(media, Asset, es) && e.key !in media
    ensures AliasesOk(AddAlias(aliases, e.alias, e.key), media[e.key := |es|], es + [e])
  {
    var after, longer, entries := AddAlias(aliases, e.alias, e.key), media[e.key := |es|], es + [e];
    forall a, k ensures Inverse(after, longer, entries, a, k) {
      assert Inverse(aliases, media, es, a, k);
      assert Indexed(after, a, k) <==> Indexed(aliases, a, k) || (a == e.alias && k == e.key);
    }
  }

  lemma InsertElsewhereKeepsAliases(aliases: map<int, set<int>>, media: map<int, int>, es: seq<Entry>, e: Entry)
    requires AliasesOk(aliases, media, es) && ShelfOk(media, Asset, es)
    ensures AliasesOk(aliases, media, es + [e])
  {
    forall a, k ensures Inverse(aliases, media, es + [e], a, k) { assert Inverse(aliases, media, es, a, k); }
  }

  lemma InsertKeepsValid(s: Store, kind: Kind, key: int, alias: int)
    requires Valid(s) && key !in Shelf(s, kind) && Size(s) < MAX_ENTRIES
    ensures Valid(Insert(s, kind, key, alias))
  {
    var es := s.cache.entries;
    var e := Entry(kind, key, alias, 0, s.cache.clock + 1, false, false);
    Appended(es, e);
    InsertShelf(Shelf(s, kind), kind, es, e);
    if kind.Asset? {
      InsertAliases(s.aliases, s.media, es, e);
      InsertOtherShelf(s.posters, Poster, es, e);
    } else {
      InsertElsewhereKeepsAliases(s.aliases, s.media, es, e);
      InsertOtherShelf(s.media, Asset, es, e);
    }
    assert Consistent(Cache(es + [e], s.cache.clock + 1)) by {
      forall i | 0 <= i < |es| && !es[i].released ensures es[i].kind != kind || es[i].key != key {
        assert Shelved(Shelf(s, kind), kind, es, i);
      }
      AppendKeepsShape(es, e, s.cache.clock);
    }
  }

  lemma UpdateKeepsShelf(shelf: map<int, int>, kind: Kind, es: seq<Entry>, i: int, e: Entry)
    requires ShelfOk(shelf, kind, es) && 0 <= i < |es|
    requires e.kind == es[i].kind && e.key == es[i].key && e.released == es[i].released
    ensures ShelfOk(shelf, kind, es[i := e])
  {
    var entries := es[i := e];
    forall j ensures Shelved(shelf, kind, entries, j) { assert Shelved(shelf, kind, es, j); }
  }

  lemma UpdateKeepsAliases(aliases: map<int, set<int>>, media: map<int, int>, es: seq<Entry>, i: int, e: Entry)
    requires AliasesOk(aliases, media, es) && 0 <= i < |es| && e.alias == es[i].alias
    ensures AliasesOk(aliases, media, es[i := e])
  {
    var entries := es[i := e];
    forall a, k ensures Inverse(aliases, media, entries, a, k) { assert Inverse(aliases, media, es, a, k); }
  }

  /* ---- Facts the loops need ---- */

  lemma OldestIs(es: seq<Entry>, p: Protected, i: int)
    requires Distinct(es)
    requires i == -1 || (0 <= i < |es| && Evictable(es[i], p))
    requires forall j :: 0 <= j < |es| && Evictable(es[j], p) ==> i >= 0 && es[i].lastUsed <= es[j].lastUsed
    ensures Oldest(es, p) == i
  {
    OldestIsOldest(es, p);
    var o := Oldest(es, p);
    if o >= 0 && i >= 0 && o != i {
      var apart := if o < i then Apart(es, o, i) else Apart(es, i, o);
    }
  }

  lemma {:induction false} NothingLeft(es: seq<Entry>)
    requires forall i :: 0 <= i < |es| ==> es[i].released
    ensures Total(es) == 0 && Count(es) == 0
  {
    if es != [] { NothingLeft(es[1..]); }
  }

  /** An entry becomes settled, and its bytes count if it is still cached. */
  function Weighed(s: Store, i: int, size: int): Store
    requires 0 <= i < |s.cache.entries|
  {
    var e := s.cache.entries[i];
    if e.released then s.(cache := s.cache.(entries := s.cache.entries[i := e.(settled := true)]))
    else s.(bytes := s.bytes + size, cache := s.cache.(entries := s.cache.entries[i := e.(settled := true, byteLength := size)]))
  }

  lemma WeighedIsValid(s: Store, i: int, size: int)
    requires Valid(s) && 0 <= i < |s.cache.entries| && !s.cache.entries[i].settled && size >= 0
    ensures Valid(Weighed(s, i, size))
    ensures var e := s.cache.entries[i]; !e.released <==> e.key in Shelf(s, e.kind) && Shelf(s, e.kind)[e.key] == i
  {
    var e := s.cache.entries[i];
    var f := if e.released then e.(settled := true) else e.(settled := true, byteLength := size);
    Updated(s.cache.entries, i, f);
    UpdateKeepsShelf(s.media, Asset, s.cache.entries, i, f);
    UpdateKeepsShelf(s.posters, Poster, s.cache.entries, i, f);
    UpdateKeepsAliases(s.aliases, s.media, s.cache.entries, i, f);
    SettledShape(s.cache.entries, i, f, s.cache.clock);
    assert Shelved(Shelf(s, e.kind), e.kind, s.cache.entries, i);
  }

  /** Scanning both maps covers every entry that could be evicted. */
  lemma ScansCover(s: Store, p: Protected, i: int)
    requires Valid(s) && (i == -1 || (0 <= i < |s.cache.entries| && Evictable(s.cache.entries[i], p)))
    requires Least(s.cache.entries, s.media, p, i) && Least(s.cache.entries, s.posters, p, i)
    ensures Oldest(s.cache.entries, p) == i
  {
    var es := s.cache.entries;
    forall j | 0 <= j < |es| && Evictable(es[j], p) ensures i >= 0 && es[i].lastUsed <= es[j].lastUsed {
      assert Shelved(Shelf(s, es[j].kind), es[j].kind, es, j);
    }
    OldestIs(es, p, i);
  }

  /** No evictable entry of this map was used before entry `i`. */
  ghost predicate Least(es: seq<Entry>, shelf: map<int, int>, p: Protected, i: int) {
    forall k :: k in shelf && 0 <= shelf[k] < |es| && Evictable(es[shelf[k]], p) ==>
      0 <= i < |es| && es[i].lastUsed <= es[shelf[k]].lastUsed
  }

  /** Making room caches nothing. */
  lemma StillMissing(s: Store, t: Store, kind: Kind, key: int)
    requires Valid(s) && Valid(t) && t.cache.entries == MadeRoom(s.cache.entries)
    requires key !in Shelf(s, kind)
    ensures key !in Shelf(t, kind)
  {
    MadeRoomEvicts(s.cache.entries);
    forall i | 0 <= i < |t.cache.entries| ensures !Current(t.cache.entries, i, kind, key) {
      assert Shelved(Shelf(s, kind), kind, s.cache.entries, i);
    }
  }

  /** Making room and then inserting is what Open says. */
  lemma OpenedIs(s: Store, t: Store, kind: Kind, key: int, alias: int)
    requires t.cache.entries == MadeRoom(s.cache.entries) && t.cache.clock == s.cache.clock
    ensures Open(s.cache, kind, key, alias) == if Count(t.cache.entries) >= MAX_ENTRIES then t.cache else Insert(t, kind, key, alias).cache
    ensures key in Shelf(Insert(t, kind, key, alias), kind)
  {
  }

  ghost predicate InRange(shelf: map<int, int>, es: seq<Entry>) { forall k :: k in shelf ==> 0 <= shelf[k] < |es| }

  ghost predicate MayRelease(a: seq<Entry>, b: seq<Entry>) {
    |a| == |b| && forall j :: 0 <= j < |a| ==> b[j] == a[j] || b[j] == a[j].(released := true)
  }

  ghost predicate ShelfReleased(shelf: map<int, int>, es: seq<Entry>) {
    forall k :: k in shelf ==> 0 <= shelf[k] < |es| && es[shelf[k]].released
  }

  /** Everything in both maps is released, and nothing else changes. */
  lemma AllGone(s: Store, es: seq<Entry>)
    requires Valid(s) && MayRelease(s.cache.entries, es) && ShelfReleased(s.media, es) && ShelfReleased(s.posters, es)
    ensures es == AllReleased(s.cache.entries)
    ensures Valid(Store(map[], map[], map[], 0, s.cache.(entries := es)))
  {
    forall j | 0 <= j < |es| ensures es[j] == s.cache.entries[j].(released := true) {
      var e := s.cache.entries[j];
      assert Shelved(Shelf(s, e.kind), e.kind, s.cache.entries, j);
    }
    ReleasingKeepsConsistent(s.cache, es);
    NothingLeft(es);
  }

  ghost predicate NoAlias(s: Store, alias: int) {
    && (forall k :: k in s.media && 0 <= s.media[k] < |s.cache.entries| ==> s.cache.entries[s.media[k]].alias != alias)
    && (forall k :: k in s.posters && 0 <= s.posters[k] < |s.cache.entries| ==> s.cache.entries[s.posters[k]].alias != alias)
    && alias !in s.aliases
  }

  /** Everything of this kind that is cached under the alias has one of these keys. */
  ghost predicate AliasWithin(s: Store, kind: Kind, alias: int, keys: set<int>) {
    forall j ::
      (0 <= j < |s.cache.entries| && !s.cache.entries[j].released && s.cache.entries[j].kind == kind
       && s.cache.entries[j].alias == alias) ==> s.cache.entries[j].key in keys
  }

  ghost predicate MayLoseAlias(a: seq<Entry>, b: seq<Entry>, kind: Kind, alias: int) {
    |a| == |b| && forall j :: 0 <= j < |a| ==>
      b[j] == a[j] || (a[j].kind == kind && a[j].alias == alias && b[j] == a[j].(released := true))
  }

  ghost predicate LosesAlias(a: seq<Entry>, b: seq<Entry>, kind: Kind, alias: int) {
    |a| == |b| && forall j :: 0 <= j < |a| ==>
      b[j] == if a[j].kind == kind && a[j].alias == alias then a[j].(released := true) else a[j]
  }

  /** Dropping what is cached under one key leaves one key fewer to look at. */
  lemma DropNarrows(s: Store, kind: Kind, alias: int, keys: set<int>, key: int)
    requires Valid(s) && AliasWithin(s, kind, alias, keys)
    ensures var es := s.cache.entries;
      var shelf := Shelf(s, kind);
      if key in shelf && es[shelf[key]].alias == alias
      then AliasWithin(Drop(s, kind, key), kind, alias, keys - {key}) && MayLoseAlias(es, Drop(s, kind, key).cache.entries, kind, alias)
      else AliasWithin(s, kind, alias, keys - {key})
  {
    var es := s.cache.entries;
    forall j | 0 <= j < |es| && !es[j].released && es[j].kind == kind && es[j].alias == alias
      ensures es[j].key in keys && es[j].key in Shelf(s, kind) && Shelf(s, kind)[es[j].key] == j
    {
      assert Shelved(Shelf(s, kind), kind, es, j);
    }
  }

  lemma MayLoseTwice(a: seq<Entry>, b: seq<Entry>, c: seq<Entry>, kind: Kind, alias: int)
    requires MayLoseAlias(a, b, kind, alias) && MayLoseAlias(b, c, kind, alias)
    ensures MayLoseAlias(a, c, kind, alias)
  {
  }

  lemma IndexFindsAlias(s: Store, alias: int)
    requires Valid(s)
    ensures AliasWithin(s, Asset, alias, if alias in s.aliases then s.aliases[alias] else {})
    ensures AliasWithin(s, Poster, alias, s.posters.Keys)
  {
    var es := s.cache.entries;
    forall j | 0 <= j < |es| && !es[j].released && es[j].kind == Asset && es[j].alias == alias
      ensures Indexed(s.aliases, alias, es[j].key)
    {
      assert Shelved(s.media, Asset, es, j) && Inverse(s.aliases, s.media, es, alias, es[j].key);
    }
    forall j | 0 <= j < |es| && !es[j].released && es[j].kind == Poster ensures es[j].key in s.posters {
      assert Shelved(s.posters, Poster, es, j);
    }
  }

  lemma BothKindsLost(a: seq<Entry>, b: seq<Entry>, c: seq<Entry>, alias: int)
    requires LosesAlias(a, b, Asset, alias) && LosesAlias(b, c, Poster, alias)
    ensures c == WithoutAlias(a, alias)
  {
    forall j | 0 <= j < |a| ensures c[j] == WithoutAlias(a, alias)[j] {
      if a[j].kind.Asset? { assert b[j].kind.Asset?; } else { assert b[j] == a[j]; }
    }
  }

  /** An alias with no live entry is gone from the maps and from the index. */
  lemma AliasGone(s: Store, alias: int)
    requires Valid(s)
    requires forall j :: 0 <= j < |s.cache.entries| && s.cache.entries[j].alias == alias ==> s.cache.entries[j].released
    ensures NoAlias(s, alias)
  {
    if alias in s.aliases {
      HasAKey(s.aliases[alias]);
      var k: int :| k in s.aliases[alias];
      var listed := Inverse(s.aliases, s.media, s.cache.entries, alias, k);
      assert false;
    }
  }

  lemma HasAKey(keys: set<int>)
    requires keys != {}
    ensures exists k: int :: k in keys
  {
    if forall k: int :: k !in keys { NoKey(keys); }
  }

  lemma NoKey(keys: set<int>)
    requires forall k: int :: k !in keys
    ensures keys == {}
  {
    var none: set<int> := {};
    assert forall k: int :: k in keys <==> k in none;
  }

  method AnyOf(keys: set<int>) returns (k: int)
    requires keys != {}
    ensures k in keys
  {
    HasAKey(keys);
    k :| k in keys;
  }

  /* ---- The object ---- */

  class MediaCacheObject {
    var mediaAssets: map<int, int>
    var gifPosters: map<int, int>
    var mediaAliases: map<int, set<int>>
    var mediaCacheBytes: int
    var mediaCacheClock: int
    var entries: seq<Entry>

    function View(): Store
      reads this
    {
      Store(mediaAssets, gifPosters, mediaAliases, mediaCacheBytes, Cache(entries, mediaCacheClock))
    }

    constructor ()
      ensures View() == Store(map[], map[], map[], 0, Cache([], 0)) && Valid(View())
    {
      mediaAssets, gifPosters, mediaAliases := map[], map[], map[];
      mediaCacheBytes, mediaCacheClock, entries := 0, 0, [];
    }

    method RemoveMediaAlias(alias: int, key: int)
      modifies `mediaAliases
      ensures mediaAliases == RemoveAlias(old(mediaAliases), alias, key)
    {
      if alias !in mediaAliases { return; }
      var keys := mediaAliases[alias] - {key};
      if keys == {} { mediaAliases := mediaAliases - {alias}; } else { mediaAliases := mediaAliases[alias := keys]; }
    }

    method ReleaseEntry(i: int)
      requires 0 <= i < |entries|
      modifies `entries, `mediaCacheBytes
      ensures View() == Release(old(View()), i)
    {
      if entries[i].released { return; }
      if entries[i].settled { mediaCacheBytes := Max0(mediaCacheBytes - entries[i].byteLength); }
      entries := entries[i := entries[i].(released := true)];
    }

    method DropEntry(kind: Kind, key: int)
      requires Valid(View()) && key in Shelf(View(), kind)
      modifies this
      ensures Valid(View()) && View() == Drop(old(View()), kind, key)
      ensures View().cache == Fail(old(View()).cache, Shelf(old(View()), kind)[key])
    {
      ghost var before := View();
      var i := Shelf(View(), kind)[key];
      if kind.Asset? {
        mediaAssets := mediaAssets - {key};
        RemoveMediaAlias(entries[i].alias, key);
      } else {
        gifPosters := gifPosters - {key};
      }
      ReleaseEntry(i);
      DropKeepsValid(before, kind, key);
      assert View() == Drop(before, kind, key);
    }

    method TouchCacheEntry(kind: Kind, key: int)
      requires Valid(View()) && key in Shelf(View(), kind)
      modifies `entries, `mediaCacheClock
      ensures Valid(View()) && View().cache == Touch(old(View()).cache, Shelf(old(View()), kind)[key])
    {
      var i := Shelf(View(), kind)[key];
      TouchKeepsConsistent(View().cache, i);
      var e := entries[i].(lastUsed := mediaCacheClock + 1);
      Updated(entries, i, e);
      UpdateKeepsShelf(mediaAssets, Asset, entries, i, e);
      UpdateKeepsShelf(gifPosters, Poster, entries, i, e);
      UpdateKeepsAliases(mediaAliases, mediaAssets, entries, i, e);
      mediaCacheClock := mediaCacheClock + 1;
      entries := entries[i := entries[i].(lastUsed := mediaCacheClock)];
    }

    /** One of the two scans for the entry used longest ago. */
    method Scan(kind: Kind, p: Protected, from: int) returns (candidate: int)
      requires Valid(View())
      requires from == -1 || (0 <= from < |entries| && Evictable(entries[from], p))
      ensures candidate == -1 || (0 <= candidate < |entries| && Evictable(entries[candidate], p))
      ensures from >= 0 ==> candidate >= 0 && entries[candidate].lastUsed <= entries[from].lastUsed
      ensures Least(entries, Shelf(View(), kind), p, candidate)
    {
      var shelf := Shelf(View(), kind);
      var keys := shelf.Keys;
      candidate := from;
      while keys != {}
        invariant keys <= shelf.Keys
        invariant candidate == -1 || (0 <= candidate < |entries| && Evictable(entries[candidate], p))
        invariant from >= 0 ==> candidate >= 0 && entries[candidate].lastUsed <= entries[from].lastUsed
        invariant forall k :: k in shelf && k !in keys && Evictable(entries[shelf[k]], p) ==>
          candidate >= 0 && entries[candidate].lastUsed <= entries[shelf[k]].lastUsed
        decreases |keys|
      {
        var key := AnyOf(keys);
        keys := keys - {key};
        var entry := entries[shelf[key]];
        if entry.settled && !entry.released && p != Spare(kind, key)
           && (candidate == -1 || entry.lastUsed < entries[candidate].lastUsed) {
          candidate := shelf[key];
        }
      }
    }

    method EvictOldestSettledEntry(p: Protected) returns (evicted: bool)
      requires Valid(View())
      modifies this
      ensures Valid(View()) && mediaCacheClock == old(mediaCacheClock)
      ensures evicted <==> Oldest(old(entries), p) >= 0
      ensures entries == if evicted then Released(old(entries), Oldest(old(entries), p)) else old(entries)
    {
      var candidate := Scan(Asset, p, -1);
      candidate := Scan(Poster, p, candidate);
      ScansCover(View(), p, candidate);
      if candidate == -1 { return false; }
      assert Shelved(Shelf(View(), entries[candidate].kind), entries[candidate].kind, entries, candidate);
      DropEntry(entries[candidate].kind, entries[candidate].key);
      return true;
    }

    method EnsureMediaCacheSlot() returns (ok: bool)
      requires Valid(View())
      modifies this
      ensures Valid(View()) && mediaCacheClock == old(mediaCacheClock)
      ensures entries == MadeRoom(old(entries)) && (ok <==> Count(entries) < MAX_ENTRIES)
    {
      while |mediaAssets| + |gifPosters| >= MAX_ENTRIES
        invariant Valid(View()) && mediaCacheClock == old(mediaCacheClock)
        invariant MadeRoom(entries) == MadeRoom(old(entries))
        decreases Count(entries)
      {
        ghost var before := entries;
        var evicted := EvictOldestSettledEntry(Nothing);
        if !evicted { return false; }
        Updated(before, Oldest(before, Nothing), before[Oldest(before, Nothing)].(released := true));
      }
      return true;
    }

    method EvictMediaCache(p: Protected)
      requires Valid(View())
      modifies this
      ensures Valid(View()) && mediaCacheClock == old(mediaCacheClock)
      ensures entries == Trimmed(old(entries), p)
    {
      while mediaCacheBytes > MAX_BYTES || |mediaAssets| + |gifPosters| > MAX_ENTRIES
        invariant Valid(View()) && mediaCacheClock == old(mediaCacheClock)
        invariant Trimmed(entries, p) == Trimmed(old(entries), p)
        decreases Count(entries)
      {
        ghost var before := entries;
        var evicted := EvictOldestSettledEntry(p);
        if !evicted { break; }
        Updated(before, Oldest(before, p), before[Oldest(before, p)].(released := true));
      }
    }

    method AddEntry(kind: Kind, key: int, alias: int)
      modifies this
      ensures View() == Insert(old(View()), kind, key, alias)
    {
      mediaCacheClock := mediaCacheClock + 1;
      var i := |entries|;
      entries := entries + [Entry(kind, key, alias, 0, mediaCacheClock, false, false)];
      if kind.Asset? {
        mediaAssets := mediaAssets[key := i];
        var keys := if alias in mediaAliases then mediaAliases[alias] else {};
        mediaAliases := mediaAliases[alias := keys + {key}];
      } else {
        gifPosters := gifPosters[key := i];
      }
    }

    method InsertEntry(kind: Kind, key: int, alias: int)
      requires Valid(View()) && key !in Shelf(View(), kind) && Size(View()) < MAX_ENTRIES
      modifies this
      ensures Valid(View()) && View() == Insert(old(View()), kind, key, alias)
    {
      InsertKeepsValid(View(), kind, key, alias);
      AddEntry(kind, key, alias);
    }

    /** A key found missing is loaded, unless no slot can be made for it. */
    method OpenEntry(kind: Kind, key: int, alias: int) returns (slot: bool)
      requires Valid(View()) && key !in Shelf(View(), kind)
      modifies this
      ensures Valid(View()) && View().cache == Open(old(View()).cache, kind, key, alias)
      ensures slot <==> key in Shelf(View(), kind)
    {
      ghost var before := View();
      slot := EnsureMediaCacheSlot();
      StillMissing(before, View(), kind, key);
      OpenedIs(before, View(), kind, key, alias);
      if slot { InsertEntry(kind, key, alias); }
    }

    /** The load succeeded and was not invalidated. */
    method SettleEntry(i: int, size: int)
      requires Valid(View()) && 0 <= i < |entries| && !entries[i].settled && size >= 0
      modifies this
      ensures Valid(View()) && View().cache == Settle(old(View()).cache, i, size)
      ensures size <= MAX_BYTES && old(mediaCacheBytes) <= MAX_BYTES ==> mediaCacheBytes <= MAX_BYTES
    {
      ghost var before := View();
      WeighedIsValid(before, i, size);
      var entry := entries[i];
      var shelf := Shelf(View(), entry.kind);
      entries := entries[i := entry.(settled := true)];
      if entry.key in shelf && shelf[entry.key] == i && !entry.released {
        entries := entries[i := entries[i].(byteLength := size)];
        mediaCacheBytes := mediaCacheBytes + size;
        assert View() == Weighed(before, i, size);
        EvictMediaCache(Spare(entry.kind, entry.key));
      } else {
        assert View() == Weighed(before, i, size);
      }
      SettleKeepsConsistent(before.cache, i, size);
    }

    /** The load failed, or the request was invalidated while it ran. */
    method FailEntry(i: int)
      requires Valid(View()) && 0 <= i < |entries| && !entries[i].settled
      modifies this
      ensures Valid(View()) && View().cache == Fail(old(View()).cache, i)
    {
      var shelf := Shelf(View(), entries[i].kind);
      assert Shelved(shelf, entries[i].kind, entries, i);
      if entries[i].key in shelf && shelf[entries[i].key] == i {
        DropEntry(entries[i].kind, entries[i].key);
      } else {
        ReleaseEntry(i);
      }
    }

    /** Drop what is cached under these keys with this alias; whatever else is cached stays. */
    method DropWithAlias(kind: Kind, alias: int, candidates: set<int>)
      requires Valid(View()) && AliasWithin(View(), kind, alias, candidates)
      modifies this
      ensures Valid(View()) && mediaCacheClock == old(mediaCacheClock)
      ensures LosesAlias(old(entries), entries, kind, alias)
    {
      var keys := candidates;
      while keys != {}
        invariant Valid(View()) && mediaCacheClock == old(mediaCacheClock)
        invariant MayLoseAlias(old(entries), entries, kind, alias)
        invariant AliasWithin(View(), kind, alias, keys)
        decreases |keys|
      {
        var key := AnyOf(keys);
        DropNarrows(View(), kind, alias, keys, key);
        ghost var before := entries;
        keys := keys - {key};
        var shelf := Shelf(View(), kind);
        if key in shelf && entries[shelf[key]].alias == alias {
          DropEntry(kind, key);
          MayLoseTwice(old(entries), before, entries, kind, alias);
        }
      }
    }

    method InvalidateMedia(alias: int)
      requires Valid(View())
      modifies this
      ensures Valid(View()) && View().cache == old(View()).cache.(entries := WithoutAlias(old(entries), alias))
      ensures NoAlias(View(), alias)
    {
      ghost var before := entries;
      var keys := if alias in mediaAliases then mediaAliases[alias] else {};
      IndexFindsAlias(View(), alias);
      DropWithAlias(Asset, alias, keys);
      ghost var between := entries;
      IndexFindsAlias(View(), alias);
      DropWithAlias(Poster, alias, gifPosters.Keys);
      BothKindsLost(before, between, entries, alias);
      AliasGone(View(), alias);
    }

    method ReleaseShelf(shelf: map<int, int>)
      requires InRange(shelf, entries)
      modifies `entries, `mediaCacheBytes
      ensures MayRelease(old(entries), entries) && ShelfReleased(shelf, entries)
    {
      var keys := shelf.Keys;
      while keys != {}
        invariant keys <= shelf.Keys && |entries| == old(|entries|)
        invariant forall j :: 0 <= j < |entries| ==> entries[j] == old(entries[j]) || entries[j] == old(entries[j]).(released := true)
        invariant forall k :: k in shelf && k !in keys ==> entries[shelf[k]].released
        decreases |keys|
      {
        var key := AnyOf(keys);
        keys := keys - {key};
        ReleaseEntry(shelf[key]);
      }
    }

    method ReleaseShelves()
      requires InRange(mediaAssets, entries) && InRange(gifPosters, entries)
      modifies `entries, `mediaCacheBytes
      ensures MayRelease(old(entries), entries) && ShelfReleased(mediaAssets, entries) && ShelfReleased(gifPosters, entries)
    {
      ghost var before := entries;
      ReleaseShelf(mediaAssets);
      ghost var between := entries;
      ReleaseShelf(gifPosters);
    }

    method ReleaseMediaAssets()
      requires Valid(View())
      modifies this
      ensures Valid(View()) && View() == Store(map[], map[], map[], 0, old(View()).cache.(entries := AllReleased(old(entries))))
    {
      ghost var before := View();
      ReleaseShelves();
      AllGone(before, entries);
      mediaAssets, gifPosters, mediaAliases := map[], map[], map[];
      mediaCacheBytes := 0;
    }
  }
}
