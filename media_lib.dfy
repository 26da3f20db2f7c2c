/**
 * DefaultMediaLib's composition of the parts: getItem over the identity
 * cache and the dispatch, the listing of the library root, and the
 * last-played item shown first in that listing.
 */
module MediaLib {
  import opened Wrappers
  import opened ItemCache
  import opened Resolver

  /**
   * getItem(CharSequence): look the id up in the cache (which drains the
   * reference queue and evicts a cleared entry) and dispatch only on a miss.
   */
  method GetItem(cache: Cache, id: string) returns (r: Resolution<Item>)
    requires cache.Valid()
    modifies cache
    ensures cache.Valid() && cache.queue == []
    ensures var m := Purge(old(cache.entries), old(cache.queue));
      if id in m && m[id].referent.Some?
      then r == Hit(m[id].referent.value) && cache.entries == m
      else r == Resolve(id, None) && cache.entries == m - {id}
    ensures r.Hit? ==> r.item.id == id
  {
    var cached := cache.Get(id);
    r := Resolve(id, cached);
  }

  /** The values of the present elements of `s`, in order. */
  function Present<T>(s: seq<Option<T>>): (r: seq<T>)
    ensures |r| <= |s|
    ensures forall i :: 0 <= i < |r| ==> Some(r[i]) in s
    ensures forall i :: 0 <= i < |s| && s[i].Some? ==> s[i].value in r
  {
    if s == [] then []
    else
      assert s == [s[0]] + s[1..];
      (if s[0].Some? then [s[0].value] else []) + Present(s[1..])
  }

  /** Keeping the present elements distributes over concatenation: order is kept by position. */
  lemma {:induction false} PresentAppend<T>(a: seq<Option<T>>, b: seq<Option<T>>)
    ensures Present(a + b) == Present(a) + Present(b)
    decreases |a|
  {
    if a == [] {
      assert a + b == b;
    } else {
      var h := if a[0].Some? then [a[0].value] else [];
      assert (a + b)[0] == a[0];
      assert (a + b)[1..] == a[1..] + b;
      PresentAppend(a[1..], b);
      calc {
        Present(a + b);
        h + Present(a[1..] + b);
        h + (Present(a[1..]) + Present(b));
        (h + Present(a[1..])) + Present(b);
        Present(a) + Present(b);
      }
    }
  }

  /** Present over four positions is the concatenation of the four positions' lists. */
  lemma PresentByPosition<T>(a: Option<T>, b: Option<T>, c: Option<T>, d: Option<T>)
    ensures Present([a, b, c, d]) == AsList(a) + AsList(b) + AsList(c) + AsList(d)
  {
    assert [a, b, c, d] == [a] + [b] + [c] + [d];
    PresentAppend([a] + [b] + [c], [d]);
    PresentAppend([a] + [b], [c]);
    PresentAppend([a], [b]);
    PresentOne(a);
    PresentOne(b);
    PresentOne(c);
    PresentOne(d);
  }

  lemma PresentOne<T>(o: Option<T>)
    ensures Present([o]) == AsList(o)
  {
    assert [o][1..] == [];
  }

  /** The singleton list of a present value, or the empty list. */
  function AsList<T>(o: Option<T>): (r: seq<T>)
    ensures o.Some? ==> r == [o.value]
    ensures o.None? ==> r == []
  {
    if o.Some? then [o.value] else []
  }

  /**
   * The root branch of getChildren: the non-null results of the last-played
   * item and the Folders, Favorites and Playlists projections, in that order
   * whatever order the futures completed in.
   */
  function RootChildren<T>(lastPlayed: Option<T>, folders: Option<T>, favorites: Option<T>, playlists: Option<T>): (r: seq<T>)
    ensures r == AsList(lastPlayed) + AsList(folders) + AsList(favorites) + AsList(playlists)
  {
    var s := [lastPlayed, folders, favorites, playlists];
    PresentByPosition(lastPlayed, folders, favorites, playlists);
    Present(s)
  }

  /** With all four present, the root lists exactly [last played, Folders, Favorites, Playlists]. */
  lemma RootChildrenComplete<T>(a: T, b: T, c: T, d: T)
    ensures RootChildren(Some(a), Some(b), Some(c), Some(d)) == [a, b, c, d]
  {
  }

  /** Without a last-played item the root lists just the three containers. */
  lemma RootChildrenWithoutLastPlayed<T>(b: T, c: T, d: T)
    ensures RootChildren(None, Some(b), Some(c), Some(d)) == [b, c, d]
  {
  }

  /** What the id stored as last played resolved to. */
  datatype Found<T> =
    | NotFound
    | Playable(item: T)                     // a PlayableItem (checked first)
    | Browsable(firstPlayable: Option<T>)   // a BrowsableItem that is not playable, with its getFirstPlayable()
    | Other

  /**
   * getLastPlayedItem: no memo means no item; a playable item is returned
   * itself, a browsable one is replaced by its first playable descendant.
   */
  function LastPlayedItem<T>(pref: Option<string>, found: Found<T>): (r: Option<T>)
    ensures pref.None? ==> r.None?
    ensures r.Some? ==> found == Playable(r.value) || found == Browsable(r)
    ensures pref.Some? && found.Playable? ==> r == Some(found.item)
    ensures pref.Some? && found.Browsable? ==> r == found.firstPlayable
  {
    if pref.None? then None
    else
      match found
      case Playable(item) => Some(item)
      case Browsable(first) => first
      case _ => None
  }

  /** The last-played item, when there is one, leads the root listing, ahead of the containers. */
  lemma LastPlayedLeadsRootListing<T>(pref: Option<string>, found: Found<T>, b: T, c: T, d: T)
    ensures var last := LastPlayedItem(pref, found);
      RootChildren(last, Some(b), Some(c), Some(d)) == (if last.Some? then [last.value] else []) + [b, c, d]
    ensures pref.None? ==> RootChildren(LastPlayedItem(pref, found), Some(b), Some(c), Some(d)) == [b, c, d]
  {
  }

  /** Interning: once an item is added to any cache, getItem on its id returns that same item. */
  method AddThenGet(cache: Cache, i: Item) returns (r: Resolution<Item>)
    requires cache.Valid()
    modifies cache
    ensures cache.Valid()
    ensures r == Hit(i)
  {
    var ok := cache.Add(i, false);
    r := GetItem(cache, i.id);
  }

  /**
   * Eviction: once the collector has cleared and queued an item's reference,
   * its id misses (and is dispatched afresh), and a new item can be added
   * under it even in a debug build.
   */
  method CollectThenGet(cache: Cache, i: Item) returns (r: Resolution<Item>, readded: bool)
    requires cache.Valid()
    modifies cache
    ensures cache.Valid()
    ensures r == Resolve(i.id, None) && readded
  {
    var ok := cache.Add(i, false);
    var ref := cache.entries[i.id];
    cache.Collect(ref);
    cache.Enqueue(ref);
    assert cache.queue == [ref];
    assert Purge(cache.entries, cache.queue) == Unlink(cache.entries, ref);
    r := GetItem(cache, i.id);
    readded := cache.Add(i, true);
  }

  /** A cleared entry the collector has not yet queued is evicted by the lookup that finds it. */
  method CollectedUnqueuedIsEvicted(cache: Cache, i: Item) returns (r: Option<Item>, left: bool)
    requires cache.Valid()
    modifies cache
    ensures cache.Valid()
    ensures r == None && !left
  {
    var ok := cache.Add(i, false);
    cache.Collect(cache.entries[i.id]);
    r := cache.Get(i.id);
    left := i.id in cache.entries;
  }

  /**
   * The debug check and the release overwrite: a second live item under an
   * id already holding a live item is refused in a debug build and replaces
   * the first otherwise; removing the replaced item then leaves the newer
   * entry alone.
   */
  method DuplicateAdd(cache: Cache, a: Item, b: Item) returns (debugOk: bool, r: Option<Item>)
    requires cache.Valid()
    requires a.id == b.id && a != b
    modifies cache
    ensures cache.Valid()
    ensures !debugOk && r == Some(b)
  {
    var ok := cache.Add(a, false);
    debugOk := cache.Add(b, true);
    ok := cache.Add(b, false);
    cache.Remove(a);
    r := cache.Get(a.id);
  }
}
