/**
 * The identity cache of DefaultMediaLib: a map from item id to a weak
 * reference to the live item, plus the reference queue the garbage collector
 * posts cleared references to.  Every cache operation first drains that
 * queue.  The collector itself is modelled by two explicit steps, Collect
 * (the referent is cleared) and Enqueue (the cleared reference is posted).
 */
module ItemCache {
  import opened Wrappers

  /** A media item; the cache only depends on its identity and its id. */
  class Item {
    const id: string

    constructor (id: string)
      ensures this.id == id
    {
      this.id := id;
    }
  }

  /** A weak reference to an item, tagged with the key it was stored under. */
  class WeakRef {
    const key: string
    var referent: Option<Item>

    constructor (key: string, item: Item)
      ensures this.key == key && referent == Some(item)
    {
      this.key := key;
      referent := Some(item);
    }
  }

  /** Every entry is stored under its own key. */
  ghost predicate KeysMatch(m: map<string, WeakRef>)
  {
    forall k :: k in m ==> m[k].key == k
  }

  /** One step of the drain: a polled reference removes its key only while the map still holds that very reference. */
  function Unlink(m: map<string, WeakRef>, r: WeakRef): (m': map<string, WeakRef>)
    ensures forall k :: k in m' ==> k in m && m'[k] == m[k]
    ensures forall k :: k in m && k !in m' ==> k == r.key && m[k] == r
    ensures r.key in m' ==> m'[r.key] != r
  {
    if r.key in m && m[r.key] == r then m - {r.key} else m
  }

  /** The map after polling every reference of the queue `q`, in order. */
  function Purge(m: map<string, WeakRef>, q: seq<WeakRef>): (m': map<string, WeakRef>)
    ensures forall k :: k in m' ==> k in m && m'[k] == m[k]
    ensures forall k :: k in m && k !in m' ==> m[k] in q
    decreases |q|
  {
    if q == [] then m else Purge(Unlink(m, q[0]), q[1..])
  }

  /**
   * A drain removes exactly the entries whose reference is queued and
   * changes no other entry, whatever the order of the queue.
   */
  lemma {:induction false} PurgeExact(m: map<string, WeakRef>, q: seq<WeakRef>)
    requires KeysMatch(m)
    ensures Purge(m, q) == map k | k in m && m[k] !in q :: m[k]
    decreases |q|
  {
    if q != [] {
      var m' := Unlink(m, q[0]);
      PurgeExact(m', q[1..]);
      assert q == [q[0]] + q[1..];
    }
  }

  /** Draining twice with the same queue removes nothing more. */
  lemma PurgeIdempotent(m: map<string, WeakRef>, q: seq<WeakRef>)
    requires KeysMatch(m)
    ensures Purge(Purge(m, q), q) == Purge(m, q)
  {
    PurgeExact(m, q);
    PurgeExact(Purge(m, q), q);
  }

  /** When every queued reference is cleared, a drain keeps every entry whose item is still live. */
  lemma PurgeKeepsLive(m: map<string, WeakRef>, q: seq<WeakRef>, k: string)
    requires KeysMatch(m)
    requires forall i :: 0 <= i < |q| ==> q[i].referent.None?
    requires k in m && m[k].referent.Some?
    ensures k in Purge(m, q) && Purge(m, q)[k] == m[k]
  {
    PurgeExact(m, q);
  }

  /** The pair `itemCache` / `itemRefQueue` of DefaultMediaLib. */
  class Cache {
    var entries: map<string, WeakRef>
    var queue: seq<WeakRef>

    /**
     * Every entry is stored under the id of the item it refers to, and the
     * collector only ever queues references it has cleared.
     */
    ghost predicate Valid()
      reads this, entries.Values, queue
    {
      && KeysMatch(entries)
      && (forall k :: k in entries && entries[k].referent.Some? ==> entries[k].referent.value.id == k)
      && (forall i :: 0 <= i < |queue| ==> queue[i].referent.None?)
    }

    constructor ()
      ensures Valid() && entries == map[] && queue == []
    {
      entries := map[];
      queue := [];
    }

    /** clearRefs: poll the queue until it is empty, unlinking each polled reference. */
    method Drain()
      requires Valid()
      modifies this
      ensures Valid()
      ensures queue == [] && entries == Purge(old(entries), old(queue))
    {
      while queue != []
        invariant Valid()
        invariant Purge(entries, queue) == Purge(old(entries), old(queue))
        decreases |queue|
      {
        var r := queue[0];
        queue := queue[1..];
        if r.key in entries && entries[r.key] == r {
          entries := entries - {r.key};
        }
      }
    }

    /**
     * addToCache: drain, then map the item's id to a fresh reference to it.
     * With `debug` set (BuildConfig.DEBUG) an id that is still mapped is an
     * assertion failure, reported as `ok == false` with nothing stored;
     * otherwise an existing entry is overwritten.
     */
    method Add(i: Item, debug: bool) returns (ok: bool)
      requires Valid()
      modifies this
      ensures Valid() && queue == []
      ensures ok <==> !(debug && i.id in Purge(old(entries), old(queue)))
      ensures !ok ==> entries == Purge(old(entries), old(queue))
      ensures ok ==> && i.id in entries && fresh(entries[i.id])
                     && entries[i.id].key == i.id && entries[i.id].referent == Some(i)
                     && entries == Purge(old(entries), old(queue))[i.id := entries[i.id]]
    {
      Drain();
      if debug && i.id in entries {
        return false;
      }
      var r := new WeakRef(i.id, i);
      entries := entries[i.id := r];
      ok := true;
    }

    /**
     * removeFromCache: drain; then, for a non-null item, delete the entry
     * for its id only when that entry is cleared or still refers to this
     * very item.  An entry since replaced by another live item stays.
     */
    method Remove(i: Item?)
      requires Valid()
      modifies this
      ensures Valid() && queue == []
      ensures var m := Purge(old(entries), old(queue));
        entries == if i != null && i.id in m && (m[i.id].referent.None? || m[i.id].referent == Some(i))
                   then m - {i.id} else m
      ensures i != null && i.id in entries ==> entries[i.id].referent.Some? && entries[i.id].referent != Some(i)
    {
      Drain();
      if i == null {
        return;
      }
      var id := i.id;
      if id !in entries {
        return;
      }
      var cached := entries[id].referent;
      if cached.None? || cached == Some(i) {
        entries := entries - {id};
      }
    }

    /**
     * getFromCache: drain, then return the live item stored under `id`.  An
     * entry found cleared is evicted on the spot, so after a miss no entry
     * for `id` is left.
     */
    method Get(id: string) returns (r: Option<Item>)
      requires Valid()
      modifies this
      ensures Valid() && queue == []
      ensures var m := Purge(old(entries), old(queue));
        if id in m && m[id].referent.Some?
        then r == m[id].referent && entries == m
        else r == None && entries == m - {id}
      ensures r.Some? ==> r.value.id == id
      ensures r.None? ==> id !in entries
      ensures id in old(entries) && old(entries)[id].referent.Some? ==> r == old(entries)[id].referent
    {
      ghost var m0, q0 := entries, queue;
      if id in m0 && m0[id].referent.Some? {
        PurgeKeepsLive(m0, q0, id);
      }
      Drain();
      if id in entries {
        var cached := entries[id].referent;
        if cached.Some? {
          return cached;
        }
        entries := entries - {id};
      }
      r := None;
    }

    /** The collector clears a weak reference: its item is no longer strongly reachable. */
    method Collect(r: WeakRef)
      requires Valid()
      modifies r
      ensures Valid() && r.referent == None
    {
      r.referent := None;
    }

    /** The reference handler posts a cleared reference to the queue. */
    method Enqueue(r: WeakRef)
      requires Valid() && r.referent == None
      modifies this
      ensures Valid()
      ensures entries == old(entries) && queue == old(queue) + [r]
    {
      queue := queue + [r];
    }
  }
}
