/**
 * The FIFO eviction decorator of a cache. The decorated cache is modelled by the map it
 * holds; the queue of keys in insertion order is a sequence updated in place.
 */
module FifoCaches {
  import opened Wrappers

  const DEFAULT_SIZE: int := 1024

  /** What `cycleKeyList` does to the key queue: the new queue and the key evicted, if any. */
  datatype Cycled<K> = Cycled(keys: seq<K>, evicted: Option<K>)

  /**
   * Append `key` at the back; if the queue then holds more than `size` keys, take the front
   * one off. The evicted key followed by the new queue is always the old queue plus `key`.
   */
  function CycleKeyList<K>(keyList: seq<K>, size: int, key: K): (r: Cycled<K>)
    ensures r.evicted.Some? <==> |keyList| + 1 > size
    ensures r.evicted.None? ==> r.keys == keyList + [key]
    ensures r.evicted.Some? ==> [r.evicted.value] + r.keys == keyList + [key]
    ensures |keyList| <= size ==> |r.keys| <= size
  {
    var added := keyList + [key];
    if |added| > size then Cycled(added[1..], Some(added[0])) else Cycled(added, None)
  }

  /** The key queue after `putObject` of each of `keys` in turn. */
  function QueueAfterPuts<K>(keyList: seq<K>, size: int, keys: seq<K>): seq<K>
    decreases |keys|
  {
    if keys == [] then keyList
    else QueueAfterPuts(CycleKeyList(keyList, size, keys[0]).keys, size, keys[1..])
  }

  function Min(a: int, b: int): int {
    if a <= b then a else b
  }

  /**
   * The queue is a sliding window: after any run of puts it holds exactly the last
   * `min(size, n)` of the `n` keys queued before or put since, in the order they arrived.
   */
  lemma {:induction false} QueueIsNewestWindow<K>(keyList: seq<K>, size: int, keys: seq<K>)
    requires |keyList| <= size
    ensures var all := keyList + keys;
      QueueAfterPuts(keyList, size, keys) == all[|all| - Min(size, |all|)..]
    decreases |keys|
  {
    var all := keyList + keys;
    if keys == [] {
      assert all == keyList;
    } else {
      var next := CycleKeyList(keyList, size, keys[0]).keys;
      QueueIsNewestWindow(next, size, keys[1..]);
      var all' := next + keys[1..];
      assert |next| <= size;
      if |keyList| + 1 > size {
        assert |keyList| == size;
        assert next == (keyList + [keys[0]])[1..];
        assert all' == all[1..];
        assert |all'| == |all| - 1;
        assert Min(size, |all'|) == size && Min(size, |all|) == size;
        assert all'[|all'| - size..] == all[|all| - size..];
      } else {
        assert next == keyList + [keys[0]];
        assert all' == all;
      }
    }
  }

  function Elements<K>(xs: seq<K>): set<K> {
    set k | k in xs
  }

  lemma {:induction false} ElementsBound<K>(xs: seq<K>)
    ensures |Elements(xs)| <= |xs|
    decreases |xs|
  {
    if xs != [] {
      ElementsBound(xs[1..]);
      assert Elements(xs) == {xs[0]} + Elements(xs[1..]);
    }
  }

  lemma SubsetCardinality<K>(a: set<K>, b: set<K>)
    requires a <= b
    ensures |a| <= |b|
  {
    assert b == a + (b - a);
  }

  class FifoCache<K(==), V> {
    const id: string
    /** The decorated cache's entries. */
    var delegate: map<K, V>
    /** Keys in the order they were put; the oldest at the front. */
    var keyList: seq<K>
    var size: int
    /**
     * Cached keys that are not in the queue: those the decorated cache held when this decorator
     * was created or last cleared, and those put while `size < 1` (the put evicts the key it
     * has just queued and then writes it anyway).
     */
    ghost var unqueued: set<K>

    /** Every cached key is either still queued (and so will be evicted in turn) or unqueued. */
    ghost predicate Valid()
      reads this
    {
      forall k :: k in delegate ==> k in unqueued || k in keyList
    }

    /** `new FifoCache(delegate)`: an empty queue and the default capacity. */
    constructor (id: string, delegate: map<K, V>)
      ensures Valid()
      ensures this.id == id && this.delegate == delegate
      ensures keyList == [] && size == DEFAULT_SIZE
      ensures unqueued == delegate.Keys
    {
      this.id := id;
      this.delegate := delegate;
      keyList := [];
      size := DEFAULT_SIZE;
      unqueued := delegate.Keys;
    }

    /** `getId()`: the decorated cache's id, fixed when the decorator was created. */
    function GetId(): (r: string)
      ensures r == id
    {
      id
    }

    /** `getSize()` reports the decorated cache's size, not the queue's. */
    function GetSize(): (n: nat)
      reads this
      ensures n == |delegate.Keys|
      ensures Valid() ==> n <= |unqueued| + |keyList|
    {
      SizeBoundWhenValid(this);
      |delegate|
    }

    method SetSize(size: int)
      modifies this
      ensures this.size == size
      ensures delegate == old(delegate) && keyList == old(keyList) && unqueued == old(unqueued)
    {
      this.size := size;
    }

    /** `getObject` reads the decorated cache; the queue plays no part. */
    function GetObject(key: K): (r: Option<V>)
      reads this
      ensures r.Some? <==> key in delegate
      ensures r.Some? ==> r.value == delegate[key]
    {
      if key in delegate then Some(delegate[key]) else None
    }

    /** Queue the key, evicting the oldest key from queue and cache on overflow. */
    method CycleKeyListOf(key: K)
      requires Valid()
      modifies this
      ensures Valid()
      ensures var c := CycleKeyList(old(keyList), size, key);
        && keyList == c.keys
        && delegate == if c.evicted.Some? then old(delegate) - {c.evicted.value} else old(delegate)
      ensures size == old(size) && unqueued == old(unqueued)
    {
      keyList := keyList + [key];
      if |keyList| > size {
        var oldestKey := keyList[0];
        assert forall k :: k in keyList ==> k == oldestKey || k in keyList[1..];
        keyList := keyList[1..];
        delegate := delegate - {oldestKey};
      }
    }

    /**
     * `putObject`: evict first, then write, so the entry just put is always readable and no
     * key other than the evicted oldest one leaves the cache.
     */
    method PutObject(key: K, value: V)
      requires Valid()
      modifies this
      ensures Valid()
      ensures var c := CycleKeyList(old(keyList), old(size), key);
        && keyList == c.keys
        && delegate == (if c.evicted.Some? then old(delegate) - {c.evicted.value} else old(delegate))[key := value]
      ensures GetObject(key) == Some(value)
      ensures |old(keyList)| <= old(size) ==> |keyList| <= size
      ensures size == old(size)
      ensures unqueued == old(unqueued) + (if key in keyList then {} else {key})
      ensures old(size) >= 1 ==> unqueued == old(unqueued)
      ensures old(size) >= 1 && unqueued == {} && |old(keyList)| <= old(size) ==> |delegate.Keys| <= size
    {
      CycleKeyListOf(key);
      delegate := delegate[key := value];
      if size >= 1 {
        var added := old(keyList) + [key];
        assert keyList == added || (|added| >= 2 && keyList == added[1..]);
        assert keyList[|keyList| - 1] == added[|added| - 1] == key;
      }
      if key !in keyList {
        unqueued := unqueued + {key};
      }
      if size >= 1 && unqueued == {} && |old(keyList)| <= size {
        AllQueuedBound(this);
      }
    }

    /** `removeObject` removes from the decorated cache only; the key stays queued. */
    method RemoveObject(key: K) returns (removed: Option<V>)
      requires Valid()
      modifies this
      ensures Valid()
      ensures removed == old(GetObject(key))
      ensures delegate == old(delegate) - {key}
      ensures keyList == old(keyList) && size == old(size) && unqueued == old(unqueued)
    {
      removed := GetObject(key);
      ghost var before := delegate;
      delegate := delegate - {key};
      assert forall k :: k in delegate ==> k in before;
    }

    method Clear()
      requires Valid()
      modifies this
      ensures Valid()
      ensures delegate == map[] && keyList == []
      ensures size == old(size) && unqueued == {}
    {
      delegate := map[];
      keyList := [];
      unqueued := {};
    }
  }

  /**
   * The memory bound: the cache never holds more keys than the unqueued ones plus the queue,
   * and the queue never more than `size` once it has been within it.
   */
  lemma CachedKeysBound<K, V>(c: FifoCache<K, V>)
    requires c.Valid()
    ensures |c.delegate.Keys| <= |c.unqueued| + |c.keyList|
  {
    assert c.delegate.Keys <= c.unqueued + Elements(c.keyList);
    SubsetCardinality(c.delegate.Keys, c.unqueued + Elements(c.keyList));
    ElementsBound(c.keyList);
  }

  lemma SizeBoundWhenValid<K, V>(c: FifoCache<K, V>)
    ensures c.Valid() ==> |c.delegate.Keys| <= |c.unqueued| + |c.keyList|
  {
    if c.Valid() {
      CachedKeysBound(c);
    }
  }

  /**
   * The bound callers rely on: a decorator whose cached keys are all queued (one created over
   * an empty cache, or just cleared) and whose queue is within its capacity holds at most
   * `size` entries. Puts with `size >= 1` keep both conditions, so the bound lasts.
   */
  lemma AllQueuedBound<K, V>(c: FifoCache<K, V>)
    requires c.Valid() && c.unqueued == {}
    requires |c.keyList| <= c.size
    ensures |c.delegate.Keys| <= c.size
  {
    CachedKeysBound(c);
  }

  /**
   * With a capacity of 0 every put evicts the key it has just queued and writes it anyway:
   * two puts into an empty cache leave both entries cached and the queue empty.
   */
  method ZeroSizeNeverEvicts(k1: int, k2: int)
    requires k1 != k2
  {
    var c := new FifoCache<int, string>("zero", map[]);
    c.SetSize(0);
    c.PutObject(k1, "a");
    c.PutObject(k2, "b");
    assert c.keyList == [];
    assert c.GetObject(k1) == Some("a") && c.GetObject(k2) == Some("b");
  }
}
