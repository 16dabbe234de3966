/**
 * A capacity-bounded map whose keys are kept in recency order, the common
 * abstraction of the `lru` crate's `LruCache` (used by src/lib.rs) and of
 * celery's `LRUCache` (used by celery_exporter/state.py).
 *
 * `order` lists the keys from least to most recently used. A capacity of 0
 * means "unbounded", as in celery's `LRUCache(limit=0)`.
 */
module Lru {
  import opened Wrappers

  /** No key occurs twice. */
  predicate NoDup<K(==)>(s: seq<K>) {
    forall i, j :: 0 <= i < j < |s| ==> s[i] != s[j]
  }

  /** `s` with `k` taken out, the other keys keeping their order. */
  function Erase<K(==)>(s: seq<K>, k: K): (r: seq<K>)
    ensures forall x | x in r :: x in s && x != k
    ensures forall x | x in s && x != k :: x in r
    ensures k !in s ==> r == s
    ensures NoDup(s) ==> NoDup(r)
    ensures NoDup(s) && k in s ==> |r| == |s| - 1
  {
    if s == [] then []
    else if s[0] == k then Erase(s[1..], k)
    else
      var t := Erase(s[1..], k);
      if NoDup(s) then NoDupCons(s[0], s[1..], t); [s[0]] + t else [s[0]] + t
  }

  /** Erasing a key that was just appended to a sequence without it gives the sequence back. */
  lemma {:induction false} EraseAppended<K>(s: seq<K>, k: K)
    requires k !in s
    ensures Erase(s + [k], k) == s
  {
    if s != [] {
      assert (s + [k])[1..] == s[1..] + [k];
      EraseAppended(s[1..], k);
    }
  }

  /** Prepending a key that the rest (and what is kept of it) does not hold keeps keys distinct. */
  lemma NoDupCons<K>(x: K, s: seq<K>, t: seq<K>)
    requires NoDup([x] + s) && NoDup(t)
    requires forall y | y in t :: y in s
    ensures NoDup([x] + t)
  {
    forall j | 0 <= j < |s| ensures s[j] != x {
      assert ([x] + s)[j + 1] == s[j] && ([x] + s)[0] == x;
    }
    assert x !in s;
    forall i, j | 0 <= i < j < |[x] + t| ensures ([x] + t)[i] != ([x] + t)[j] {
      if i == 0 { assert ([x] + t)[j] in t; }
    }
  }

  datatype Cache<K(==), V> = Cache(capacity: nat, order: seq<K>, entries: map<K, V>)

  /** The order lists exactly the stored keys, once each, and the capacity is respected. */
  predicate WellFormed<K(==), V>(c: Cache<K, V>) {
    && NoDup(c.order)
    && (forall k | k in c.entries :: k in c.order)
    && (forall k | k in c.order :: k in c.entries)
    && (c.capacity > 0 ==> |c.order| <= c.capacity)
  }

  lemma {:induction false} DistinctCard<K>(s: seq<K>)
    requires NoDup(s)
    ensures |(set x | x in s)| == |s|
  {
    if s != [] {
      DistinctCard(s[1..]);
      assert (set x | x in s) == {s[0]} + (set x | x in s[1..]);
      assert s[0] !in (set x | x in s[1..]);
    }
  }

  /** A well-formed cache never holds more entries than its capacity. */
  lemma Bounded<K, V>(c: Cache<K, V>)
    requires WellFormed(c)
    ensures |c.entries| == |c.order|
    ensures c.capacity > 0 ==> |c.entries| <= c.capacity
  {
    DistinctCard(c.order);
    assert c.entries.Keys == (set x | x in c.order);
  }

  function Empty<K(==), V>(capacity: nat): (c: Cache<K, V>)
    ensures WellFormed(c) && c.entries == map[]
  {
    Cache(capacity, [], map[])
  }

  /** The value stored under `k`, if any. */
  function Lookup<K(==), V>(c: Cache<K, V>, k: K): (r: Option<V>)
    ensures r.Some? <==> k in c.entries
    ensures r.Some? ==> r.value == c.entries[k]
  {
    if k in c.entries then Some(c.entries[k]) else None
  }

  /** A read of `k`: when present, `k` becomes the most recently used key. */
  function Touch<K(==), V>(c: Cache<K, V>, k: K): (r: Cache<K, V>)
    requires WellFormed(c)
    ensures WellFormed(r)
    ensures r.capacity == c.capacity && r.entries == c.entries
    ensures k in c.entries ==> r.order == Erase(c.order, k) + [k]
    ensures k !in c.entries ==> r == c
  {
    if k in c.entries then c.(order := Erase(c.order, k) + [k]) else c
  }

  /**
   * Store `v` under `k` and make `k` the most recently used key. A new key
   * in a full cache first evicts the least recently used key, `order[0]`.
   */
  function Insert<K(==), V>(c: Cache<K, V>, k: K, v: V): (r: Cache<K, V>)
    requires WellFormed(c)
    ensures WellFormed(r)
    ensures r.capacity == c.capacity
    ensures k in r.entries && r.entries[k] == v && r.order[|r.order| - 1] == k
    ensures k in c.entries ==> r.entries == c.entries[k := v]
    ensures k !in c.entries && c.capacity > 0 && |c.order| == c.capacity ==>
              r.entries == (c.entries - {c.order[0]})[k := v]
    ensures k !in c.entries && (c.capacity == 0 || |c.order| < c.capacity) ==>
              r.entries == c.entries[k := v]
    ensures k in c.entries ==> r.order == Erase(c.order, k) + [k]
    ensures k !in c.entries && c.capacity > 0 && |c.order| == c.capacity ==> r.order == c.order[1..] + [k]
    ensures k !in c.entries && (c.capacity == 0 || |c.order| < c.capacity) ==> r.order == c.order + [k]
  {
    if k in c.entries then
      Cache(c.capacity, Erase(c.order, k) + [k], c.entries[k := v])
    else if c.capacity > 0 && |c.order| >= c.capacity then
      var lru := c.order[0];
      assert c.order == [lru] + c.order[1..];
      Cache(c.capacity, c.order[1..] + [k], (c.entries - {lru})[k := v])
    else
      Cache(c.capacity, c.order + [k], c.entries[k := v])
  }

  /** Take `k` out of the cache; the other keys keep their values and order. */
  function Remove<K(==), V>(c: Cache<K, V>, k: K): (r: Cache<K, V>)
    requires WellFormed(c)
    ensures WellFormed(r)
    ensures r.capacity == c.capacity && r.entries == c.entries - {k}
    ensures r.order == Erase(c.order, k)
  {
    Cache(c.capacity, Erase(c.order, k), c.entries - {k})
  }

  // ---- Recency: the order is the order of last use ----

  /** `s` lists its elements in strictly increasing `rank`. */
  predicate Increasing<K>(s: seq<K>, rank: K -> int) {
    forall i, j :: 0 <= i < j < |s| ==> rank(s[i]) < rank(s[j])
  }

  /** The rest of an increasing sequence is increasing. */
  lemma IncreasingRest<K>(s: seq<K>, rank: K -> int)
    requires s != [] && Increasing(s, rank)
    ensures Increasing(s[1..], rank)
    ensures forall y | y in s[1..] :: rank(s[0]) < rank(y)
  {
    var tail := s[1..];
    forall i, j | 0 <= i < j < |tail| ensures rank(tail[i]) < rank(tail[j]) {
      assert tail[i] == s[i + 1] && tail[j] == s[j + 1];
    }
    forall y | y in tail ensures rank(s[0]) < rank(y) {
      var j :| 0 <= j < |tail| && tail[j] == y;
      assert s[j + 1] == y;
    }
  }

  /** A key ranked below everything in an increasing sequence can go in front of it. */
  lemma IncreasingCons<K>(x: K, t: seq<K>, rank: K -> int)
    requires Increasing(t, rank) && forall y | y in t :: rank(x) < rank(y)
    ensures Increasing([x] + t, rank)
  {
    var u := [x] + t;
    forall i, j | 0 <= i < j < |u| ensures rank(u[i]) < rank(u[j]) {
      assert u[j] == t[j - 1];
      if i > 0 {
        assert u[i] == t[i - 1];
      }
    }
  }

  /** Erasing a key keeps the others in their relative order: every ranking `s` follows, the result follows too. */
  lemma {:induction false} EraseKeepsOrder<K>(s: seq<K>, k: K, rank: K -> int)
    requires Increasing(s, rank)
    ensures Increasing(Erase(s, k), rank)
  {
    if s != [] {
      IncreasingRest(s, rank);
      EraseKeepsOrder(s[1..], k, rank);
      if s[0] != k {
        var t := Erase(s[1..], k);
        assert Erase(s, k) == [s[0]] + t;
        IncreasingCons(s[0], t, rank);
      }
    }
  }

  /** The position in the use history `h` of the last use of `k`, or -1 when `k` was never used. */
  function LastUse<K(==)>(h: seq<K>, k: K): (r: int)
    ensures -1 <= r < |h|
    ensures r >= 0 ==> h[r] == k
    ensures r == -1 <==> k !in h
    ensures forall i | r < i < |h| :: h[i] != k
  {
    if h == [] then -1
    else if h[|h| - 1] == k then |h| - 1
    else
      var r := LastUse(h[..|h| - 1], k);
      assert forall i | 0 <= i < |h| - 1 :: h[..|h| - 1][i] == h[i];
      r
  }

  /** Ranking keys by their last use in `h`. */
  function Recency<K(==)>(h: seq<K>): K -> int {
    x => LastUse(h, x)
  }

  /** One more use of `k` makes it the latest and moves no other key. */
  lemma UseNext<K>(h: seq<K>, k: K, x: K)
    ensures Recency(h + [k])(x) == if x == k then |h| else Recency(h)(x)
  {
    assert (h + [k])[..|h|] == h;
  }

  /** A key not in `s` can be used without disturbing the recency order of `s`. */
  lemma UseOther<K>(s: seq<K>, k: K, h: seq<K>)
    requires Increasing(s, Recency(h)) && k !in s
    ensures Increasing(s, Recency(h + [k]))
  {
    forall i, j | 0 <= i < j < |s| ensures Recency(h + [k])(s[i]) < Recency(h + [k])(s[j]) {
      UseNext(h, k, s[i]);
      UseNext(h, k, s[j]);
    }
  }

  /** Using a key not in `s` and appending it keeps the recency order. */
  lemma UseLast<K>(s: seq<K>, k: K, h: seq<K>)
    requires Increasing(s, Recency(h)) && k !in s
    ensures Increasing(s + [k], Recency(h + [k]))
  {
    UseOther(s, k, h);
    UseNext(h, k, k);
    forall i, j | 0 <= i < j < |s + [k]| ensures Recency(h + [k])((s + [k])[i]) < Recency(h + [k])((s + [k])[j]) {
      assert (s + [k])[i] == s[i];
      if j == |s| {
        UseNext(h, k, s[i]);
      } else {
        assert (s + [k])[j] == s[j];
      }
    }
  }

  /** A read keeps the order the order of last use, counting the read as a use. */
  lemma TouchRecency<K, V>(c: Cache<K, V>, k: K, h: seq<K>)
    requires WellFormed(c) && Increasing(c.order, Recency(h))
    ensures Increasing(Touch(c, k).order, Recency(h + [k]))
  {
    if k in c.entries {
      EraseKeepsOrder(c.order, k, Recency(h));
      UseLast(Erase(c.order, k), k, h);
    } else {
      UseOther(c.order, k, h);
    }
  }

  /** A write keeps the order the order of last use, counting the write as a use. */
  lemma InsertRecency<K, V>(c: Cache<K, V>, k: K, v: V, h: seq<K>)
    requires WellFormed(c) && Increasing(c.order, Recency(h))
    ensures Increasing(Insert(c, k, v).order, Recency(h + [k]))
  {
    if k in c.entries {
      EraseKeepsOrder(c.order, k, Recency(h));
      UseLast(Erase(c.order, k), k, h);
    } else if c.capacity > 0 && |c.order| == c.capacity {
      var rest := c.order[1..];
      assert Increasing(rest, Recency(h)) by {
        forall i, j | 0 <= i < j < |rest| ensures Recency(h)(rest[i]) < Recency(h)(rest[j]) {
          assert rest[i] == c.order[i + 1] && rest[j] == c.order[j + 1];
        }
      }
      assert k !in rest;
      UseLast(rest, k, h);
    } else {
      UseLast(c.order, k, h);
    }
  }

  /** A pop keeps the order the order of last use, counting the pop as a use. */
  lemma RemoveRecency<K, V>(c: Cache<K, V>, k: K, h: seq<K>)
    requires WellFormed(c) && Increasing(c.order, Recency(h))
    ensures Increasing(Remove(c, k).order, Recency(h + [k]))
  {
    EraseKeepsOrder(c.order, k, Recency(h));
    UseOther(Erase(c.order, k), k, h);
  }

  /** The cache operations, as uses of a key. */
  datatype Use<K, V> = Get(key: K) | Put(key: K, value: V) | Pop(key: K)

  /** The keys used, in order. */
  function Keys<K, V>(us: seq<Use<K, V>>): (h: seq<K>)
    ensures |h| == |us| && forall i | 0 <= i < |us| :: h[i] == us[i].key
  {
    if us == [] then [] else Keys(us[..|us| - 1]) + [us[|us| - 1].key]
  }

  /** The cache after the uses `us`, applied from the first. */
  function Replay<K(==), V>(c: Cache<K, V>, us: seq<Use<K, V>>): (r: Cache<K, V>)
    requires WellFormed(c)
    ensures WellFormed(r) && r.capacity == c.capacity
  {
    if us == [] then c
    else
      var p := Replay(c, us[..|us| - 1]);
      match us[|us| - 1]
      case Get(k) => Touch(p, k)
      case Put(k, v) => Insert(p, k, v)
      case Pop(k) => Remove(p, k)
  }

  /**
   * After any run of gets, puts and pops on an empty cache, the keys are
   * ordered by their last use: the first key is the least recently used.
   */
  lemma {:induction false} ReplayRecency<K, V>(capacity: nat, us: seq<Use<K, V>>)
    ensures Increasing(Replay(Empty(capacity), us).order, Recency(Keys(us)))
  {
    if us != [] {
      var init := us[..|us| - 1];
      ReplayRecency(capacity, init);
      var p := Replay(Empty(capacity), init);
      assert Keys(us) == Keys(init) + [us[|us| - 1].key];
      match us[|us| - 1]
      case Get(k) => TouchRecency(p, k, Keys(init));
      case Put(k, v) => InsertRecency(p, k, v, Keys(init));
      case Pop(k) => RemoveRecency(p, k, Keys(init));
    }
  }

  /** In a cache ordered by last use, the first key was used before every other stored key. */
  lemma LeastRecentFirst<K, V>(c: Cache<K, V>, h: seq<K>, k: K)
    requires WellFormed(c) && Increasing(c.order, Recency(h))
    requires k in c.entries && k != c.order[0]
    ensures LastUse(h, c.order[0]) < LastUse(h, k)
  {
    var j :| 0 <= j < |c.order| && c.order[j] == k;
    assert Recency(h)(c.order[0]) < Recency(h)(c.order[j]);
  }

  /**
   * A new key in a full cache ordered by last use evicts exactly one key,
   * the least recently used one.
   */
  lemma EvictsLeastRecent<K, V>(c: Cache<K, V>, h: seq<K>, k: K, v: V)
    requires WellFormed(c) && Increasing(c.order, Recency(h))
    requires k !in c.entries && c.capacity > 0 && |c.order| == c.capacity
    ensures c.entries.Keys - Insert(c, k, v).entries.Keys == {c.order[0]}
    ensures forall y | y in c.entries && y != c.order[0] :: LastUse(h, c.order[0]) < LastUse(h, y)
  {
    forall y | y in c.entries && y != c.order[0] ensures LastUse(h, c.order[0]) < LastUse(h, y) {
      LeastRecentFirst(c, h, y);
    }
  }

  /** The cache object whose methods the trackers call. */
  class LruCache<K(==), V> {
    const capacity: nat
    var order: seq<K>
    var entries: map<K, V>

    function Model(): Cache<K, V>
      reads this
    {
      Cache(capacity, order, entries)
    }

    ghost predicate Valid()
      reads this
    {
      WellFormed(Model())
    }

    constructor (capacity: nat)
      ensures Valid() && Model() == Empty(capacity)
    {
      this.capacity := capacity;
      order := [];
      entries := map[];
    }

    /** `get`: the stored value, promoting `k` to most recently used. */
    method Get(k: K) returns (v: Option<V>)
      requires Valid()
      modifies this
      ensures Valid()
      ensures v == Lookup(old(Model()), k) && Model() == Touch(old(Model()), k)
    {
      v := Lookup(Model(), k);
      if k in entries {
        order := Erase(order, k) + [k];
      }
    }

    /** `put` (and a write through `get_mut`): store `v` under `k`, evicting if full. */
    method Put(k: K, v: V)
      requires Valid()
      modifies this
      ensures Valid()
      ensures Model() == Insert(old(Model()), k, v)
    {
      if k in entries {
        order := Erase(order, k) + [k];
      } else if capacity > 0 && |order| >= capacity {
        entries := entries - {order[0]};
        order := order[1..] + [k];
      } else {
        order := order + [k];
      }
      entries := entries[k := v];
    }

    /** `pop`: remove `k`, returning what was stored under it. */
    method Pop(k: K) returns (v: Option<V>)
      requires Valid()
      modifies this
      ensures Valid()
      ensures v == Lookup(old(Model()), k) && Model() == Remove(old(Model()), k)
    {
      v := Lookup(Model(), k);
      order := Erase(order, k);
      entries := entries - {k};
    }
  }
}
