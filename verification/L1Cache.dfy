/**
 The whole in-process cache (internal/cache/l1.go): 256 shards, each key kept in
 the shard its hash selects.
 */
module L1Cache {
  import opened CacheTypes
  import opened L1Shard
  import Fnv

  const NUM_SHARDS := 256
  const MIN_PER_SHARD := 64

  function Home(key: Key): (i: nat)
    ensures i < NUM_SHARDS
  {
    Fnv.Number(Fnv.ShardOf(key))
  }

  /** Slots per shard. The floor also covers negative sizes, whichever way division rounds. */
  function PerShard(maxSize: int): int {
    if maxSize / NUM_SHARDS < MIN_PER_SHARD then MIN_PER_SHARD else maxSize / NUM_SHARDS
  }

  type Shards = c: seq<ShardState> | |c| == NUM_SHARDS witness seq(NUM_SHARDS, _ => Empty(MIN_PER_SHARD))

  function EmptyCache(maxSize: int): Shards {
    seq(NUM_SHARDS, _ => Empty(PerShard(maxSize)))
  }

  /** Every shard is good, has `per` slots, and holds only keys that hash to it. */
  ghost predicate GoodCache(c: Shards, per: int) {
    forall i :: 0 <= i < NUM_SHARDS ==> GoodAt(c[i], i, per)
  }

  ghost predicate GoodAt(s: ShardState, i: nat, per: int) {
    Good(s) && s.maxSize == per && forall k :: k in s.items ==> Home(k) == i
  }

  function CacheLookup(c: Shards, key: Key): Option<Entry> {
    var items := c[Home(key)].items;
    if key in items then Some(items[key]) else None
  }

  function CachePut(c: Shards, key: Key, entry: Entry): Shards
    requires CursorInRange(c[Home(key)])
  {
    c[Home(key) := Put(c[Home(key)], key, entry)]
  }

  function CacheRemove(c: Shards, key: Key): Shards {
    c[Home(key) := Remove(c[Home(key)], key)]
  }

  /** `L1Cache.Get` with nothing interleaved: an expired entry is deleted and reported absent. */
  function CacheGet(c: Shards, key: Key, now: int): (Shards, Option<Value>) {
    match CacheLookup(c, key)
    case None => (c, None)
    case Some(e) => if now > e.expiresAt then (CacheRemove(c, key), None) else (c, Some(e.value))
  }

  // ------------------------------------------------------------------- invariant

  lemma EmptyIsGood(maxSize: int)
    ensures GoodCache(EmptyCache(maxSize), PerShard(maxSize))
  {}

  lemma CachePutKeepsGood(c: Shards, per: int, key: Key, entry: Entry)
    requires GoodCache(c, per)
    ensures GoodCache(CachePut(c, key, entry), per)
  {
    var h := Home(key);
    assert GoodAt(c[h], h, per);
    PutKeepsGood(c[h], key, entry);
    PutEffect(c[h], key, entry);
    assert GoodAt(Put(c[h], key, entry), h, per);
  }

  lemma CacheRemoveKeepsGood(c: Shards, per: int, key: Key)
    requires GoodCache(c, per)
    ensures GoodCache(CacheRemove(c, key), per)
  {}

  ghost function Evicts(c: Shards, key: Key): Option<Key>
    requires Good(c[Home(key)])
  {
    var s := c[Home(key)];
    if MustEvict(s, key) && s.items != map[] then Some(Victim(s)) else None
  }

  lemma EvictsAtHome(c: Shards, per: int, key: Key, other: Key)
    requires GoodCache(c, per) && Good(c[Home(key)]) && Evicts(c, key) == Some(other)
    ensures Home(other) == Home(key) && CacheLookup(c, other).Some? && other != key
  {}

  lemma EvictsWhenFull(c: Shards, per: int, key: Key)
    requires GoodCache(c, per) && Good(c[Home(key)])
    ensures Evicts(c, key).Some? <==> CacheLookup(c, key).None? && |c[Home(key)].items| >= per
  {}

  lemma HomeIsGood(c: Shards, per: int, key: Key)
    requires GoodCache(c, per)
    ensures Good(c[Home(key)])
  {}

  /**
   The cache as a lossy map: a store makes its own entry visible and may lose
   one other key, which shares the shard and goes only if the shard was full and
   the key new.
   */
  lemma StoreIsLossyUpdate(c: Shards, per: int, key: Key, entry: Entry, other: Key)
    requires GoodCache(c, per) && Good(c[Home(key)])
    ensures CacheLookup(CachePut(c, key, entry), other) ==
            if other == key then Some(entry)
            else if Evicts(c, key) == Some(other) then None
            else CacheLookup(c, other)
    ensures Evicts(c, key) == Some(other) ==> Home(other) == Home(key) && CacheLookup(c, other).Some?
    ensures Evicts(c, key).Some? <==> CacheLookup(c, key).None? && |c[Home(key)].items| >= per
  {
    hide Good, Put, Victim;
    PutEffect(c[Home(key)], key, entry);
    EvictsWhenFull(c, per, key);
    if Evicts(c, key) == Some(other) { EvictsAtHome(c, per, key, other); }
  }

  lemma RemovalIsExact(c: Shards, key: Key, other: Key)
    ensures CacheLookup(CacheRemove(c, key), other) == if other == key then None else CacheLookup(c, other)
  {}

  /** A value stored is returned until its lifetime is over, and then reported absent and removed. */
  lemma SetThenGet(c: Shards, per: int, key: Key, value: Value, now: int, ttl: int, later: int)
    requires GoodCache(c, per) && Good(c[Home(key)])
    ensures var d := CachePut(c, key, Entry(value, now + ttl));
            CacheGet(d, key, later) ==
            if later - now <= ttl then (d, Some(value)) else (CacheRemove(d, key), None)
  {
    StoreIsLossyUpdate(c, per, key, Entry(value, now + ttl), key);
  }

  // ------------------------------------------------------------------------ size

  function StoredKeys(c: seq<ShardState>): set<Key> {
    set i, k | 0 <= i < |c| && k in c[i].items :: k
  }

  function TotalItems(c: seq<ShardState>): nat {
    if c == [] then 0 else TotalItems(c[..|c| - 1]) + |c[|c| - 1].items|
  }

  ghost predicate KeysAtHome(c: seq<ShardState>) {
    forall i, k :: 0 <= i < |c| && k in c[i].items ==> Home(k) == i
  }

  lemma {:induction false} TotalIsKeyCount(c: seq<ShardState>)
    requires KeysAtHome(c)
    ensures TotalItems(c) == |StoredKeys(c)|
  {
    if c == [] {
      assert StoredKeys(c) == {};
    } else {
      var n := |c| - 1;
      TotalIsKeyCount(c[..n]);
      StoredSplits(c);
      forall k | k in StoredKeys(c[..n]) ensures k !in c[n].items {
        var i :| 0 <= i < n && k in c[..n][i].items;
        assert k in c[i].items && Home(k) == i;
      }
      assert |StoredKeys(c)| == |StoredKeys(c[..n])| + |c[n].items.Keys|;
    }
  }

  lemma StoredSplits(c: seq<ShardState>)
    requires c != []
    ensures StoredKeys(c) == StoredKeys(c[..|c| - 1]) + c[|c| - 1].items.Keys
  {}

  lemma {:induction false} TotalBound(c: seq<ShardState>, per: int)
    requires forall i :: 0 <= i < |c| ==> |c[i].items| <= per
    ensures TotalItems(c) <= |c| * per
  {
    if c != [] {
      TotalBound(c[..|c| - 1], per);
      assert |c| * per == (|c| - 1) * per + per;
    }
  }

  lemma GoodTotals(c: Shards, per: int)
    requires GoodCache(c, per)
    ensures TotalItems(c) == |StoredKeys(c)| <= NUM_SHARDS * per
  {
    forall i, k | 0 <= i < |c| && k in c[i].items ensures Home(k) == i {
      assert GoodAt(c[i], i, per);
    }
    forall i | 0 <= i < |c| ensures |c[i].items| <= per {
      assert GoodAt(c[i], i, per);
    }
    TotalIsKeyCount(c);
    TotalBound(c, per);
  }

  /**
   The number of distinct stored keys is the sum of the shard sizes, and is
   bounded by the slots of all shards: `maxSize`, but never less than 16384.
   */
  lemma SizeBound(c: Shards, maxSize: int)
    requires GoodCache(c, PerShard(maxSize))
    ensures TotalItems(c) == |StoredKeys(c)| <= NUM_SHARDS * PerShard(maxSize) <= Max(maxSize, 16384)
  {
    GoodTotals(c, PerShard(maxSize));
  }

  // ------------------------------------------------------------------ the object

  class L1Cache {
    const shards: seq<Shard>
    const ttl: int
    ghost const per: int

    ghost predicate Valid()
      reads shards
    {
      && |shards| == NUM_SHARDS
      && (forall i, j :: 0 <= i < j < |shards| ==> shards[i] != shards[j])
      && GoodCache(Model(), per)
    }

    ghost function Model(): seq<ShardState>
      reads shards
      ensures |Model()| == |shards|
    {
      seq(|shards|, i requires 0 <= i < |shards| reads shards => shards[i].State())
    }

    /** `NewL1`. */
    constructor (maxSize: int, ttl: int)
      ensures Valid() && fresh(shards)
      ensures Model() == EmptyCache(maxSize) && this.ttl == ttl && per == PerShard(maxSize)
    {
      var perShard := maxSize / NUM_SHARDS;
      if perShard < MIN_PER_SHARD {
        perShard := MIN_PER_SHARD;
      }
      var built: seq<Shard> := [];
      for i := 0 to NUM_SHARDS
        invariant |built| == i && fresh(built)
        invariant forall a, b :: 0 <= a < b < i ==> built[a] != built[b]
        invariant forall a :: 0 <= a < i ==> built[a].State() == Empty(perShard)
      {
        var shard := new Shard(perShard);
        built := built + [shard];
      }
      shards, this.ttl, per := built, ttl, perShard;
      new;
      assert Model() == EmptyCache(maxSize);
      EmptyIsGood(maxSize);
    }

    /** `getShard`. */
    method ShardFor(key: Key) returns (shard: Shard)
      requires Valid()
      ensures shard == shards[Home(key)]
    {
      var index := Fnv.GetShard(key);
      shard := shards[index as int];
    }

    method Set(key: Key, value: Value, now: int)
      requires Valid()
      modifies shards
      ensures Valid() && Model() == CachePut(old(Model()), key, Entry(value, now + ttl))
    {
      var shard := ShardFor(key);
      ghost var before := Model();
      assert GoodAt(before[Home(key)], Home(key), per);
      shard.Set(key, value, now, ttl);
      assert Model() == CachePut(before, key, Entry(value, now + ttl));
      CachePutKeepsGood(before, per, key, Entry(value, now + ttl));
    }

    method Delete(key: Key)
      requires Valid()
      modifies shards
      ensures Valid() && Model() == CacheRemove(old(Model()), key)
    {
      var shard := ShardFor(key);
      ghost var before := Model();
      shard.Delete(key);
      assert Model() == CacheRemove(before, key);
      CacheRemoveKeepsGood(before, per, key);
    }

    method Get(key: Key, now: int) returns (value: Option<Value>)
      requires Valid()
      modifies shards
      ensures Valid() && (Model(), value) == CacheGet(old(Model()), key, now)
    {
      var shard := ShardFor(key);
      var entry := shard.Lookup(key);
      if entry.None? {
        return None;
      }
      if now > entry.value.expiresAt {
        Delete(key);
        return None;
      }
      return Some(entry.value.value);
    }

    /** `Stats`: one shard at a time, with nothing changing in between. */
    method Stats() returns (total: nat)
      requires Valid()
      ensures total == TotalItems(Model()) == |StoredKeys(Model())|
      ensures total <= NUM_SHARDS * per
    {
      hide Good;
      total := 0;
      for i := 0 to |shards|
        invariant total == TotalItems(Model()[..i])
      {
        total := total + |shards[i].items|;
        assert Model()[..i + 1][..i] == Model()[..i];
      }
      assert Model()[..|shards|] == Model();
      GoodTotals(Model(), per);
    }
  }
}
