/**
 The size bound of the in-process cache is attained: every slot of every shard can
 be filled. Because of the floor of 64 slots per shard (internal/cache/l1.go,
 `NewL1`) the cache keeps within its configured size only from 16384 on.
 */
module L1Capacity {
  import opened CacheTypes
  import opened L1Shard
  import opened L1Cache
  import Fnv
  import C = L1Concurrent

  /** Store each key in turn, all with the same entry. */
  function StoreAll(c: Shards, per: int, keys: seq<Key>, e: Entry): (r: Shards)
    requires GoodCache(c, per)
    ensures GoodCache(r, per)
    decreases |keys|
  {
    if keys == [] then c
    else
      var n := |keys| - 1;
      var d := StoreAll(c, per, keys[..n], e);
      assert GoodAt(d[Home(keys[n])], Home(keys[n]), per);
      CachePutKeepsGood(d, per, keys[n], e);
      CachePut(d, keys[n], e)
  }

  lemma StoreLast(c: Shards, per: int, keys: seq<Key>, e: Entry)
    requires GoodCache(c, per) && keys != []
    ensures var n := |keys| - 1;
            var d := StoreAll(c, per, keys[..n], e);
            CursorInRange(d[Home(keys[n])]) && StoreAll(c, per, keys, e) == CachePut(d, keys[n], e)
  {
    HomeIsGood(StoreAll(c, per, keys[..|keys| - 1], e), per, keys[|keys| - 1]);
  }

  /** The `n`-th key: `n / 256 + 1` bytes long, in shard `n % 256`. */
  function Nth(n: nat): (k: Key)
    ensures Home(k) == n % 256 && |k| == n / 256 + 1
  {
    Fnv.NumberOfByte(Fnv.Byte(n % 256), n % 256);
    Fnv.Into(seq(n / 256, _ => 0), Fnv.Byte(n % 256))
  }

  function FirstKeys(n: nat): (ks: seq<Key>)
    ensures |ks| == n && forall i :: 0 <= i < n ==> ks[i] == Nth(i)
  {
    seq(n, i requires 0 <= i < n => Nth(i))
  }

  /** Shard `j` once the first `n` keys are stored: as many as hash to it, all of them earlier keys. */
  ghost predicate FilledTo(s: ShardState, j: nat, n: nat) {
    && |s.items| == (n + 255 - j) / 256
    && forall k :: k in s.items ==> (|k| - 1) * 256 + j < n
  }

  lemma RoomForNth(s: ShardState, j: nat, n: nat)
    requires n < 256 * s.maxSize && j == n % 256 && FilledTo(s, j, n)
    ensures Nth(n) !in s.items && !MustEvict(s, Nth(n))
    ensures (n + 256 - j) / 256 == (n + 255 - j) / 256 + 1
  {}

  lemma OthersUnchanged(s: ShardState, j: nat, n: nat)
    requires j < 256 && j != n % 256 && FilledTo(s, j, n)
    ensures FilledTo(s, j, n + 1)
  {}

  lemma StoreNth(s: ShardState, j: nat, n: nat, e: Entry)
    requires Good(s) && n < 256 * s.maxSize && j == n % 256 && FilledTo(s, j, n)
    ensures FilledTo(Put(s, Nth(n), e), j, n + 1)
  {
    RoomForNth(s, j, n);
    PutEffect(s, Nth(n), e);
    assert Put(s, Nth(n), e).items.Keys == s.items.Keys + {Nth(n)};
    assert n == n / 256 * 256 + n % 256;
  }

  ghost predicate AllFilled(c: Shards, n: nat) {
    forall j :: 0 <= j < 256 ==> FilledTo(c[j], j, n)
  }

  lemma FillStep(d: Shards, per: int, n: nat, e: Entry)
    requires GoodCache(d, per) && AllFilled(d, n) && n < 256 * per && CursorInRange(d[Home(Nth(n))])
    ensures AllFilled(CachePut(d, Nth(n), e), n + 1)
  {
    var h := n % 256;
    forall j | 0 <= j < 256 && j != h ensures FilledTo(d[j], j, n + 1) {
      OthersUnchanged(d[j], j, n);
    }
    assert GoodAt(d[h], h, per);
    StoreNth(d[h], h, n, e);
  }

  lemma FillsOneMore(c: Shards, per: int, n: nat, e: Entry)
    requires GoodCache(c, per) && n < 256 * per && AllFilled(StoreAll(c, per, FirstKeys(n), e), n)
    ensures AllFilled(StoreAll(c, per, FirstKeys(n + 1), e), n + 1)
  {
    var ks := FirstKeys(n + 1);
    assert ks[..n] == FirstKeys(n);
    StoreLast(c, per, ks, e);
    hide GoodCache, StoreAll, AllFilled, Nth, FirstKeys, Home;
    FillStep(StoreAll(c, per, ks[..n], e), per, n, e);
  }

  lemma {:induction false} FillsUp(c: Shards, per: int, n: nat, e: Entry)
    requires GoodCache(c, per) && AllFilled(c, 0) && n <= 256 * per
    ensures AllFilled(StoreAll(c, per, FirstKeys(n), e), n)
    decreases n
  {
    hide GoodCache, AllFilled, Home, FirstKeys;
    if n == 0 {
      assert StoreAll(c, per, FirstKeys(0), e) == c;
    } else {
      hide StoreAll;
      FillsUp(c, per, n - 1, e);
      FillsOneMore(c, per, n - 1, e);
    }
  }

  lemma {:induction false} UniformTotal(c: seq<ShardState>, m: nat)
    requires forall j :: 0 <= j < |c| ==> |c[j].items| == m
    ensures TotalItems(c) == |c| * m
  {
    if c != [] {
      UniformTotal(c[..|c| - 1], m);
      assert |c| * m == (|c| - 1) * m + m;
    }
  }

  lemma FullTotal(c: Shards, per: nat)
    requires AllFilled(c, 256 * per)
    ensures TotalItems(c) == 256 * per
  {
    forall j | 0 <= j < 256 ensures |c[j].items| == per {
      assert FilledTo(c[j], j, 256 * per);
    }
    UniformTotal(c, per);
  }

  /** For every configured size some sequence of stores fills all slots of all shards. */
  lemma CapacityIsReached(maxSize: int, e: Entry) returns (keys: seq<Key>)
    ensures GoodCache(EmptyCache(maxSize), PerShard(maxSize))
    ensures |StoredKeys(StoreAll(EmptyCache(maxSize), PerShard(maxSize), keys, e))| == 256 * PerShard(maxSize)
  {
    EmptyIsGood(maxSize);
    var c0, per := EmptyCache(maxSize), PerShard(maxSize);
    keys := FirstKeys(256 * per);
    FillsUp(c0, per, 256 * per, e);
    var c := StoreAll(c0, per, keys, e);
    FullTotal(c, per);
    SizeBound(c, maxSize);
  }

  /** So for any configured size under 16640, some sequence of stores leaves 16384 keys in the cache. */
  lemma FloorIsReached(maxSize: int, e: Entry)
    requires maxSize < 16640
    ensures PerShard(maxSize) == 64 && GoodCache(EmptyCache(maxSize), 64)
    ensures exists keys :: |StoredKeys(StoreAll(EmptyCache(maxSize), 64, keys, e))| == 16384
  {
    var keys := CapacityIsReached(maxSize, e);
  }

  // ------------------------------------------------------ over every interleaving

  lemma OneMore(states: seq<C.State>, steps: seq<C.Step>, maxSize: int, ttl: int, k: Key, v: Value)
    returns (states': seq<C.State>, steps': seq<C.Step>)
    requires C.IsRun(states, steps, maxSize, ttl) && CursorInRange(states[|steps|].shards[Home(k)])
    ensures C.IsRun(states', steps', maxSize, ttl) && |steps'| == |steps| + 1
    ensures states'[|steps'|] == C.AfterSet(states[|steps|], k, v, ttl)
  {
    var s, step := states[|steps|], C.Set(k, v);
    var t := C.Next(s, step, ttl);
    assert C.Moves(s, step, t, ttl);
    states', steps' := states + [t], steps + [step];
  }

  /** Stores one after another, as a run of the concurrent cache. */
  lemma {:induction false} StoresRun(maxSize: int, ttl: int, keys: seq<Key>, v: Value)
    returns (states: seq<C.State>, steps: seq<C.Step>)
    ensures C.IsRun(states, steps, maxSize, ttl) && |steps| == |keys| && states[|keys|].now == 0
    ensures GoodCache(EmptyCache(maxSize), PerShard(maxSize))
    ensures states[|keys|].shards == StoreAll(EmptyCache(maxSize), PerShard(maxSize), keys, Entry(v, ttl))
    decreases |keys|
  {
    EmptyIsGood(maxSize);
    if keys == [] {
      states, steps := [C.Initial(maxSize, 0)], [];
    } else {
      var n := |keys| - 1;
      states, steps := StoresRun(maxSize, ttl, keys[..n], v);
      StoreLast(EmptyCache(maxSize), PerShard(maxSize), keys, Entry(v, ttl));
      hide GoodCache, StoreAll, EmptyCache, CachePut;
      states, steps := OneMore(states, steps, maxSize, ttl, keys[n], v);
    }
  }

  /** The most keys that can be cached at once: the configured size down to a multiple of 256, and 16384 at least. */
  function Capacity(maxSize: int): int {
    if maxSize < 16384 then 16384 else maxSize - maxSize % 256
  }

  /** In every interleaving at most that many keys are cached, and some stores reach it. */
  lemma CapacityIsExact(maxSize: int, ttl: int)
    ensures forall states: seq<C.State>, steps, n :: C.IsRun(states, steps, maxSize, ttl) && 0 <= n < |states| ==>
              |StoredKeys(states[n].shards)| <= Capacity(maxSize)
    ensures exists states: seq<C.State>, steps :: C.IsRun(states, steps, maxSize, ttl)
              && |StoredKeys(states[|steps|].shards)| == Capacity(maxSize)
  {
    assert 256 * PerShard(maxSize) == Capacity(maxSize);
    forall states: seq<C.State>, steps, n | C.IsRun(states, steps, maxSize, ttl) && 0 <= n < |states|
      ensures |StoredKeys(states[n].shards)| <= Capacity(maxSize)
    {
      C.LossyMapUnderInterleaving(states, steps, maxSize, ttl, n);
      SizeBound(states[n].shards, maxSize);
    }
    var keys := CapacityIsReached(maxSize, Entry([], ttl));
    var states, steps := StoresRun(maxSize, ttl, keys, []);
  }

  ghost predicate WithinSize(maxSize: int, ttl: int) {
    forall states: seq<C.State>, steps, n :: C.IsRun(states, steps, maxSize, ttl) && 0 <= n < |states| ==>
      |StoredKeys(states[n].shards)| <= maxSize
  }

  /** The cache keeps within its configured size, in every interleaving, if and only if that is at least 16384. */
  lemma WithinSizeIff(maxSize: int, ttl: int)
    ensures WithinSize(maxSize, ttl) <==> 16384 <= maxSize
  {
    if 16384 <= maxSize {
      forall states: seq<C.State>, steps, n | C.IsRun(states, steps, maxSize, ttl) && 0 <= n < |states|
        ensures |StoredKeys(states[n].shards)| <= maxSize
      {
        C.LossyMapUnderInterleaving(states, steps, maxSize, ttl, n);
      }
    } else {
      var keys := CapacityIsReached(maxSize, Entry([], ttl));
      var states, steps := StoresRun(maxSize, ttl, keys, []);
      assert |StoredKeys(states[|keys|].shards)| == 16384;
    }
  }
}
