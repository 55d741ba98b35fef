/**
 What `assetCache` keeps over runs (internal/binaryhandler/handler.go): the order
 and the necessity of evictions, and how far `curBytes` drifts from the bytes held.
 */
module AssetCacheRuns {
  import opened CacheTypes
  import opened AssetCache

  // ------------------------------------------------------------- bytes actually held

  ghost function TrueBytes(items: Assets): nat {
    if items == map[] then 0
    else
      var k :| k in items;
      Bytes(items, k) + TrueBytes(items - {k})
  }

  /** The total does not depend on the order in which it is taken. */
  lemma {:induction false} TrueBytesWithout(items: Assets, k: string)
    requires k in items
    ensures TrueBytes(items) == Bytes(items, k) + TrueBytes(items - {k})
    decreases |items|
  {
    var first :| first in items && TrueBytes(items) == Bytes(items, first) + TrueBytes(items - {first});
    if first != k {
      TrueBytesWithout(items - {first}, k);
      TrueBytesWithout(items - {k}, first);
      assert items - {first} - {k} == items - {k} - {first};
      assert Bytes(items - {first}, k) == Bytes(items, k) && Bytes(items - {k}, first) == Bytes(items, first);
    }
  }

  lemma TrueBytesPut(items: Assets, k: string, a: Asset)
    requires k !in items
    ensures TrueBytes(items[k := a]) == TrueBytes(items) + |a.data|
  {
    TrueBytesWithout(items[k := a], k);
    assert items[k := a] - {k} == items;
  }

  // ------------------------------------------------------------------- the victims

  lemma Unfold(items: Assets, victims: seq<string>)
    requires victims != []
    ensures items - Elements(victims) == items - {victims[0]} - Elements(victims[1..])
  {}

  /** Victims are distinct stored keys, and their bytes are exactly the bytes lost. */
  lemma {:induction false} VictimsLeave(items: Assets, cur: int, newSize: int, maxBytes: int, victims: seq<string>)
    requires Evicts(items, cur, newSize, maxBytes, victims)
    ensures Elements(victims) <= items.Keys && NoDuplicates(victims)
    ensures TrueBytes(items) == TrueBytes(items - Elements(victims)) + VictimBytes(items, victims)
    decreases |victims|
  {
    if victims == [] {
      assert items - Elements(victims) == items;
    } else {
      var v, rest := victims[0], victims[1..];
      VictimsLeave(items - {v}, cur - Bytes(items, v), newSize, maxBytes, rest);
      Unfold(items, victims);
      TrueBytesWithout(items, v);
      assert victims == [v] + rest && v !in Elements(rest);
    }
  }

  /** No victim is younger than an entry that stays. */
  lemma {:induction false} VictimsAreOldest(items: Assets, cur: int, newSize: int, maxBytes: int, victims: seq<string>,
                                            v: string, o: string)
    requires Evicts(items, cur, newSize, maxBytes, victims)
    requires v in victims && o in items && o !in victims
    ensures v in items && items[v].cachedAt <= items[o].cachedAt
    decreases |victims|
  {
    if v != victims[0] {
      VictimsAreOldest(items - {victims[0]}, cur - Bytes(items, victims[0]), newSize, maxBytes, victims[1..], v, o);
    }
  }

  /** Each victim was needed: before it went the budget test still failed. */
  lemma {:induction false} VictimsAreNeeded(items: Assets, cur: int, newSize: int, maxBytes: int, victims: seq<string>,
                                            n: nat)
    requires Evicts(items, cur, newSize, maxBytes, victims) && n < |victims|
    ensures cur - VictimBytes(items, victims[..n]) + newSize > maxBytes
    decreases |victims|
  {
    if n > 0 {
      VictimsAreNeeded(items - {victims[0]}, cur - Bytes(items, victims[0]), newSize, maxBytes, victims[1..], n - 1);
      assert victims[..n][1..] == victims[1..][..n - 1];
    }
  }

  lemma {:induction false} LoopEnds(items: Assets, cur: int, newSize: int, maxBytes: int, victims: seq<string>)
    requires Evicts(items, cur, newSize, maxBytes, victims)
    ensures cur - VictimBytes(items, victims) + newSize <= maxBytes || items - Elements(victims) == map[]
    decreases |victims|
  {
    if victims == [] {
      assert items - Elements(victims) == items;
    } else {
      LoopEnds(items - {victims[0]}, cur - Bytes(items, victims[0]), newSize, maxBytes, victims[1..]);
      Unfold(items, victims);
    }
  }

  /**
   After every `set`: the account is within budget or only the new asset is left;
   no victim was younger than a survivor; and the last victim had to go.
   */
  lemma SetRespectsBudget(s: CacheState, key: string, asset: Asset, victims: seq<string>, t: CacheState)
    requires SetTo(s, key, asset, victims, t)
    ensures t.curBytes <= t.maxBytes || t.items == map[key := asset]
    ensures forall v, o :: v in victims && o in s.items && o !in victims ==>
              v in s.items && s.items[v].cachedAt <= s.items[o].cachedAt
    ensures victims != [] ==>
              StartBytes(s, key) - VictimBytes(s.items, victims[..|victims| - 1]) + |asset.data| > s.maxBytes
    ensures NoDuplicates(victims) && Elements(victims) <= s.items.Keys
  {
    var cur, n := StartBytes(s, key), |asset.data|;
    LoopEnds(s.items, cur, n, s.maxBytes, victims);
    VictimsLeave(s.items, cur, n, s.maxBytes, victims);
    forall v, o | v in victims && o in s.items && o !in victims
      ensures v in s.items && s.items[v].cachedAt <= s.items[o].cachedAt
    {
      VictimsAreOldest(s.items, cur, n, s.maxBytes, victims, v, o);
    }
    if victims != [] {
      VictimsAreNeeded(s.items, cur, n, s.maxBytes, victims, |victims| - 1);
    }
  }

  // ------------------------------------------------------------------- the account

  /** Bytes held that the account no longer shows. */
  ghost function Gap(s: CacheState): int {
    TrueBytes(s.items) - s.curBytes
  }

  datatype Op = OpSet(key: string, asset: Asset, victims: seq<string>) | OpRemove(key: string)

  ghost predicate Step(s: CacheState, op: Op, t: CacheState) {
    match op
    case OpSet(k, a, vs) => SetTo(s, k, a, vs, t)
    case OpRemove(k) => t == RemoveFrom(s, k)
  }

  /** The size of an entry evicted by the very `set` that replaces it, and so subtracted twice. */
  function SelfEvicted(s: CacheState, op: Op): nat {
    if op.OpSet? && op.key in s.items && op.key in op.victims then Bytes(s.items, op.key) else 0
  }

  lemma SetMovesGap(s: CacheState, key: string, asset: Asset, victims: seq<string>, t: CacheState)
    requires SetTo(s, key, asset, victims, t)
    ensures Gap(t) == Gap(s) + SelfEvicted(s, OpSet(key, asset, victims))
  {
    VictimsLeave(s.items, StartBytes(s, key), |asset.data|, s.maxBytes, victims);
    var left := s.items - Elements(victims);
    if key in left {
      TrueBytesWithout(left, key);
      assert left[key := asset] == (left - {key})[key := asset];
      TrueBytesPut(left - {key}, key, asset);
    } else {
      TrueBytesPut(left, key, asset);
    }
  }

  lemma StepMovesGap(s: CacheState, op: Op, t: CacheState)
    requires Step(s, op, t)
    ensures Gap(t) == Gap(s) + SelfEvicted(s, op)
  {
    match op
    case OpSet(k, a, vs) => SetMovesGap(s, k, a, vs, t);
    case OpRemove(k) => if k in s.items { TrueBytesWithout(s.items, k); }
  }

  ghost predicate IsRun(states: seq<CacheState>, ops: seq<Op>) {
    && |states| == |ops| + 1
    && states[0].items == map[] && states[0].curBytes == 0
    && forall n :: 0 <= n < |ops| ==> Step(states[n], ops[n], states[n + 1])
  }

  /** The bytes self-evicted in the first `n` operations. */
  function TotalSelfEvicted(states: seq<CacheState>, ops: seq<Op>, n: nat): nat
    requires n <= |ops| && |states| == |ops| + 1
  {
    if n == 0 then 0 else TotalSelfEvicted(states, ops, n - 1) + SelfEvicted(states[n - 1], ops[n - 1])
  }

  /**
   Over every run, `curBytes` is the bytes held minus a gap that never shrinks, which
   is exactly the total size of the entries evicted by the `set` replacing them.
   */
  lemma {:induction false} AccountingGap(states: seq<CacheState>, ops: seq<Op>, n: nat)
    requires IsRun(states, ops) && n <= |ops|
    ensures states[n].curBytes == TrueBytes(states[n].items) - TotalSelfEvicted(states, ops, n)
  {
    if n > 0 {
      AccountingGap(states, ops, n - 1);
      assert Step(states[n - 1], ops[n - 1], states[n]);
      StepMovesGap(states[n - 1], ops[n - 1], states[n]);
    }
  }
}
