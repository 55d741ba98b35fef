/**
 The byte-budget cache of internal/binaryhandler/handler.go.

 `assetCache.set` makes room by evicting oldest entries first, found by a scan of
 the map in whatever order Go iterates it. The order only matters between entries
 of equal age, so the effect of a `set` is a relation, made a function by naming
 the victims in the order they go.
 */
module AssetCache {
  import opened CacheTypes

  datatype Asset = Asset(data: seq<bv8>, contentType: string, size: int, cachedAt: int)

  type Assets = map<string, Asset>

  datatype CacheState = CacheState(items: Assets, maxBytes: int, curBytes: int)

  function Bytes(items: Assets, k: string): nat
    requires k in items
  {
    |items[k].data|
  }

  predicate IsOldest(items: Assets, k: string) {
    k in items && forall o :: o in items ==> items[k].cachedAt <= items[o].cachedAt
  }

  /**
   `victims` is a complete run of the eviction loop: each is an oldest entry of what
   is left, goes only while the budget test fails, and after the last the test
   passes or nothing is left.
   */
  ghost predicate Evicts(items: Assets, cur: int, newSize: int, maxBytes: int, victims: seq<string>)
    decreases |victims|
  {
    if victims == [] then cur + newSize <= maxBytes || items == map[]
    else
      && cur + newSize > maxBytes
      && IsOldest(items, victims[0])
      && Evicts(items - {victims[0]}, cur - Bytes(items, victims[0]), newSize, maxBytes, victims[1..])
  }

  /** The bytes subtracted for the victims. */
  ghost function VictimBytes(items: Assets, victims: seq<string>): nat
    decreases |victims|
  {
    if victims == [] || victims[0] !in items then 0
    else Bytes(items, victims[0]) + VictimBytes(items - {victims[0]}, victims[1..])
  }

  /** `curBytes` when the loop starts: a replaced entry has already been subtracted. */
  function StartBytes(s: CacheState, key: string): int {
    if key in s.items then s.curBytes - Bytes(s.items, key) else s.curBytes
  }

  /** The effect of `set`. */
  ghost predicate SetTo(s: CacheState, key: string, asset: Asset, victims: seq<string>, t: CacheState) {
    && Evicts(s.items, StartBytes(s, key), |asset.data|, s.maxBytes, victims)
    && t == CacheState((s.items - Elements(victims))[key := asset], s.maxBytes,
                       StartBytes(s, key) - VictimBytes(s.items, victims) + |asset.data|)
  }

  /** The effect of `remove`. */
  function RemoveFrom(s: CacheState, key: string): CacheState {
    if key in s.items then CacheState(s.items - {key}, s.maxBytes, s.curBytes - Bytes(s.items, key)) else s
  }

  // -------------------------------------------------------------------- the scan

  /** The scan for an oldest entry over the keys in a given order: key found, and its time. */
  function Scan(items: Assets, order: seq<string>): (string, int)
    requires Elements(order) <= items.Keys
  {
    if order == [] then ("", 0)
    else
      var k := order[|order| - 1];
      assert forall x :: x in order[..|order| - 1] ==> x in Elements(order);
      assert k in Elements(order);
      var (best, time) := Scan(items, order[..|order| - 1]);
      if best == "" || items[k].cachedAt < time then (k, items[k].cachedAt) else (best, time)
  }

  /** Every key exactly once. */
  ghost predicate Enumerates(order: seq<string>, items: Assets) {
    Elements(order) == items.Keys && |order| == |items|
  }

  lemma ScanAppend(items: Assets, order: seq<string>, k: string)
    requires Elements(order) <= items.Keys && k in items
    ensures Elements(order + [k]) == Elements(order) + {k}
    ensures var (best, time) := Scan(items, order);
            Scan(items, order + [k]) ==
            if best == "" || items[k].cachedAt < time then (k, items[k].cachedAt) else (best, time)
  {}

  /** Without the empty key, the scan of a non-empty sequence finds a minimum. */
  lemma {:induction false} ScanFindsMinimum(items: Assets, order: seq<string>)
    requires Elements(order) <= items.Keys && order != [] && "" !in Elements(order)
    ensures var (best, time) := Scan(items, order);
            && best in Elements(order) && time == items[best].cachedAt
            && forall o :: o in Elements(order) ==> time <= items[o].cachedAt
  {
    var prefix, k := order[..|order| - 1], order[|order| - 1];
    assert order == prefix + [k];
    assert Elements(order) == Elements(prefix) + {k};
    if prefix != [] { ScanFindsMinimum(items, prefix); }
  }

  lemma ScanFindsOldest(items: Assets, order: seq<string>)
    requires Enumerates(order, items) && items != map[] && "" !in items
    ensures IsOldest(items, Scan(items, order).0)
  {
    var some :| some in items;
    assert some in Elements(order);
    ScanFindsMinimum(items, order);
  }

  // ------------------------------------------------------------------ the object

  class AssetCache {
    var items: Assets
    const maxBytes: int
    var curBytes: int
    var hits: nat
    var misses: nat

    function State(): CacheState
      reads this
    {
      CacheState(items, maxBytes, curBytes)
    }

    constructor (maxBytes: int)
      ensures State() == CacheState(map[], maxBytes, 0) && hits == misses == 0
    {
      this.maxBytes := maxBytes;
      items, curBytes, hits, misses := map[], 0, 0, 0;
    }

    method Get(key: string) returns (found: Option<Asset>)
      modifies this`hits, this`misses
      ensures found == if key in items then Some(items[key]) else None
      ensures hits == old(hits) + (if key in items then 1 else 0)
      ensures misses == old(misses) + (if key in items then 0 else 1)
    {
      if key in items {
        hits := hits + 1;
        return Some(items[key]);
      }
      misses := misses + 1;
      return None;
    }

    /** The inner loop: a scan of the map in some order, with the empty key as "none found yet". */
    method FindOldest() returns (oldestKey: string, ghost order: seq<string>)
      ensures Enumerates(order, items) && oldestKey == Scan(items, order).0
      ensures "" !in items && items != map[] ==> IsOldest(items, oldestKey)
    {
      oldestKey := "";
      var oldestTime := 0;
      order := [];
      var rest := items.Keys;
      while rest != {}
        invariant rest <= items.Keys && Elements(order) == items.Keys - rest
        invariant |order| + |rest| == |items|
        invariant (oldestKey, oldestTime) == Scan(items, order)
        decreases rest
      {
        var k :| k in rest;
        ScanAppend(items, order, k);
        if oldestKey == "" || items[k].cachedAt < oldestTime {
          oldestKey := k;
          oldestTime := items[k].cachedAt;
        }
        order := order + [k];
        rest := rest - {k};
      }
      if "" !in items && items != map[] {
        ScanFindsOldest(items, order);
      }
    }

    /** The eviction loop of `set`. */
    method MakeRoom(newSize: nat) returns (ghost victims: seq<string>)
      requires "" in items ==> curBytes + newSize <= maxBytes
      modifies this`items, this`curBytes
      ensures "" in old(items) ==> victims == []
      ensures Evicts(old(items), old(curBytes), newSize, maxBytes, victims)
      ensures items == old(items) - Elements(victims)
      ensures curBytes == old(curBytes) - VictimBytes(old(items), victims)
    {
      ghost var items0, cur0 := items, curBytes;
      victims := [];
      while curBytes + newSize > maxBytes && |items| > 0
        invariant "" in items ==> curBytes + newSize <= maxBytes
        invariant "" in items0 ==> victims == []
        invariant EvictsTo(items0, cur0, newSize, maxBytes, victims, items, curBytes)
        decreases |items|
      {
        var oldestKey, _ := FindOldest();
        if oldestKey != "" {
          OneMoreVictim(items0, cur0, newSize, maxBytes, victims, items, curBytes, oldestKey);
          victims := victims + [oldestKey];
          curBytes := curBytes - |items[oldestKey].data|;
          OneFewer(items, oldestKey);
          items := items - {oldestKey};
        }
      }
      LoopDone(items0, cur0, newSize, maxBytes, victims, items, curBytes);
    }

    /**
     `set`. If the empty key is already cached and there is too little room, the loop need
     not end (see AssetScan); the handlers never pass the empty key.
     */
    method Set(key: string, asset: Asset) returns (ghost victims: seq<string>)
      requires "" in items ==> StartBytes(State(), key) + |asset.data| <= maxBytes
      modifies this`items, this`curBytes
      ensures SetTo(old(State()), key, asset, victims, State())
      ensures "" in items <==> key == "" || "" in old(items)
    {
      if key in items {
        curBytes := curBytes - |items[key].data|;
      }
      var newSize := |asset.data|;
      victims := MakeRoom(newSize);
      items := items[key := asset];
      curBytes := curBytes + newSize;
    }

    method Remove(key: string)
      modifies this`items, this`curBytes
      ensures State() == RemoveFrom(old(State()), key)
    {
      if key in items {
        curBytes := curBytes - |items[key].data|;
        items := items - {key};
      }
    }
  }

  lemma OneFewer(items: Assets, k: string)
    requires k in items
    ensures |items - {k}| == |items| - 1
  {}

  /** Part of a run of the eviction loop: from `items` and `cur` to `items1` and `cur1`. */
  ghost predicate EvictsTo(items: Assets, cur: int, newSize: int, maxBytes: int, victims: seq<string>,
                           items1: Assets, cur1: int)
    decreases |victims|
  {
    if victims == [] then items1 == items && cur1 == cur
    else
      && cur + newSize > maxBytes
      && IsOldest(items, victims[0])
      && EvictsTo(items - {victims[0]}, cur - Bytes(items, victims[0]), newSize, maxBytes, victims[1..], items1, cur1)
  }

  lemma {:induction false} OneMoreVictim(items: Assets, cur: int, newSize: int, maxBytes: int, victims: seq<string>,
                                         items1: Assets, cur1: int, k: string)
    requires EvictsTo(items, cur, newSize, maxBytes, victims, items1, cur1)
    requires cur1 + newSize > maxBytes && IsOldest(items1, k)
    ensures EvictsTo(items, cur, newSize, maxBytes, victims + [k], items1 - {k}, cur1 - Bytes(items1, k))
    decreases |victims|
  {
    if victims == [] {
      assert [] + [k] == [k] && [k][1..] == [];
    } else {
      assert (victims + [k])[1..] == victims[1..] + [k];
      OneMoreVictim(items - {victims[0]}, cur - Bytes(items, victims[0]), newSize, maxBytes,
                    victims[1..], items1, cur1, k);
    }
  }

  lemma {:induction false} LoopDone(items: Assets, cur: int, newSize: int, maxBytes: int, victims: seq<string>,
                                    items1: Assets, cur1: int)
    requires EvictsTo(items, cur, newSize, maxBytes, victims, items1, cur1)
    requires cur1 + newSize <= maxBytes || items1 == map[]
    ensures Evicts(items, cur, newSize, maxBytes, victims)
    ensures items1 == items - Elements(victims) && cur1 == cur - VictimBytes(items, victims)
    decreases |victims|
  {
    if victims == [] {
      assert items - Elements(victims) == items;
    } else {
      var v := victims[0];
      LoopDone(items - {v}, cur - Bytes(items, v), newSize, maxBytes, victims[1..], items1, cur1);
      assert Elements(victims) == {v} + Elements(victims[1..]);
    }
  }
}
