/**
 The empty key is both a possible map key and the scan's "none found yet"
 (internal/binaryhandler/handler.go). This module says exactly when that matters:
 the eviction loop makes progress whatever order Go iterates the map in, unless
 the map holds the empty key with an age strictly greater than every other's.
 */
module AssetScan {
  import opened CacheTypes
  import opened AssetCache
  import opened AssetCacheRuns

  /** Every iteration order yields a key to evict. */
  ghost predicate AlwaysFindsVictim(items: Assets) {
    forall order :: Enumerates(order, items) ==> Scan(items, order).0 != ""
  }

  ghost predicate EmptyKeyStrictlyOldest(items: Assets) {
    "" in items && forall k :: k in items && k != "" ==> items[""].cachedAt < items[k].cachedAt
  }

  lemma {:induction false} Listing(s: set<string>) returns (order: seq<string>)
    ensures Elements(order) == s && |order| == |s|
  {
    if s == {} {
      order := [];
    } else {
      var x :| x in s;
      var rest := Listing(s - {x});
      order := rest + [x];
      assert Elements(order) == Elements(rest) + {x};
    }
  }

  /** The scan misses only by ending on the empty key, and only past a minimum older than it. */
  lemma LastKeyDecides(items: Assets, order: seq<string>)
    requires Enumerates(order, items) && order != []
    ensures Scan(items, order).0 == "" ==> order[|order| - 1] == ""
  {}

  lemma PrefixWithout(items: Assets, order: seq<string>)
    requires Enumerates(order, items) && order != []
    ensures Elements(order[..|order| - 1]) == items.Keys - {order[|order| - 1]}
  {
    var prefix, k := order[..|order| - 1], order[|order| - 1];
    assert order == prefix + [k];
    assert Elements(order) == Elements(prefix) + {k};
    ElementsBound(prefix);
    assert k in Elements(prefix) ==> Elements(prefix) + {k} == Elements(prefix);
    assert |items| == |items.Keys|;
  }

  lemma MissMeansEmptyOldest(items: Assets, order: seq<string>)
    requires Enumerates(order, items) && items != map[] && Scan(items, order).0 == ""
    ensures EmptyKeyStrictlyOldest(items)
  {
    var some :| some in items;
    assert some in Elements(order);
    LastKeyDecides(items, order);
    PrefixWithout(items, order);
    var prefix := order[..|order| - 1];
    assert "" in Elements(order) by { assert order[|order| - 1] == ""; }
    if prefix != [] { ScanFindsMinimum(items, prefix); }
    forall k | k in items && k != "" ensures items[""].cachedAt < items[k].cachedAt {
      assert k in Elements(prefix);
    }
  }

  lemma EmptyOldestIsMissed(items: Assets) returns (order: seq<string>)
    requires EmptyKeyStrictlyOldest(items)
    ensures Enumerates(order, items) && Scan(items, order).0 == ""
  {
    var rest := Listing(items.Keys - {""});
    order := rest + [""];
    assert Elements(order) == Elements(rest) + {""};
    if rest != [] {
      ScanFindsMinimum(items, rest);
    }
    ScanAppend(items, rest, "");
  }

  /**
   A pass of the eviction loop over a non-empty cache finds something to evict in
   every iteration order if and only if the empty key is not strictly the oldest.
   When it is, there is an order in which the pass changes nothing.
   */
  lemma AlwaysFindsVictimIff(items: Assets)
    requires items != map[]
    ensures AlwaysFindsVictim(items) <==> !EmptyKeyStrictlyOldest(items)
  {
    if EmptyKeyStrictlyOldest(items) {
      var order := EmptyOldestIsMissed(items);
    } else {
      forall order | Enumerates(order, items) ensures Scan(items, order).0 != "" {
        if Scan(items, order).0 == "" { MissMeansEmptyOldest(items, order); }
      }
    }
  }

  // ------------------------------------------------------------ whether the loop ends

  /** Passes of the eviction loop, each over the map in a given order; one that finds the empty key does nothing. */
  ghost predicate Passes(items: Assets, cur: int, newSize: int, maxBytes: int, orders: seq<seq<string>>,
                         items1: Assets, cur1: int)
    decreases |orders|
  {
    if orders == [] then items1 == items && cur1 == cur
    else
      && cur + newSize > maxBytes && items != map[] && Enumerates(orders[0], items)
      && var v := Scan(items, orders[0]).0;
      && (v != "" ==> v in items)
      && if v == "" then Passes(items, cur, newSize, maxBytes, orders[1..], items1, cur1)
         else Passes(items - {v}, cur - Bytes(items, v), newSize, maxBytes, orders[1..], items1, cur1)
  }

  /** Some passes bring the loop to its end. */
  ghost predicate CanEnd(items: Assets, cur: int, newSize: int, maxBytes: int) {
    exists orders, items1, cur1 :: Passes(items, cur, newSize, maxBytes, orders, items1, cur1)
                                   && (cur1 + newSize <= maxBytes || items1 == map[])
  }

  /** The empty key is never evicted, so what the others free is all there is. */
  lemma {:induction false} PassesKeepEmptyKey(items: Assets, cur: int, newSize: int, maxBytes: int,
                                              orders: seq<seq<string>>, items1: Assets, cur1: int)
    requires "" in items && Passes(items, cur, newSize, maxBytes, orders, items1, cur1)
    ensures "" in items1 && cur1 - TrueBytes(items1 - {""}) == cur - TrueBytes(items - {""})
    decreases |orders|
  {
    if orders != [] {
      var v := Scan(items, orders[0]).0;
      if v == "" {
        PassesKeepEmptyKey(items, cur, newSize, maxBytes, orders[1..], items1, cur1);
      } else {
        PassesKeepEmptyKey(items - {v}, cur - Bytes(items, v), newSize, maxBytes, orders[1..], items1, cur1);
        TrueBytesWithout(items - {""}, v);
        assert items - {""} - {v} == items - {v} - {""};
      }
    }
  }

  lemma {:induction false} ScanFindsKey(items: Assets, order: seq<string>)
    requires Elements(order) <= items.Keys && Scan(items, order).0 != ""
    ensures Scan(items, order).0 in items
  {
    if order != [] {
      var prefix, k := order[..|order| - 1], order[|order| - 1];
      assert k in Elements(order) && Elements(prefix) <= Elements(order);
      if Scan(items, prefix).0 != "" { ScanFindsKey(items, prefix); }
    }
  }

  /** An order that does not end on the empty key finds something to evict. */
  lemma FindingOrder(items: Assets, k: string) returns (order: seq<string>)
    requires k in items && k != ""
    ensures Enumerates(order, items) && Scan(items, order).0 != "" && Scan(items, order).0 in items
  {
    var rest := Listing(items.Keys - {k});
    order := rest + [k];
    assert Elements(order) == Elements(rest) + {k};
    LastKeyDecides(items, order);
    ScanFindsKey(items, order);
  }

  lemma {:induction false} PassesToTheEnd(items: Assets, cur: int, newSize: int, maxBytes: int)
    returns (orders: seq<seq<string>>, items1: Assets, cur1: int)
    requires "" in items && cur - TrueBytes(items - {""}) + newSize <= maxBytes
    ensures Passes(items, cur, newSize, maxBytes, orders, items1, cur1) && cur1 + newSize <= maxBytes
    decreases |items|
  {
    if cur + newSize <= maxBytes {
      orders, items1, cur1 := [], items, cur;
    } else {
      var k :| k in items - {""};
      var order := FindingOrder(items, k);
      var v := Scan(items, order).0;
      TrueBytesWithout(items - {""}, v);
      assert items - {""} - {v} == items - {v} - {""};
      orders, items1, cur1 := PassesToTheEnd(items - {v}, cur - Bytes(items, v), newSize, maxBytes);
      assert ([order] + orders)[1..] == orders;
      orders := [order] + orders;
    }
  }

  /**
   With the empty key cached, the loop can end if and only if evicting every other
   entry makes enough room: no order of iteration ever evicts the empty key.
   */
  lemma LoopCanEndIff(items: Assets, cur: int, newSize: int, maxBytes: int)
    requires "" in items
    ensures CanEnd(items, cur, newSize, maxBytes) <==> cur - TrueBytes(items - {""}) + newSize <= maxBytes
  {
    if orders, items1, cur1 :| Passes(items, cur, newSize, maxBytes, orders, items1, cur1)
                               && (cur1 + newSize <= maxBytes || items1 == map[]) {
      PassesKeepEmptyKey(items, cur, newSize, maxBytes, orders, items1, cur1);
    }
    if cur - TrueBytes(items - {""}) + newSize <= maxBytes {
      var orders, items1, cur1 := PassesToTheEnd(items, cur, newSize, maxBytes);
    }
  }

  /** A cache left with only the empty key, and no room, is stuck: the loop cannot end. */
  lemma OnlyEmptyKeyNeverEvicted(a: Asset, cur: int, newSize: int, maxBytes: int)
    requires cur + newSize > maxBytes
    ensures forall order :: Enumerates(order, map["" := a]) ==> Scan(map["" := a], order).0 == ""
    ensures !CanEnd(map["" := a], cur, newSize, maxBytes)
  {
    LoopCanEndIff(map["" := a], cur, newSize, maxBytes);
    assert map["" := a] - {""} == map[];
  }
}
