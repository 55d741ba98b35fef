/**
 When `curBytes` is the number of bytes held (internal/binaryhandler/handler.go).

 A `set` subtracts the size of an entry it replaces before it makes room, and leaves
 the entry in the map, so the eviction loop may subtract it again. Whether it does
 is decided before the call: the loop reaches the entry if and only if evicting all
 older entries does not make enough room.
 */
module AssetAccounting {
  import opened CacheTypes
  import opened AssetCache
  import opened AssetCacheRuns
  import S = AssetScan

  /** The other entries that go before `k`: those strictly older, and with `ties` those of its age too. */
  function Before(items: Assets, k: string, ties: bool): Assets
    requires k in items
  {
    map o | && o in items && o != k
            && (items[o].cachedAt < items[k].cachedAt || (ties && items[o].cachedAt == items[k].cachedAt))
      :: items[o]
  }

  /** Evicting everything that goes before `k` still leaves the account over budget. */
  ghost predicate Reached(items: Assets, cur: int, newSize: int, maxBytes: int, k: string, ties: bool)
    requires k in items
  {
    cur - TrueBytes(Before(items, k, ties)) + newSize > maxBytes
  }

  // --------------------------------------------------------------- every order

  lemma BeforeWithout(items: Assets, v: string, k: string, ties: bool)
    requires v in items && k in items && v != k
    ensures v in Before(items, k, ties) ==>
              && TrueBytes(Before(items, k, ties)) == Bytes(items, v) + TrueBytes(Before(items - {v}, k, ties))
    ensures v !in Before(items, k, ties) ==> Before(items, k, ties) == Before(items - {v}, k, ties)
  {
    var b := Before(items, k, ties);
    assert Before(items - {v}, k, ties) == b - {v};
    if v in b { TrueBytesWithout(b, v); }
  }

  /** A victim is reached, if all entries of its age are taken to go after it. */
  lemma {:induction false} VictimsAreReached(items: Assets, cur: int, newSize: int, maxBytes: int, victims: seq<string>,
                                             k: string)
    requires Evicts(items, cur, newSize, maxBytes, victims) && k in items && k in victims
    ensures Reached(items, cur, newSize, maxBytes, k, false)
    decreases |victims|
  {
    var v := victims[0];
    if v == k {
      assert Before(items, k, false) == map[];
    } else {
      VictimsAreReached(items - {v}, cur - Bytes(items, v), newSize, maxBytes, victims[1..], k);
      BeforeWithout(items, v, k, false);
    }
  }

  /** What is reached even after all entries of its age is a victim. */
  lemma {:induction false} ReachedAreVictims(items: Assets, cur: int, newSize: int, maxBytes: int, victims: seq<string>,
                                             k: string)
    requires Evicts(items, cur, newSize, maxBytes, victims) && k in items
    requires Reached(items, cur, newSize, maxBytes, k, true)
    ensures k in victims
    decreases |victims|
  {
    if victims != [] && victims[0] != k {
      var v := victims[0];
      BeforeWithout(items, v, k, true);
      ReachedAreVictims(items - {v}, cur - Bytes(items, v), newSize, maxBytes, victims[1..], k);
    }
  }

  // ---------------------------------------------------------------- some order

  lemma {:induction false} Oldest(items: Assets) returns (v: string)
    requires items != map[]
    ensures IsOldest(items, v)
    decreases |items|
  {
    v :| v in items;
    if items - {v} != map[] {
      var w := Oldest(items - {v});
      assert forall o :: o in items && o != v ==> o in items - {v};
      if items[w].cachedAt < items[v].cachedAt { v := w; }
    }
  }

  /** The next victim of an order that puts `k` first or, with `ties`, last among the entries of its age. */
  lemma NextVictim(items: Assets, k: string, ties: bool) returns (v: string)
    requires items != map[]
    ensures IsOldest(items, v)
    ensures k in items ==> if Before(items, k, ties) == map[] then v == k else v in Before(items, k, ties)
  {
    if k !in items {
      v := Oldest(items);
    } else {
      var b := Before(items, k, ties);
      if b == map[] {
        v := k;
        assert forall o :: o in items ==> o !in b;
      } else {
        v := Oldest(b);
        assert forall o :: o in items && o !in b ==> items[k].cachedAt <= items[o].cachedAt;
      }
    }
  }

  /** The loop can run in an order that puts `k` first or, with `ties`, last among the entries of its age. */
  lemma {:induction false} EvictionOrder(items: Assets, cur: int, newSize: int, maxBytes: int, k: string, ties: bool)
    returns (victims: seq<string>)
    ensures Evicts(items, cur, newSize, maxBytes, victims)
    ensures k in items ==> (k in victims <==> Reached(items, cur, newSize, maxBytes, k, ties))
    decreases |items|
  {
    victims := [];
    if cur + newSize > maxBytes && items != map[] {
      var v := NextVictim(items, k, ties);
      var rest := EvictionOrder(items - {v}, cur - Bytes(items, v), newSize, maxBytes, k, ties);
      victims := [v] + rest;
      assert victims[1..] == rest;
      if k in items && v != k { BeforeWithout(items, v, k, ties); }
    }
  }

  // -------------------------------------------- victims and orders of iteration

  /** The eviction loop itself: before each victim goes, the map is scanned in the given order. */
  ghost predicate LoopRuns(items: Assets, cur: int, newSize: int, maxBytes: int, orders: seq<seq<string>>,
                           victims: seq<string>)
    decreases |orders|
  {
    if orders == [] then victims == [] && (cur + newSize <= maxBytes || items == map[])
    else
      && cur + newSize > maxBytes && items != map[] && Enumerates(orders[0], items)
      && victims != [] && victims[0] == Scan(items, orders[0]).0 && victims[0] in items
      && LoopRuns(items - {victims[0]}, cur - Bytes(items, victims[0]), newSize, maxBytes, orders[1..], victims[1..])
  }

  /** The loop can evict exactly these, in the right orders of iteration. */
  ghost predicate InSomeOrders(items: Assets, cur: int, newSize: int, maxBytes: int, victims: seq<string>) {
    exists orders :: LoopRuns(items, cur, newSize, maxBytes, orders, victims)
  }

  lemma {:induction false} ScanKeepsOldest(items: Assets, v: string, rest: seq<string>)
    requires IsOldest(items, v) && v != "" && Elements(rest) <= items.Keys
    ensures Elements([v] + rest) <= items.Keys && Scan(items, [v] + rest) == (v, items[v].cachedAt)
  {
    assert Elements([v] + rest) == {v} + Elements(rest);
    if rest == [] {
      assert [v] + rest == [] + [v];
      ScanAppend(items, [], v);
    } else {
      var prefix, k := rest[..|rest| - 1], rest[|rest| - 1];
      assert k in Elements(rest) && Elements(prefix) <= Elements(rest);
      ScanKeepsOldest(items, v, prefix);
      ScanAppend(items, [v] + prefix, k);
      assert [v] + rest == [v] + prefix + [k];
    }
  }

  /** Every oldest entry is found by the scan in some order. */
  lemma OrderFinding(items: Assets, v: string) returns (order: seq<string>)
    requires IsOldest(items, v) && v != ""
    ensures Enumerates(order, items) && Scan(items, order).0 == v
  {
    var rest := S.Listing(items.Keys - {v});
    order := [v] + rest;
    assert Elements(order) == {v} + Elements(rest);
    ScanKeepsOldest(items, v, rest);
  }

  lemma {:induction false} LoopEvicts(items: Assets, cur: int, newSize: int, maxBytes: int, orders: seq<seq<string>>,
                                      victims: seq<string>)
    requires "" !in items && LoopRuns(items, cur, newSize, maxBytes, orders, victims)
    ensures Evicts(items, cur, newSize, maxBytes, victims)
    decreases |orders|
  {
    if orders != [] {
      var v := victims[0];
      ScanFindsOldest(items, orders[0]);
      LoopEvicts(items - {v}, cur - Bytes(items, v), newSize, maxBytes, orders[1..], victims[1..]);
    }
  }

  lemma {:induction false} OrdersFor(items: Assets, cur: int, newSize: int, maxBytes: int, victims: seq<string>)
    returns (orders: seq<seq<string>>)
    requires "" !in items && Evicts(items, cur, newSize, maxBytes, victims)
    ensures LoopRuns(items, cur, newSize, maxBytes, orders, victims)
    decreases |victims|
  {
    if victims == [] {
      orders := [];
    } else {
      var v := victims[0];
      var order := OrderFinding(items, v);
      var rest := OrdersFor(items - {v}, cur - Bytes(items, v), newSize, maxBytes, victims[1..]);
      orders := [order] + rest;
      assert orders[1..] == rest;
    }
  }

  /** Without the empty key, `Evicts` describes exactly what the loop does in some orders of iteration. */
  lemma VictimsAreOrders(items: Assets, cur: int, newSize: int, maxBytes: int, victims: seq<string>)
    requires "" !in items
    ensures Evicts(items, cur, newSize, maxBytes, victims) <==> InSomeOrders(items, cur, newSize, maxBytes, victims)
  {
    if Evicts(items, cur, newSize, maxBytes, victims) {
      var orders := OrdersFor(items, cur, newSize, maxBytes, victims);
    } else if InSomeOrders(items, cur, newSize, maxBytes, victims) {
      var orders :| LoopRuns(items, cur, newSize, maxBytes, orders, victims);
      LoopEvicts(items, cur, newSize, maxBytes, orders, victims);
      assert false;
    }
  }

  /** Some iteration orders of the map evict `k` if and only if the older entries do not make enough room. */
  lemma EvictedInSomeOrderIff(items: Assets, cur: int, newSize: int, maxBytes: int, k: string)
    requires k in items
    ensures (exists vs :: Evicts(items, cur, newSize, maxBytes, vs) && k in vs)
            <==> Reached(items, cur, newSize, maxBytes, k, false)
    ensures "" !in items ==>
              ((exists vs :: InSomeOrders(items, cur, newSize, maxBytes, vs) && k in vs)
               <==> Reached(items, cur, newSize, maxBytes, k, false))
  {
    if "" !in items {
      forall vs
        ensures Evicts(items, cur, newSize, maxBytes, vs) <==> InSomeOrders(items, cur, newSize, maxBytes, vs)
      {
        VictimsAreOrders(items, cur, newSize, maxBytes, vs);
      }
    }
    var victims := EvictionOrder(items, cur, newSize, maxBytes, k, false);
    if vs :| Evicts(items, cur, newSize, maxBytes, vs) && k in vs {
      VictimsAreReached(items, cur, newSize, maxBytes, vs, k);
    }
  }

  /** Every order does if and only if the entries no younger do not make enough room. */
  lemma EvictedInEveryOrderIff(items: Assets, cur: int, newSize: int, maxBytes: int, k: string)
    requires k in items
    ensures (forall vs :: Evicts(items, cur, newSize, maxBytes, vs) ==> k in vs)
            <==> Reached(items, cur, newSize, maxBytes, k, true)
    ensures "" !in items ==>
              ((forall vs :: InSomeOrders(items, cur, newSize, maxBytes, vs) ==> k in vs)
               <==> Reached(items, cur, newSize, maxBytes, k, true))
  {
    if "" !in items {
      forall vs
        ensures Evicts(items, cur, newSize, maxBytes, vs) <==> InSomeOrders(items, cur, newSize, maxBytes, vs)
      {
        VictimsAreOrders(items, cur, newSize, maxBytes, vs);
      }
    }
    var victims := EvictionOrder(items, cur, newSize, maxBytes, k, true);
    if Reached(items, cur, newSize, maxBytes, k, true) {
      forall vs | Evicts(items, cur, newSize, maxBytes, vs) ensures k in vs {
        ReachedAreVictims(items, cur, newSize, maxBytes, vs, k);
      }
    }
  }

  // ------------------------------------------------------------------- one call

  datatype Request = Put(key: string, asset: Asset) | Drop(key: string)

  function Asked(op: Op): Request {
    match op
    case OpSet(k, a, _) => Put(k, a)
    case OpRemove(k) => Drop(k)
  }

  /**
   Decided before the call: it replaces a non-empty entry, and its eviction loop
   reaches that entry in some order or, with `ties`, in every order.
   */
  ghost predicate SubtractsTwice(s: CacheState, q: Request, ties: bool) {
    && q.Put? && q.key in s.items && 0 < Bytes(s.items, q.key)
    && Reached(s.items, StartBytes(s, q.key), |q.asset.data|, s.maxBytes, q.key, ties)
  }

  /** No other entry has the age of the one replaced, so the order of the victims is decided. */
  predicate Untied(s: CacheState, q: Request) {
    q.Put? && q.key in s.items ==>
      forall o :: o in s.items && o != q.key ==> s.items[o].cachedAt != s.items[q.key].cachedAt
  }

  lemma UntiedDecides(s: CacheState, q: Request)
    requires Untied(s, q)
    ensures SubtractsTwice(s, q, false) <==> SubtractsTwice(s, q, true)
  {
    if q.Put? && q.key in s.items {
      assert Before(s.items, q.key, false) == Before(s.items, q.key, true);
    }
  }

  lemma CallSelfEvicts(s: CacheState, op: Op, t: CacheState)
    requires Step(s, op, t)
    ensures 0 < SelfEvicted(s, op) ==> SubtractsTwice(s, Asked(op), false)
    ensures SubtractsTwice(s, Asked(op), true) ==> 0 < SelfEvicted(s, op)
  {
    if op.OpSet? && op.key in s.items {
      var cur := StartBytes(s, op.key);
      if op.key in op.victims {
        VictimsAreReached(s.items, cur, |op.asset.data|, s.maxBytes, op.victims, op.key);
      } else if SubtractsTwice(s, Asked(op), true) {
        ReachedAreVictims(s.items, cur, |op.asset.data|, s.maxBytes, op.victims, op.key);
      }
    }
  }

  /** Every request can be carried out, in an order that subtracts twice if any does. */
  lemma SomeStep(s: CacheState, q: Request) returns (op: Op, t: CacheState)
    ensures Step(s, op, t) && Asked(op) == q && t.maxBytes == s.maxBytes
    ensures SubtractsTwice(s, q, false) ==> 0 < SelfEvicted(s, op)
  {
    match q
    case Drop(k) => op, t := OpRemove(k), RemoveFrom(s, k);
    case Put(k, a) =>
      var cur := StartBytes(s, k);
      var vs := EvictionOrder(s.items, cur, |a.data|, s.maxBytes, k, false);
      op := OpSet(k, a, vs);
      t := CacheState((s.items - Elements(vs))[k := a], s.maxBytes, cur - VictimBytes(s.items, vs) + |a.data|);
  }

  // ----------------------------------------------------------------- whole runs

  ghost predicate Exact(s: CacheState) {
    s.curBytes == TrueBytes(s.items)
  }

  lemma {:induction false} SelfEvictedSome(states: seq<CacheState>, ops: seq<Op>, n: nat)
    requires n <= |ops| && |states| == |ops| + 1
    ensures TotalSelfEvicted(states, ops, n) == 0 <==>
            forall m :: 0 <= m < n ==> SelfEvicted(states[m], ops[m]) == 0
  {
    if n > 0 { SelfEvictedSome(states, ops, n - 1); }
  }

  /**
   The account is exact after a run if no call of it subtracts twice in some order,
   and only if none does in every order.
   */
  lemma AccountingBounds(states: seq<CacheState>, ops: seq<Op>, n: nat)
    requires IsRun(states, ops) && n <= |ops|
    ensures (forall m :: 0 <= m < n ==> !SubtractsTwice(states[m], Asked(ops[m]), false)) ==> Exact(states[n])
    ensures Exact(states[n]) ==> forall m :: 0 <= m < n ==> !SubtractsTwice(states[m], Asked(ops[m]), true)
  {
    AccountingGap(states, ops, n);
    SelfEvictedSome(states, ops, n);
    forall m | 0 <= m < n
      ensures 0 < SelfEvicted(states[m], ops[m]) ==> SubtractsTwice(states[m], Asked(ops[m]), false)
      ensures SubtractsTwice(states[m], Asked(ops[m]), true) ==> 0 < SelfEvicted(states[m], ops[m])
    {
      CallSelfEvicts(states[m], ops[m], states[m + 1]);
    }
  }

  /** Where ages do not tie, the two meet: the account is exact if and only if no call subtracted twice. */
  lemma AccountingExactIff(states: seq<CacheState>, ops: seq<Op>, n: nat)
    requires IsRun(states, ops) && n <= |ops|
    requires forall m :: 0 <= m < n ==> Untied(states[m], Asked(ops[m]))
    ensures Exact(states[n]) <==> forall m :: 0 <= m < n ==> !SubtractsTwice(states[m], Asked(ops[m]), false)
  {
    AccountingBounds(states, ops, n);
    forall m | 0 <= m < n
      ensures SubtractsTwice(states[m], Asked(ops[m]), false) <==> SubtractsTwice(states[m], Asked(ops[m]), true)
    {
      UntiedDecides(states[m], Asked(ops[m]));
    }
  }

  /** A run that carries out the given requests from an empty cache, in some order of evictions. */
  ghost predicate Carries(states: seq<CacheState>, ops: seq<Op>, maxBytes: int, requests: seq<Request>) {
    && IsRun(states, ops) && states[0].maxBytes == maxBytes
    && |ops| == |requests| && forall n :: 0 <= n < |ops| ==> Asked(ops[n]) == requests[n]
  }

  /** Without the empty key, such runs are exactly those of the loop in some orders of iteration. */
  lemma {:induction false} RunsAreOrders(states: seq<CacheState>, ops: seq<Op>, n: nat)
    requires IsRun(states, ops) && n <= |ops| && forall m :: 0 <= m < |ops| ==> ops[m].key != ""
    ensures "" !in states[n].items
    ensures n < |ops| && ops[n].OpSet? ==>
              InSomeOrders(states[n].items, StartBytes(states[n], ops[n].key), |ops[n].asset.data|,
                           states[n].maxBytes, ops[n].victims)
  {
    if n > 0 {
      RunsAreOrders(states, ops, n - 1);
      assert Step(states[n - 1], ops[n - 1], states[n]);
    }
    if n < |ops| && ops[n].OpSet? {
      assert Step(states[n], ops[n], states[n + 1]);
      VictimsAreOrders(states[n].items, StartBytes(states[n], ops[n].key), |ops[n].asset.data|, states[n].maxBytes,
                       ops[n].victims);
    }
  }

  /** A run of some of the requests can be carried on to all of them, its next call subtracting twice if it can. */
  lemma {:induction false} CarryOn(states: seq<CacheState>, ops: seq<Op>, maxBytes: int, requests: seq<Request>)
    returns (states': seq<CacheState>, ops': seq<Op>)
    requires |ops| <= |requests| && Carries(states, ops, maxBytes, requests[..|ops|])
    ensures Carries(states', ops', maxBytes, requests)
    ensures |ops| < |requests| && SubtractsTwice(states[|ops|], requests[|ops|], false) ==> !Exact(states'[|requests|])
    ensures !Exact(states[|ops|]) ==> !Exact(states'[|requests|])
    decreases |requests| - |ops|
  {
    states', ops' := states, ops;
    if |ops| < |requests| {
      var op, t := SomeStep(states[|ops|], requests[|ops|]);
      var more, mops := states + [t], ops + [op];
      assert forall n :: 0 <= n < |ops| ==> Asked(ops[n]) == requests[..|ops|][n];
      AccountingGap(states, ops, |ops|);
      StepMovesGap(states[|ops|], op, t);
      states', ops' := CarryOn(more, mops, maxBytes, requests);
    } else {
      assert requests[..|ops|] == requests;
    }
  }

  lemma RunPrefix(states: seq<CacheState>, ops: seq<Op>, maxBytes: int, requests: seq<Request>, m: nat)
    requires Carries(states, ops, maxBytes, requests) && m <= |requests|
    ensures Carries(states[..m + 1], ops[..m], maxBytes, requests[..m])
  {}

  /**
   For any requests: whatever orders the map is iterated in, the account is exact at
   the end, if and only if in no order any call subtracts twice.
   */
  lemma AlwaysExactIff(maxBytes: int, requests: seq<Request>)
    ensures (forall states, ops :: Carries(states, ops, maxBytes, requests) ==> Exact(states[|requests|]))
            <==> (forall states, ops, m :: Carries(states, ops, maxBytes, requests) && 0 <= m < |requests| ==>
                    !SubtractsTwice(states[m], requests[m], false))
  {
    forall states, ops | Carries(states, ops, maxBytes, requests)
      ensures (forall m :: 0 <= m < |requests| ==> !SubtractsTwice(states[m], requests[m], false)) ==>
                Exact(states[|requests|])
    {
      AccountingBounds(states, ops, |requests|);
    }
    forall states, ops, m | Carries(states, ops, maxBytes, requests) && 0 <= m < |requests|
                            && SubtractsTwice(states[m], requests[m], false)
      ensures exists s, o :: Carries(s, o, maxBytes, requests) && !Exact(s[|requests|])
    {
      RunPrefix(states, ops, maxBytes, requests, m);
      var s, o := CarryOn(states[..m + 1], ops[..m], maxBytes, requests);
    }
  }
}
