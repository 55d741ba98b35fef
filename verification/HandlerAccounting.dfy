/**
 How far the account of the asset cache can be off in the server itself: uploads and
 deletions alone, of two bytes at most and with every backend working, leave any
 number of bytes unaccounted for.
 */
module HandlerAccounting {
  import opened CacheTypes
  import opened AssetCache
  import R = AssetCacheRuns
  import H = BinaryHandler

  // ------------------------------------------------------- a queue of small assets

  function Name(i: nat): string {
    seq(i + 1, _ => 'x')
  }

  const PLAIN := "text/plain"

  function Sized(size: nat, time: int): Asset {
    Asset(seq(size, _ => 0), PLAIN, size, time)
  }

  lemma NamesDiffer(i: nat, j: nat)
    ensures Name(i) == Name(j) ==> i == j
  {
    assert |Name(i)| == i + 1 && |Name(j)| == j + 1;
  }

  function Names(lo: nat, n: nat): set<string> {
    set i | lo <= i < lo + n :: Name(i)
  }

  /** `n` assets of one byte, the oldest first from `lo` on. */
  function Queue(lo: nat, n: nat): Assets {
    map k | k in Names(lo, n) :: Sized(1, |k|)
  }

  function Cached(lo: nat, n: nat, maxBytes: int, cur: int): CacheState {
    CacheState(Queue(lo, n), maxBytes, cur)
  }

  lemma QueueGrows(lo: nat, n: nat)
    ensures Name(lo + n) !in Queue(lo, n)
    ensures Queue(lo, n + 1) == Queue(lo, n)[Name(lo + n) := Sized(1, lo + n + 1)]
  {
    assert Names(lo, n + 1) == Names(lo, n) + {Name(lo + n)};
    forall i | lo <= i < lo + n ensures Name(i) != Name(lo + n) { NamesDiffer(i, lo + n); }
  }

  lemma QueueHead(lo: nat, n: nat)
    requires 1 <= n
    ensures IsOldest(Queue(lo, n), Name(lo)) && Bytes(Queue(lo, n), Name(lo)) == 1
    ensures Name(lo) !in Queue(lo + 1, n - 1) && Queue(lo + 1, n - 1) == Queue(lo, n) - {Name(lo)}
  {
    assert Names(lo, n) == Names(lo + 1, n - 1) + {Name(lo)};
    forall i | lo + 1 <= i < lo + n ensures Name(i) != Name(lo) { NamesDiffer(i, lo); }
  }

  /** A new one-byte asset that fits. */
  lemma Grow(lo: nat, n: nat, maxBytes: int, cur: int)
    requires cur + 1 <= maxBytes
    ensures R.Step(Cached(lo, n, maxBytes, cur), R.OpSet(Name(lo + n), Sized(1, lo + n + 1), []),
                   Cached(lo, n + 1, maxBytes, cur + 1))
    ensures R.Gap(Cached(lo, n + 1, maxBytes, cur + 1)) == R.Gap(Cached(lo, n, maxBytes, cur))
  {
    var s, t := Cached(lo, n, maxBytes, cur), Cached(lo, n + 1, maxBytes, cur + 1);
    QueueGrows(lo, n);
    hide Queue, Name;
    assert s.items - Elements([]) == s.items;
    R.StepMovesGap(s, R.OpSet(Name(lo + n), Sized(1, lo + n + 1), []), t);
  }

  /** In a full cache an oldest asset of one byte is replaced by one of two: it is evicted, and subtracted twice. */
  lemma ReplaceOldest(s: CacheState, k: string, a: Asset) returns (mid: CacheState)
    requires IsOldest(s.items, k) && Bytes(s.items, k) == 1 && |a.data| == 2 && s.curBytes == s.maxBytes
    ensures R.Step(s, R.OpSet(k, a, [k]), mid) && R.Gap(mid) == R.Gap(s) + 1
    ensures mid == CacheState((s.items - {k})[k := a], s.maxBytes, s.maxBytes)
  {
    assert Elements([k]) == {k} && [k][1..] == [];
    assert Evicts(s.items - {k}, s.maxBytes - 2, 2, s.maxBytes, []);
    assert VictimBytes(s.items, [k]) == 1;
    mid := CacheState((s.items - {k})[k := a], s.maxBytes, s.maxBytes);
    R.StepMovesGap(s, R.OpSet(k, a, [k]), mid);
  }

  /** In a full cache the oldest asset is replaced, and then deleted. */
  lemma Replace(lo: nat, n: nat, maxBytes: int) returns (mid: CacheState)
    requires 1 <= n
    ensures R.Step(Cached(lo, n, maxBytes, maxBytes), R.OpSet(Name(lo), Sized(2, lo + n + 1), [Name(lo)]), mid)
    ensures R.Step(mid, R.OpRemove(Name(lo)), Cached(lo + 1, n - 1, maxBytes, maxBytes - 2))
    ensures R.Gap(Cached(lo + 1, n - 1, maxBytes, maxBytes - 2)) == R.Gap(Cached(lo, n, maxBytes, maxBytes)) + 1
  {
    var s, t, k := Cached(lo, n, maxBytes, maxBytes), Cached(lo + 1, n - 1, maxBytes, maxBytes - 2), Name(lo);
    QueueHead(lo, n);
    hide Queue, Name;
    mid := ReplaceOldest(s, k, Sized(2, lo + n + 1));
    assert t.items == mid.items - {k};
    R.StepMovesGap(mid, R.OpRemove(k), t);
  }

  // ------------------------------------------------------------ uploads and deletions

  /** The request that makes the handlers perform a cache operation. */
  function RequestFor(op: R.Op): H.Request {
    match op
    case OpSet(k, a, _) => H.Upload(k, PLAIN, a.data, true, H.Stored, true, true, a.cachedAt)
    case OpRemove(k) => H.Delete(k, true, true, true)
  }

  /** An upload of at most two bytes or a deletion, with every backend working. */
  predicate Ordinary(x: H.Exchange) {
    x.ready && H.Clean(x.request) && (x.request.Delete? || (x.request.Upload? && |x.request.body| <= 2))
  }

  /** A run of such requests against an empty server. */
  ghost predicate OrdinaryRun(states: seq<H.HandlerState>, detect: string -> string, log: seq<H.Exchange>,
                              maxBytes: int)
  {
    && H.IsRun(states, detect, log)
    && states[0] == H.HandlerState(CacheState(map[], maxBytes, 0), map[], map[], {})
    && forall m :: 0 <= m < |log| ==> Ordinary(log[m])
  }

  lemma Ask(states: seq<H.HandlerState>, detect: string -> string, log: seq<H.Exchange>, maxBytes: int,
            op: R.Op, t: CacheState)
    returns (states': seq<H.HandlerState>, log': seq<H.Exchange>)
    requires OrdinaryRun(states, detect, log, maxBytes) && R.Step(states[|log|].cache, op, t)
    requires op.key != ""
    requires op.OpSet? ==> |op.asset.data| <= 2 && op.asset == Sized(|op.asset.data|, op.asset.cachedAt)
    ensures OrdinaryRun(states', detect, log', maxBytes) && states'[|log'|].cache == t
  {
    var s, q := states[|log|], RequestFor(op);
    assert |PLAIN| != |"application/octet-stream"|;
    var u, r, vs;
    match op {
      case OpSet(k, a, victims) =>
        assert H.Limited(a.data) == a.data;
        u := H.HandlerState(t, s.store[k := H.Object(a.data, PLAIN)], s.meta[k := (PLAIN, |a.data|)], s.index + {k});
        r, vs := H.Created(k, |a.data|, PLAIN), victims;
      case OpRemove(k) =>
        u := H.HandlerState(t, s.store - {k}, s.meta - {k}, s.index - {k});
        r, vs := H.Deleted(k), [];
    }
    assert H.Handles(s, detect, true, q, vs, r, u);
    states', log' := states + [u], log + [H.Exchange(true, q, vs, r)];
  }

  lemma {:induction false} Fill(detect: string -> string, maxBytes: int, n: nat)
    returns (states: seq<H.HandlerState>, log: seq<H.Exchange>)
    requires n <= maxBytes
    ensures OrdinaryRun(states, detect, log, maxBytes) && states[|log|].cache == Cached(0, n, maxBytes, n)
    ensures R.Gap(states[|log|].cache) == 0
  {
    if n == 0 {
      states, log := [H.HandlerState(CacheState(map[], maxBytes, 0), map[], map[], {})], [];
      assert Queue(0, 0) == map[];
    } else {
      states, log := Fill(detect, maxBytes, n - 1);
      states, log := Add(states, detect, log, 0, n - 1, maxBytes, n - 1);
    }
  }

  lemma Add(states: seq<H.HandlerState>, detect: string -> string, log: seq<H.Exchange>,
            lo: nat, n: nat, maxBytes: int, cur: int)
    returns (states': seq<H.HandlerState>, log': seq<H.Exchange>)
    requires OrdinaryRun(states, detect, log, maxBytes) && states[|log|].cache == Cached(lo, n, maxBytes, cur)
    requires cur + 1 <= maxBytes
    ensures OrdinaryRun(states', detect, log', maxBytes)
    ensures states'[|log'|].cache == Cached(lo, n + 1, maxBytes, cur + 1)
    ensures R.Gap(states'[|log'|].cache) == R.Gap(states[|log|].cache)
  {
    Grow(lo, n, maxBytes, cur);
    states', log' := Ask(states, detect, log, maxBytes, R.OpSet(Name(lo + n), Sized(1, lo + n + 1), []),
                         Cached(lo, n + 1, maxBytes, cur + 1));
  }

  /** The oldest asset of a full cache is uploaded anew with two bytes, and then deleted. */
  lemma Reupload(states: seq<H.HandlerState>, detect: string -> string, log: seq<H.Exchange>,
                 lo: nat, size: nat, maxBytes: int)
    returns (states': seq<H.HandlerState>, log': seq<H.Exchange>)
    requires OrdinaryRun(states, detect, log, maxBytes) && 1 <= size
    requires states[|log|].cache == Cached(lo, size, maxBytes, maxBytes)
    ensures OrdinaryRun(states', detect, log', maxBytes)
    ensures states'[|log'|].cache == Cached(lo + 1, size - 1, maxBytes, maxBytes - 2)
    ensures R.Gap(states'[|log'|].cache) == R.Gap(states[|log|].cache) + 1
  {
    var op := R.OpSet(Name(lo), Sized(2, lo + size + 1), [Name(lo)]);
    var left := Cached(lo + 1, size - 1, maxBytes, maxBytes - 2);
    var mid := Replace(lo, size, maxBytes);
    hide OrdinaryRun, Cached, R.Gap, R.Step;
    states', log' := Ask(states, detect, log, maxBytes, op, mid);
    states', log' := Ask(states', detect, log', maxBytes, R.OpRemove(Name(lo)), left);
  }

  /** Then two new assets fill the cache again, and one more byte is unaccounted for. */
  lemma Round(states: seq<H.HandlerState>, detect: string -> string, log: seq<H.Exchange>,
              lo: nat, size: nat, maxBytes: int)
    returns (states': seq<H.HandlerState>, log': seq<H.Exchange>)
    requires OrdinaryRun(states, detect, log, maxBytes) && 1 <= size
    requires states[|log|].cache == Cached(lo, size, maxBytes, maxBytes)
    ensures OrdinaryRun(states', detect, log', maxBytes)
    ensures states'[|log'|].cache == Cached(lo + 1, size + 1, maxBytes, maxBytes)
    ensures R.Gap(states'[|log'|].cache) == R.Gap(states[|log|].cache) + 1
  {
    states', log' := Reupload(states, detect, log, lo, size, maxBytes);
    states', log' := Add(states', detect, log', lo + 1, size - 1, maxBytes, maxBytes - 2);
    states', log' := Add(states', detect, log', lo + 1, size, maxBytes, maxBytes - 1);
  }

  lemma {:induction false} OpenGap(detect: string -> string, maxBytes: int, n: nat)
    returns (states: seq<H.HandlerState>, log: seq<H.Exchange>, lo: nat, size: nat)
    requires 1 <= maxBytes
    ensures OrdinaryRun(states, detect, log, maxBytes) && R.Gap(states[|log|].cache) == n
    ensures 1 <= size && states[|log|].cache == Cached(lo, size, maxBytes, maxBytes)
  {
    if n == 0 {
      states, log := Fill(detect, maxBytes, maxBytes);
      lo, size := 0, maxBytes;
    } else {
      states, log, lo, size := OpenGap(detect, maxBytes, n - 1);
      states, log := Round(states, detect, log, lo, size, maxBytes);
      lo, size := lo + 1, size + 1;
    }
  }

  /**
   The gap has no bound: for every budget and every `n`, uploads of at most two bytes
   and deletions, none of which fails, leave exactly `n` bytes unaccounted for, with
   the account at the budget.
   */
  lemma GapIsUnbounded(detect: string -> string, maxBytes: int, n: nat)
    requires 1 <= maxBytes
    ensures exists states: seq<H.HandlerState>, log: seq<H.Exchange> ::
              && OrdinaryRun(states, detect, log, maxBytes)
              && states[|log|].cache.curBytes == maxBytes && R.TrueBytes(states[|log|].cache.items) == maxBytes + n
  {
    var states, log, _, _ := OpenGap(detect, maxBytes, n);
  }
}
