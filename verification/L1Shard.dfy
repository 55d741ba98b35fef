/**
 One shard of the in-process cache (internal/cache/l1.go).

 `ShardState` is the value of a shard, `Put` and `Remove` are its two critical
 sections as functions, and class `Shard` is the mutable object whose methods
 are proved to compute those functions. `keys` is only ever appended to, and
 `evictIdx` is a cursor into it: everything the shard does rests on every
 stored key having an occurrence at or after the cursor.
 */
module L1Shard {
  import opened CacheTypes

  datatype Entry = Entry(value: Value, expiresAt: int)

  datatype ShardState = ShardState(items: map<Key, Entry>, maxSize: int, evictIdx: nat, keys: seq<Key>)

  function Empty(maxSize: int): ShardState {
    ShardState(map[], maxSize, 0, [])
  }

  /** The cursor is inside `keys`, or `keys` is still empty. */
  ghost predicate CursorInRange(s: ShardState) {
    s.evictIdx < |s.keys| || (s.evictIdx == 0 && s.keys == [])
  }

  /** The keys the eviction loop has yet to reach before it would wrap around. */
  function Queue(s: ShardState): seq<Key>
    requires s.evictIdx <= |s.keys|
  {
    s.keys[s.evictIdx..]
  }

  /** The keys in the order in which the eviction loop visits them, starting at the cursor. */
  function Ring(s: ShardState): seq<Key>
    requires s.evictIdx <= |s.keys|
  {
    s.keys[s.evictIdx..] + s.keys[..s.evictIdx]
  }

  /** Position of the first stored key in `q`; the length of `q` when none is stored. */
  function FirstLive(q: seq<Key>, items: map<Key, Entry>): (n: nat)
    ensures n <= |q|
    ensures forall i :: 0 <= i < n ==> q[i] !in items
    ensures n < |q| ==> q[n] in items
  {
    if q == [] || q[0] in items then 0 else 1 + FirstLive(q[1..], items)
  }

  /** `evictOne`: drop the first stored key of the ring and move the cursor just past it. */
  function Evict(s: ShardState): ShardState
    requires CursorInRange(s)
  {
    var off := FirstLive(Ring(s), s.items);
    if off == |s.keys| then s
    else
      var idx := Wrapped(s.evictIdx + off, |s.keys|);
      s.(items := s.items - {s.keys[idx]}, evictIdx := Wrapped(idx + 1, |s.keys|))
  }

  /** `a` reduced modulo `n`, for `a` below `2 * n`. */
  function Wrapped(a: nat, n: nat): (r: nat)
    requires a < 2 * n
  {
    if a < n then a else a - n
  }

  /** How many times the body of the loop in `evictOne` runs. */
  function EvictProbes(s: ShardState): nat
    requires CursorInRange(s)
  {
    var off := FirstLive(Ring(s), s.items);
    if off == |s.keys| then off else off + 1
  }

  predicate MustEvict(s: ShardState, key: Key) {
    |s.items| >= s.maxSize && key !in s.items
  }

  /** The map and `keys` update at the end of `L1Cache.Set`. */
  function Store(s: ShardState, key: Key, entry: Entry): ShardState {
    s.(keys := if key in s.items then s.keys else s.keys + [key], items := s.items[key := entry])
  }

  /** The critical section of `L1Cache.Set`. */
  function Put(s: ShardState, key: Key, entry: Entry): ShardState
    requires CursorInRange(s)
  {
    Store(if MustEvict(s, key) then Evict(s) else s, key, entry)
  }

  /** The critical section of `L1Cache.Delete`, and of the lazy delete in `L1Cache.Get`. */
  function Remove(s: ShardState, key: Key): ShardState {
    s.(items := s.items - {key})
  }

  // ---------------------------------------------------------------- the object

  class Shard {
    var items: map<Key, Entry>
    const maxSize: int
    var evictIdx: nat
    var keys: seq<Key>

    function State(): ShardState
      reads this
    {
      ShardState(items, maxSize, evictIdx, keys)
    }

    constructor (maxSize: int)
      ensures State() == Empty(maxSize)
    {
      this.maxSize := maxSize;
      items, evictIdx, keys := map[], 0, [];
    }

    method EvictOne() returns (probes: nat)
      requires CursorInRange(State())
      modifies this
      ensures State() == Evict(old(State()))
      ensures probes == EvictProbes(old(State()))
    {
      ghost var s := State();
      var i := 0;
      while i < |keys|
        invariant 0 <= i <= |keys| && State() == s
        invariant forall j :: 0 <= j < i ==> Ring(s)[j] !in s.items
      {
        var idx := (evictIdx + i) % |keys|;
        WrappedIsMod(evictIdx + i, |keys|);
        WrappedIsMod(idx + 1, |keys|);
        var key := keys[idx];
        if key in items {
          FirstLiveIs(Ring(s), s.items, i);
          items := items - {key};
          evictIdx := (idx + 1) % |keys|;
          return i + 1;
        }
        i := i + 1;
      }
      FirstLiveIs(Ring(s), s.items, i);
      probes := i;
    }

    method Set(key: Key, value: Value, now: int, ttl: int)
      requires CursorInRange(State())
      modifies this
      ensures State() == Put(old(State()), key, Entry(value, now + ttl))
    {
      if |items| >= maxSize {
        if key !in items {
          var _ := EvictOne();
        }
      }
      var entry := Entry(value, now + ttl);
      if key !in items {
        keys := keys + [key];
      }
      items := items[key := entry];
    }

    method Lookup(key: Key) returns (found: Option<Entry>)
      ensures found == if key in items then Some(items[key]) else None
    {
      if key in items { found := Some(items[key]); } else { found := None; }
    }

    method Delete(key: Key)
      modifies this
      ensures State() == Remove(old(State()), key)
    {
      items := items - {key};
    }
  }

  lemma WrappedIsMod(a: nat, n: nat)
    requires a < 2 * n
    ensures a % n == Wrapped(a, n)
  {}

  lemma {:induction false} FirstLiveIs(q: seq<Key>, items: map<Key, Entry>, n: nat)
    requires n <= |q|
    requires forall i :: 0 <= i < n ==> q[i] !in items
    requires n < |q| ==> q[n] in items
    ensures FirstLive(q, items) == n
  {}

  // ------------------------------------------------------------- the invariant

  /**
   What every run of a shard keeps. `NewL1` never builds a shard with fewer than
   64 slots; two are enough for the cursor never to wrap.
   */
  ghost predicate Good(s: ShardState) {
    && CursorInRange(s)
    && 2 <= s.maxSize
    && |s.items| <= s.maxSize
    && forall k :: k in s.items ==> k in Queue(s)
  }

  /** The victim is in the queue, so the search from the cursor never wraps. */
  lemma VictimInQueue(s: ShardState)
    requires Good(s) && s.items != map[]
    ensures FirstLive(Ring(s), s.items) == FirstLive(Queue(s), s.items) < |Queue(s)|
  {
    var q, off := Queue(s), FirstLive(Queue(s), s.items);
    var k :| k in s.items;
    var i :| 0 <= i < |q| && q[i] == k;
    assert Ring(s)[..|q|] == q;
    FirstLiveIs(Ring(s), s.items, off);
  }

  /** Eviction from a good shard with the modulus resolved: it can only wrap to 0. */
  lemma EvictFromQueue(s: ShardState)
    requires Good(s) && s.items != map[]
    ensures var off := FirstLive(Queue(s), s.items);
            && off < |Queue(s)|
            && Evict(s) == s.(items := s.items - {Queue(s)[off]},
                              evictIdx := if off + 1 == |Queue(s)| then 0 else s.evictIdx + off + 1)
            && EvictProbes(s) == off + 1
  {
    VictimInQueue(s);
  }

  /**
   The cursor advances past the victim exactly when some stored key occurs in the
   queue before its last position; otherwise the modulus sends it back to 0 and
   the whole of `keys` is scanned again by the next eviction.
   */
  lemma CursorAdvancesIff(s: ShardState)
    requires Good(s) && s.items != map[]
    ensures s.evictIdx < Evict(s).evictIdx <==>
            exists i :: 0 <= i < |Queue(s)| - 1 && Queue(s)[i] in s.items
    ensures Evict(s).evictIdx <= s.evictIdx ==> Evict(s).evictIdx == 0
  {
    EvictFromQueue(s);
    var e, off := Evict(s), FirstLive(Queue(s), s.items);
    if off + 1 < |Queue(s)| {
      assert Queue(s)[off] in s.items;
    }
  }

  /** Two stored keys are enough for an occurrence before the end of the queue. */
  lemma TwoLiveKeysLeaveRoom(s: ShardState)
    requires Good(s) && 2 <= |s.items|
    ensures exists i :: 0 <= i < |Queue(s)| - 1 && Queue(s)[i] in s.items
  {
    var q := Queue(s);
    var a :| a in s.items;
    assert |s.items.Keys - {a}| >= 1;
    var b :| b in s.items.Keys - {a};
    var i :| 0 <= i < |q| && q[i] == a;
    var j :| 0 <= j < |q| && q[j] == b;
    if i < j { assert q[i] in s.items; } else { assert q[j] in s.items; }
  }

  /**
   Eviction from a shard with at least two keys: exactly one stored key goes, the
   cursor strictly advances, by exactly the number of probes, and the queue loses
   its prefix up to and including the victim.
   */
  lemma EvictFromGood(s: ShardState)
    requires Good(s) && 2 <= |s.items|
    ensures var off := FirstLive(Queue(s), s.items);
            && off + 1 < |Queue(s)|
            && Evict(s) == s.(items := s.items - {Queue(s)[off]}, evictIdx := s.evictIdx + off + 1)
            && EvictProbes(s) == off + 1
            && Queue(Evict(s)) == Queue(s)[off + 1..]
            && |Evict(s).items| == |s.items| - 1
  {
    EvictFromQueue(s);
    TwoLiveKeysLeaveRoom(s);
    var q, off := Queue(s), FirstLive(Queue(s), s.items);
    assert (s.items - {q[off]}).Keys == s.items.Keys - {q[off]};
    assert s.keys[s.evictIdx + off + 1..] == q[off + 1..];
  }

  lemma LiveAfterVictim(q: seq<Key>, items: map<Key, Entry>, k: Key)
    requires k in q && k in items
    requires FirstLive(q, items) < |q| && k != q[FirstLive(q, items)]
    ensures k in q[FirstLive(q, items) + 1..]
  {}

  lemma EvictKeepsGood(s: ShardState)
    requires Good(s) && 2 <= |s.items|
    ensures Good(Evict(s))
  {
    EvictFromGood(s);
    var e := Evict(s);
    forall k | k in e.items ensures k in Queue(e) {
      LiveAfterVictim(Queue(s), s.items, k);
    }
  }

  // --------------------------------------------------------------------- runs

  /** Reads do not change a shard, so a run is a sequence of writes and removals. */
  datatype Op = OpPut(key: Key, entry: Entry) | OpRemove(key: Key)

  function Apply(s: ShardState, op: Op): ShardState
    requires CursorInRange(s)
  {
    match op
    case OpPut(k, e) => Put(s, k, e)
    case OpRemove(k) => Remove(s, k)
  }

  lemma StoreKeepsGood(s: ShardState, key: Key, entry: Entry)
    requires Good(s) && !MustEvict(s, key)
    ensures Good(Store(s, key, entry))
    ensures Queue(Store(s, key, entry)) == if key in s.items then Queue(s) else Queue(s) + [key]
  {
    var t := Store(s, key, entry);
    assert t.items.Keys == s.items.Keys + {key};
    assert Queue(t) == if key in s.items then Queue(s) else Queue(s) + [key];
  }

  lemma PutKeepsGood(s: ShardState, key: Key, entry: Entry)
    requires Good(s)
    ensures Good(Put(s, key, entry))
  {
    if MustEvict(s, key) {
      EvictFromGood(s);
      EvictKeepsGood(s);
      StoreKeepsGood(Evict(s), key, entry);
    } else {
      StoreKeepsGood(s, key, entry);
    }
  }

  /** The stored key that a store of an absent key into a full shard drops. */
  function Victim(s: ShardState): Key
    requires Good(s) && s.items != map[]
  {
    VictimInQueue(s);
    Queue(s)[FirstLive(Queue(s), s.items)]
  }

  /** A store drops at most one other key, and that only when the shard is full and the key new. */
  lemma PutEffect(s: ShardState, key: Key, entry: Entry)
    requires Good(s)
    ensures !MustEvict(s, key) ==> Put(s, key, entry).items == s.items[key := entry]
    ensures MustEvict(s, key) ==>
              && s.items != map[]
              && Victim(s) in s.items && Victim(s) != key
              && Put(s, key, entry).items == (s.items - {Victim(s)})[key := entry]
    ensures Put(s, key, entry).maxSize == s.maxSize
  {
    if MustEvict(s, key) {
      EvictFromGood(s);
    }
  }

  lemma ApplyKeepsGood(s: ShardState, op: Op)
    requires Good(s)
    ensures Good(Apply(s, op))
  {
    match op
    case OpPut(k, e) => PutKeepsGood(s, k, e);
    case OpRemove(k) =>
      assert Remove(s, k).items.Keys <= s.items.Keys;
      SubsetSize(Remove(s, k).items.Keys, s.items.Keys);
  }

  lemma SubsetSize<T>(a: set<T>, b: set<T>)
    requires a <= b
    ensures |a| <= |b|
  {
    assert b == a + (b - a);
  }

  function Run(s: ShardState, ops: seq<Op>): (r: ShardState)
    requires Good(s)
    ensures Good(r)
    decreases |ops|
  {
    if ops == [] then s
    else
      ApplyKeepsGood(s, ops[0]);
      Run(Apply(s, ops[0]), ops[1..])
  }
}
