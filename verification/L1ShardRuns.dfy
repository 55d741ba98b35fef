/**
 What holds over every run of a shard: the amortised cost of eviction, the
 independence of every later result from the part of `keys` before the cursor,
 and exact first-in first-out eviction in runs that only store.
 */
module L1ShardRuns {
  import opened CacheTypes
  import opened L1Shard

  // ---------------------------------------------------------- amortised cost

  function Probes(s: ShardState, op: Op): nat
    requires CursorInRange(s)
  {
    if op.OpPut? && MustEvict(s, op.key) then EvictProbes(s) else 0
  }

  predicate InsertsAbsent(s: ShardState, op: Op) {
    op.OpPut? && op.key !in s.items
  }

  /** Iterations of the eviction loop over a whole run. */
  function RunProbes(s: ShardState, ops: seq<Op>): nat
    requires Good(s)
    decreases |ops|
  {
    if ops == [] then 0
    else
      ApplyKeepsGood(s, ops[0]);
      Probes(s, ops[0]) + RunProbes(Apply(s, ops[0]), ops[1..])
  }

  /** The keys that were absent when a run stored them, in order. */
  function InsertLog(s: ShardState, ops: seq<Op>): seq<Key>
    requires Good(s)
    decreases |ops|
  {
    if ops == [] then []
    else
      ApplyKeepsGood(s, ops[0]);
      (if InsertsAbsent(s, ops[0]) then [ops[0].key] else [])
      + InsertLog(Apply(s, ops[0]), ops[1..])
  }

  lemma StepCost(s: ShardState, op: Op)
    requires Good(s)
    ensures Apply(s, op).evictIdx == s.evictIdx + Probes(s, op)
    ensures Apply(s, op).keys == s.keys + if InsertsAbsent(s, op) then [op.key] else []
  {
    if op.OpPut? && MustEvict(s, op.key) {
      EvictFromGood(s);
    }
  }

  lemma AppendAssociates<T>(a: seq<T>, b: seq<T>, c: seq<T>)
    ensures a + b + c == a + (b + c)
  {}

  lemma {:induction false} RunCost(s: ShardState, ops: seq<Op>)
    requires Good(s)
    ensures Run(s, ops).evictIdx == s.evictIdx + RunProbes(s, ops)
    ensures Run(s, ops).keys == s.keys + InsertLog(s, ops)
    decreases |ops|
  {
    if ops != [] {
      StepCost(s, ops[0]);
      ApplyKeepsGood(s, ops[0]);
      var t := Apply(s, ops[0]);
      RunCost(t, ops[1..]);
      AppendAssociates(s.keys, if InsertsAbsent(s, ops[0]) then [ops[0].key] else [], InsertLog(t, ops[1..]));
    }
  }

  /**
   Over any run from an empty shard, the probes of all evictions together number
   fewer than the keys inserted while absent: eviction is constant amortised time.
   `keys` is exactly the log of those inserts, so it grows without bound.
   */
  lemma AmortisedEviction(maxSize: int, ops: seq<Op>)
    requires 2 <= maxSize
    ensures var log := InsertLog(Empty(maxSize), ops);
            && Run(Empty(maxSize), ops).keys == log
            && RunProbes(Empty(maxSize), ops) <= |log|
            && (log != [] ==> RunProbes(Empty(maxSize), ops) < |log|)
  {
    RunCost(Empty(maxSize), ops);
    assert [] + InsertLog(Empty(maxSize), ops) == InsertLog(Empty(maxSize), ops);
  }

  // ------------------------------------------------------------ bisimulation

  /** A shard that forgets every key before the cursor and so needs no cursor. */
  datatype QueueShard = QueueShard(items: map<Key, Entry>, maxSize: int, queue: seq<Key>)

  function Abstract(s: ShardState): QueueShard
    requires s.evictIdx <= |s.keys|
  {
    QueueShard(s.items, s.maxSize, Queue(s))
  }

  function QueueEvict(q: QueueShard): QueueShard {
    var off := FirstLive(q.queue, q.items);
    if off == |q.queue| then q
    else q.(items := q.items - {q.queue[off]}, queue := q.queue[off + 1..])
  }

  function QueueStore(q: QueueShard, k: Key, e: Entry): QueueShard {
    q.(queue := if k in q.items then q.queue else q.queue + [k], items := q.items[k := e])
  }

  function QueueApply(q: QueueShard, op: Op): QueueShard {
    match op
    case OpRemove(k) => q.(items := q.items - {k})
    case OpPut(k, e) =>
      var q1 := if |q.items| >= q.maxSize && k !in q.items then QueueEvict(q) else q;
      QueueStore(q1, k, e)
  }

  function QueueRun(q: QueueShard, ops: seq<Op>): QueueShard
    decreases |ops|
  {
    if ops == [] then q else QueueRun(QueueApply(q, ops[0]), ops[1..])
  }

  lemma EvictAbstracts(s: ShardState)
    requires Good(s) && 2 <= |s.items|
    ensures Evict(s).evictIdx <= |Evict(s).keys|
    ensures Abstract(Evict(s)) == QueueEvict(Abstract(s))
  {
    EvictFromGood(s);
    AbstractAfterVictim(s, Evict(s), FirstLive(Queue(s), s.items));
  }

  lemma AbstractAfterVictim(s: ShardState, e: ShardState, off: nat)
    requires s.evictIdx <= |s.keys| && off == FirstLive(Queue(s), s.items) < |Queue(s)|
    requires e == s.(items := s.items - {Queue(s)[off]}, evictIdx := s.evictIdx + off + 1)
    ensures Abstract(e) == QueueEvict(Abstract(s))
  {}

  lemma StoreAbstracts(s: ShardState, k: Key, e: Entry)
    requires Good(s) && !MustEvict(s, k)
    ensures Store(s, k, e).evictIdx <= |Store(s, k, e).keys|
    ensures Abstract(Store(s, k, e)) == QueueStore(Abstract(s), k, e)
  {}

  lemma EvictMakesRoom(s: ShardState, k: Key)
    requires Good(s) && MustEvict(s, k)
    ensures 2 <= |s.items| && Good(Evict(s)) && !MustEvict(Evict(s), k)
  {
    EvictFromGood(s);
    EvictKeepsGood(s);
  }

  lemma StepAbstracts(s: ShardState, op: Op)
    requires Good(s)
    ensures Apply(s, op).evictIdx <= |Apply(s, op).keys|
    ensures Abstract(Apply(s, op)) == QueueApply(Abstract(s), op)
  {
    if op.OpPut? {
      if MustEvict(s, op.key) {
        EvictMakesRoom(s, op.key);
        EvictAbstracts(s);
        StoreAbstracts(Evict(s), op.key, op.entry);
      } else {
        StoreAbstracts(s, op.key, op.entry);
      }
    }
  }

  /** The prefix of `keys` before the cursor never affects any later result. */
  lemma {:induction false} ShardSimulatesQueue(s: ShardState, ops: seq<Op>)
    requires Good(s)
    ensures Abstract(Run(s, ops)) == QueueRun(Abstract(s), ops)
    decreases |ops|
  {
    if ops != [] {
      StepAbstracts(s, ops[0]);
      ApplyKeepsGood(s, ops[0]);
      ShardSimulatesQueue(Apply(s, ops[0]), ops[1..]);
    }
  }

  // -------------------------------------------------------------------- FIFO

  /** The reference: a bounded first-in first-out list of distinct keys. */
  function FifoPut(order: seq<Key>, maxSize: int, k: Key): seq<Key> {
    if k in order then order
    else (if |order| >= maxSize && order != [] then order[1..] else order) + [k]
  }

  function FifoRun(order: seq<Key>, maxSize: int, puts: seq<Op>): seq<Key>
    decreases |puts|
  {
    if puts == [] then order else FifoRun(FifoPut(order, maxSize, puts[0].key), maxSize, puts[1..])
  }

  /** The queue lists the stored keys, once each, and the cursor has moved only if the shard is full. */
  ghost predicate Fifo(s: ShardState) {
    && Good(s) && 2 <= s.maxSize && s.evictIdx <= |s.keys|
    && Elements(Queue(s)) == s.items.Keys
    && |Queue(s)| == |s.items|
    && (0 < s.evictIdx ==> |s.items| == s.maxSize)
  }

  /** As many distinct elements as positions: no element occurs twice. */
  lemma {:induction false} CountedDistinct<T>(s: seq<T>)
    requires |Elements(s)| == |s|
    ensures NoDuplicates(s)
  {
    if s != [] {
      assert Elements(s) == {s[0]} + Elements(s[1..]);
      ElementsBound(s[1..]);
      CountedDistinct(s[1..]);
      assert s[0] !in Elements(s[1..]);
      assert s == [s[0]] + s[1..];
    }
  }

  lemma StoreSize(s: ShardState, k: Key, e: Entry)
    ensures |Store(s, k, e).items| == |s.items| + if k in s.items then 0 else 1
    ensures Store(s, k, e).items.Keys == s.items.Keys + {k}
    ensures Store(s, k, e).maxSize == s.maxSize && Store(s, k, e).evictIdx == s.evictIdx
  {}

  lemma StoreListsOnce(s: ShardState, t: ShardState, k: Key)
    requires s.evictIdx <= |s.keys| && t.evictIdx <= |t.keys|
    requires Elements(Queue(s)) == s.items.Keys && |Queue(s)| == |s.items|
    requires Queue(t) == if k in s.items then Queue(s) else Queue(s) + [k]
    requires t.items.Keys == s.items.Keys + {k}
    ensures Elements(Queue(t)) == t.items.Keys && |Queue(t)| == |t.items|
  {}

  lemma TailElements<T>(q: seq<T>)
    requires q != [] && |Elements(q)| == |q|
    ensures Elements(q[1..]) == Elements(q) - {q[0]}
  {
    ElementsBound(q[1..]);
    assert Elements(q) == {q[0]} + Elements(q[1..]);
  }

  lemma FifoVictimIsHead(s: ShardState)
    requires Fifo(s) && s.items != map[]
    ensures Queue(s) != [] && FirstLive(Queue(s), s.items) == 0
    ensures Elements(Queue(s)[1..]) == (s.items - {Queue(s)[0]}).Keys
  {
    var q := Queue(s);
    var k :| k in s.items;
    assert k in Elements(q);
    assert q[0] in Elements(q);
    FirstLiveIs(q, s.items, 0);
    TailElements(q);
  }

  /** What eviction from a full FIFO shard leaves, in terms of the resulting state alone. */
  ghost predicate LosesHead(s: ShardState, e: ShardState)
    requires s.evictIdx <= |s.keys|
  {
    && e.evictIdx <= |e.keys| && Queue(s) != [] && Queue(e) == Queue(s)[1..]
    && e.items == s.items - {Queue(s)[0]} && e.maxSize == s.maxSize
    && |e.items| == |s.items| - 1
  }

  lemma EvictLosesHead(s: ShardState)
    requires Fifo(s) && |s.items| >= s.maxSize
    ensures LosesHead(s, Evict(s))
  {
    hide Good, Evict, Elements, FirstLive, Ring;
    assert 2 <= |s.items| by { assert 2 <= s.maxSize; }
    FifoVictimIsHead(s);
    EvictFromGood(s);
  }

  lemma EvictIsFifo(s: ShardState, e: ShardState)
    requires Fifo(s) && |s.items| >= s.maxSize && LosesHead(s, e)
    ensures Elements(Queue(e)) == e.items.Keys && |Queue(e)| == |e.items| == s.maxSize - 1
  {
    FifoVictimIsHead(s);
  }

  lemma StoreIsFifo(s: ShardState, k: Key, e: Entry)
    requires Good(s) && !MustEvict(s, k)
    requires Elements(Queue(s)) == s.items.Keys && |Queue(s)| == |s.items|
    requires 0 < s.evictIdx ==> |s.items| + (if k in s.items then 0 else 1) == s.maxSize
    ensures Fifo(Store(s, k, e))
    ensures Queue(Store(s, k, e)) == if k in s.items then Queue(s) else Queue(s) + [k]
  {
    hide Elements;
    StoreSize(s, k, e);
    StoreKeepsGood(s, k, e);
    StoreListsOnce(s, Store(s, k, e), k);
  }

  lemma PutIsFifo(s: ShardState, k: Key, e: Entry)
    requires Fifo(s)
    ensures Fifo(Put(s, k, e))
    ensures Queue(Put(s, k, e)) == FifoPut(Queue(s), s.maxSize, k)
  {
    assert k in s.items <==> k in Elements(Queue(s));
    hide Elements;
    if MustEvict(s, k) {
      EvictLosesHead(s);
      EvictKeepsGood(s);
      EvictIsFifo(s, Evict(s));
      StoreIsFifo(Evict(s), k, e);
    } else {
      StoreIsFifo(s, k, e);
    }
  }

  lemma {:induction false} RunIsFifo(s: ShardState, puts: seq<Op>)
    requires Fifo(s)
    requires forall i :: 0 <= i < |puts| ==> puts[i].OpPut?
    ensures Fifo(Run(s, puts))
    ensures Queue(Run(s, puts)) == FifoRun(Queue(s), s.maxSize, puts)
    ensures Run(s, puts).maxSize == s.maxSize
    decreases |puts|
  {
    if puts != [] {
      PutIsFifo(s, puts[0].key, puts[0].entry);
      ApplyKeepsGood(s, puts[0]);
      RunIsFifo(Put(s, puts[0].key, puts[0].entry), puts[1..]);
    }
  }

  /**
   In a run that only stores, the shard is exactly a FIFO cache: its queue is the
   FIFO list of the run, and the stored keys are the last `min(maxSize, n)` of
   the `n` keys inserted while absent.
   */
  lemma StoreOnlyRunsAreFifo(maxSize: int, puts: seq<Op>)
    requires 2 <= maxSize
    requires forall i :: 0 <= i < |puts| ==> puts[i].OpPut?
    ensures var s, log := Run(Empty(maxSize), puts), InsertLog(Empty(maxSize), puts);
            && Queue(s) == FifoRun([], maxSize, puts)
            && |s.items| == Min(maxSize, |log|)
            && s.items.Keys == Elements(log[|log| - |s.items|..])
            && NoDuplicates(log[|log| - |s.items|..])
  {
    var s0 := Empty(maxSize);
    assert Queue(s0) == [] && Elements(Queue(s0)) == {};
    RunIsFifo(s0, puts);
    AmortisedEviction(maxSize, puts);
    var s := Run(s0, puts);
    CountedDistinct(Queue(s));
    assert Queue(s) == s.keys[|s.keys| - |s.items|..];
  }
}
