/**
 The in-process cache under any number of threads, at the grain of its critical
 sections (internal/cache/l1.go). `Set` and `Delete` are one step each. `Get` is
 up to three: the read under the read lock, the expiry check outside any lock,
 and, for an expired entry, a deletion under the write lock taken afresh.

 The log is a history variable: the sequence of writes and explicit deletions,
 which is what an ideal, lossless map would be built from.
 */
module L1Concurrent {
  import opened CacheTypes
  import opened L1Shard
  import opened L1Cache

  datatype Event = Wrote(key: Key, value: Value, time: int) | Deleted(key: Key)

  datatype Write = Write(value: Value, time: int)

  /** The last write of `k` that no deletion of `k` follows. */
  function LastWrite(log: seq<Event>, k: Key): Option<Write> {
    if log == [] then None
    else
      var e := log[|log| - 1];
      if e.key != k then LastWrite(log[..|log| - 1], k)
      else if e.Wrote? then Some(Write(e.value, e.time))
      else None
  }

  datatype Phase =
    | Started
    | Found(entry: Entry, at: nat)             // read from the map when the log had length `at`
    | Expired(entry: Entry, at: nat)           // found too old; about to delete
    | Hit(value: Value, at: nat, checked: int) // returned; expiry was checked at time `checked`
    | Missed

  /** A call of `Get`; `since` is the length of the log when it started. */
  datatype Call = Call(key: Key, since: nat, phase: Phase)

  datatype State = State(shards: Shards, now: int, calls: seq<Call>, log: seq<Event>)

  datatype Step =
    | Tick(d: nat)
    | Set(key: Key, value: Value)
    | Delete(key: Key)
    | Start(key: Key)
    | Read(i: nat)
    | Check(i: nat)
    | LazyDelete(i: nat)

  predicate Enabled(s: State, step: Step) {
    match step
    case Read(i) => i < |s.calls| && s.calls[i].phase.Started?
    case Check(i) => i < |s.calls| && s.calls[i].phase.Found?
    case LazyDelete(i) => i < |s.calls| && s.calls[i].phase.Expired?
    case _ => true
  }

  function ReadPhase(s: State, key: Key): Phase {
    match CacheLookup(s.shards, key)
    case None => Missed
    case Some(e) => Found(e, |s.log|)
  }

  function CheckPhase(s: State, p: Phase): Phase
    requires p.Found?
  {
    if s.now > p.entry.expiresAt then Expired(p.entry, p.at) else Hit(p.entry.value, p.at, s.now)
  }

  function Advance(s: State, i: nat, p: Phase): State
    requires i < |s.calls|
  {
    s.(calls := s.calls[i := s.calls[i].(phase := p)])
  }

  function AfterSet(s: State, k: Key, v: Value, ttl: int): State
    requires CursorInRange(s.shards[Home(k)])
  {
    s.(shards := CachePut(s.shards, k, Entry(v, s.now + ttl)), log := s.log + [Wrote(k, v, s.now)])
  }

  function Next(s: State, step: Step, ttl: int): State
    requires Enabled(s, step)
    requires step.Set? ==> CursorInRange(s.shards[Home(step.key)])
  {
    match step
    case Tick(d) => s.(now := s.now + d)
    case Set(k, v) => AfterSet(s, k, v, ttl)
    case Delete(k) => s.(shards := CacheRemove(s.shards, k), log := s.log + [Deleted(k)])
    case Start(k) => s.(calls := s.calls + [Call(k, |s.log|, Started)])
    case Read(i) => Advance(s, i, ReadPhase(s, s.calls[i].key))
    case Check(i) => Advance(s, i, CheckPhase(s, s.calls[i].phase))
    case LazyDelete(i) => Advance(s, i, Missed).(shards := CacheRemove(s.shards, s.calls[i].key))
  }

  // -------------------------------------------------------------------- invariant

  /** `e` is what an ideal map holds for `k` after the writes and deletions of `log`. */
  ghost predicate Current(log: seq<Event>, k: Key, e: Entry, ttl: int) {
    LastWrite(log, k) == Some(Write(e.value, e.expiresAt - ttl))
  }

  ghost predicate CallOk(c: Call, log: seq<Event>, now: int, ttl: int) {
    && c.since <= |log|
    && match c.phase
       case Found(e, at) => c.since <= at <= |log| && Current(log[..at], c.key, e, ttl)
       case Expired(e, at) => c.since <= at <= |log| && Current(log[..at], c.key, e, ttl) && e.expiresAt < now
       case Hit(v, at, t) =>
         && c.since <= at <= |log| && t <= now
         && LastWrite(log[..at], c.key).Some?
         && var w := LastWrite(log[..at], c.key).value; v == w.value && t - w.time <= ttl
       case _ => true
  }

  ghost predicate StoredIsCurrent(s: State, ttl: int) {
    forall k :: CacheLookup(s.shards, k).Some? ==> Current(s.log, k, CacheLookup(s.shards, k).value, ttl)
  }

  ghost predicate Inv(s: State, per: int, ttl: int) {
    && GoodCache(s.shards, per)
    && StoredIsCurrent(s, ttl)
    && forall i :: 0 <= i < |s.calls| ==> CallOk(s.calls[i], s.log, s.now, ttl)
  }

  function Initial(maxSize: int, now: int): State {
    State(EmptyCache(maxSize), now, [], [])
  }

  lemma InitialInv(maxSize: int, now: int, ttl: int)
    ensures Inv(Initial(maxSize, now), PerShard(maxSize), ttl)
  {}

  /** Appending to the log and letting time pass keep what is known of a call. */
  lemma CallOkGrows(c: Call, log: seq<Event>, more: seq<Event>, now: int, later: int, ttl: int)
    requires CallOk(c, log, now, ttl) && now <= later
    ensures CallOk(c, log + more, later, ttl)
  {
    match c.phase
    case Found(_, at) => assert (log + more)[..at] == log[..at];
    case Expired(_, at) => assert (log + more)[..at] == log[..at];
    case Hit(_, at, _) => assert (log + more)[..at] == log[..at];
    case _ =>
  }

  lemma CallsOkGrow(s: State, t: State, more: seq<Event>, per: int, ttl: int)
    requires Inv(s, per, ttl) && t.calls == s.calls && t.log == s.log + more && s.now <= t.now
    ensures forall i :: 0 <= i < |t.calls| ==> CallOk(t.calls[i], t.log, t.now, ttl)
  {
    forall i | 0 <= i < |t.calls| ensures CallOk(t.calls[i], t.log, t.now, ttl) {
      CallOkGrows(s.calls[i], s.log, more, s.now, t.now, ttl);
    }
  }

  lemma LastWriteOfAppend(log: seq<Event>, e: Event, k: Key)
    ensures LastWrite(log + [e], k) ==
            if e.key != k then LastWrite(log, k)
            else if e.Wrote? then Some(Write(e.value, e.time)) else None
  {}

  lemma StoreKeepsCurrent(c: Shards, log: seq<Event>, k: Key, v: Value, now: int, per: int, ttl: int, o: Key)
    requires GoodCache(c, per) && Good(c[Home(k)])
    requires CacheLookup(c, o).Some? ==> Current(log, o, CacheLookup(c, o).value, ttl)
    requires CacheLookup(CachePut(c, k, Entry(v, now + ttl)), o).Some?
    ensures Current(log + [Wrote(k, v, now)], o, CacheLookup(CachePut(c, k, Entry(v, now + ttl)), o).value, ttl)
  {
    hide Good, Put;
    StoreIsLossyUpdate(c, per, k, Entry(v, now + ttl), o);
    LastWriteOfAppend(log, Wrote(k, v, now), o);
  }

  lemma StoreKeepsAllCurrent(s: State, t: State, k: Key, v: Value, per: int, ttl: int)
    requires GoodCache(s.shards, per) && StoredIsCurrent(s, ttl) && Good(s.shards[Home(k)])
    requires t.shards == CachePut(s.shards, k, Entry(v, s.now + ttl)) && t.log == s.log + [Wrote(k, v, s.now)]
    ensures StoredIsCurrent(t, ttl)
  {
    hide Good, Put;
    forall o | CacheLookup(t.shards, o).Some? ensures Current(t.log, o, CacheLookup(t.shards, o).value, ttl) {
      StoreKeepsCurrent(s.shards, s.log, k, v, s.now, per, ttl, o);
    }
  }

  lemma RewriteKeepsInv(s: State, t: State, e: Event, per: int, ttl: int)
    requires Inv(s, per, ttl) && t == s.(shards := t.shards, log := s.log + [e])
    requires GoodCache(t.shards, per) && StoredIsCurrent(t, ttl)
    ensures Inv(t, per, ttl)
  {
    CallsOkGrow(s, t, [e], per, ttl);
  }

  lemma SetKeepsInv(s: State, k: Key, v: Value, per: int, ttl: int)
    requires Inv(s, per, ttl) && Good(s.shards[Home(k)]) && CursorInRange(s.shards[Home(k)])
    ensures Inv(AfterSet(s, k, v, ttl), per, ttl)
  {
    hide Good, Put;
    var t := AfterSet(s, k, v, ttl);
    assert GoodCache(t.shards, per) by { CachePutKeepsGood(s.shards, per, k, Entry(v, s.now + ttl)); }
    assert StoredIsCurrent(t, ttl) by { StoreKeepsAllCurrent(s, t, k, v, per, ttl); }
    RewriteKeepsInv(s, t, Wrote(k, v, s.now), per, ttl);
  }

  lemma DeleteKeepsInv(s: State, k: Key, per: int, ttl: int)
    requires Inv(s, per, ttl)
    ensures Inv(Next(s, Delete(k), ttl), per, ttl)
  {
    hide Good;
    var t := Next(s, Delete(k), ttl);
    CacheRemoveKeepsGood(s.shards, per, k);
    forall o | CacheLookup(t.shards, o).Some? ensures Current(t.log, o, CacheLookup(t.shards, o).value, ttl) {
      RemovalIsExact(s.shards, k, o);
      LastWriteOfAppend(s.log, Deleted(k), o);
    }
    RewriteKeepsInv(s, t, Deleted(k), per, ttl);
  }

  lemma LazyDeleteKeepsInv(s: State, i: nat, per: int, ttl: int)
    requires Inv(s, per, ttl) && Enabled(s, LazyDelete(i))
    ensures Inv(Next(s, LazyDelete(i), ttl), per, ttl)
  {
    var k, t := s.calls[i].key, Next(s, LazyDelete(i), ttl);
    CacheRemoveKeepsGood(s.shards, per, k);
    forall o | CacheLookup(t.shards, o).Some? ensures Current(t.log, o, CacheLookup(t.shards, o).value, ttl) {
      RemovalIsExact(s.shards, k, o);
    }
  }

  lemma GetStepKeepsInv(s: State, step: Step, per: int, ttl: int)
    requires Inv(s, per, ttl) && Enabled(s, step)
    requires step.Tick? || step.Start? || step.Read? || step.Check?
    ensures Inv(Next(s, step, ttl), per, ttl)
  {
    assert s.log[..|s.log|] == s.log;
    if step.Tick? {
      assert s.log + [] == s.log;
      CallsOkGrow(s, Next(s, step, ttl), [], per, ttl);
    }
    if step.Read? || step.Check? {
      assert CallOk(s.calls[step.i], s.log, s.now, ttl);
    }
  }

  lemma StepKeepsInv(s: State, step: Step, per: int, ttl: int)
    requires Inv(s, per, ttl) && Enabled(s, step)
    ensures step.Set? ==> CursorInRange(s.shards[Home(step.key)])
    ensures Inv(Next(s, step, ttl), per, ttl)
  {
    match step
    case Set(k, v) =>
      HomeIsGood(s.shards, per, k);
      SetKeepsInv(s, k, v, per, ttl);
    case Delete(k) => DeleteKeepsInv(s, k, per, ttl);
    case LazyDelete(i) => LazyDeleteKeepsInv(s, i, per, ttl);
    case _ => GetStepKeepsInv(s, step, per, ttl);
  }

  // ------------------------------------------------------------------ whole runs

  /** A run: each step is enabled where it is taken. */
  ghost predicate IsRun(states: seq<State>, steps: seq<Step>, maxSize: int, ttl: int) {
    && |states| == |steps| + 1
    && (exists now :: states[0] == Initial(maxSize, now))
    && forall i :: 0 <= i < |steps| ==> Moves(states[i], steps[i], states[i + 1], ttl)
  }

  ghost predicate Moves(s: State, step: Step, t: State, ttl: int) {
    && Enabled(s, step)
    && (step.Set? ==> CursorInRange(s.shards[Home(step.key)]))
    && t == Next(s, step, ttl)
  }

  lemma {:induction false} RunKeepsInv(states: seq<State>, steps: seq<Step>, maxSize: int, ttl: int, n: nat)
    requires IsRun(states, steps, maxSize, ttl) && n < |states|
    ensures Inv(states[n], PerShard(maxSize), ttl)
  {
    if n == 0 {
      var now :| states[0] == Initial(maxSize, now);
      InitialInv(maxSize, now, ttl);
    } else {
      RunKeepsInv(states, steps, maxSize, ttl, n - 1);
      assert Moves(states[n - 1], steps[n - 1], states[n], ttl);
      StepKeepsInv(states[n - 1], steps[n - 1], PerShard(maxSize), ttl);
    }
  }

  /** `c` returned a value that was current at some moment within the call, at most `ttl` old when checked. */
  ghost predicate HitIsFresh(c: Call, log: seq<Event>, ttl: int)
    requires c.phase.Hit?
  {
    && c.since <= c.phase.at <= |log|
    && var w := LastWrite(log[..c.phase.at], c.key);
    && w.Some? && w.value.value == c.phase.value && c.phase.checked - w.value.time <= ttl
  }

  /**
   Under every interleaving: whatever the cache holds for a key is that key's last
   write with no deletion since; every hit is fresh; every shard is good, within its
   size and holding only keys that hash to it; and the number of stored keys stays
   within the bound.
   */
  lemma LossyMapUnderInterleaving(states: seq<State>, steps: seq<Step>, maxSize: int, ttl: int, n: nat)
    requires IsRun(states, steps, maxSize, ttl) && n < |states|
    ensures forall k, e :: CacheLookup(states[n].shards, k) == Some(e) ==>
              LastWrite(states[n].log, k) == Some(Write(e.value, e.expiresAt - ttl))
    ensures forall i :: 0 <= i < |states[n].calls| && states[n].calls[i].phase.Hit? ==>
              HitIsFresh(states[n].calls[i], states[n].log, ttl)
    ensures GoodCache(states[n].shards, PerShard(maxSize))
    ensures |StoredKeys(states[n].shards)| <= Max(maxSize, 16384)
  {
    RunKeepsInv(states, steps, maxSize, ttl, n);
    StateIsSafe(states[n], PerShard(maxSize), ttl);
    SizeBound(states[n].shards, maxSize);
  }

  lemma StateIsSafe(s: State, per: int, ttl: int)
    requires Inv(s, per, ttl)
    ensures forall k, e :: CacheLookup(s.shards, k) == Some(e) ==>
              LastWrite(s.log, k) == Some(Write(e.value, e.expiresAt - ttl))
    ensures forall i :: 0 <= i < |s.calls| && s.calls[i].phase.Hit? ==> HitIsFresh(s.calls[i], s.log, ttl)
  {}

  /** The steps of call `i` when nothing comes between them. */
  function GetAlone(s: State, i: nat, ttl: int): State
    requires Enabled(s, Read(i))
  {
    var s1 := Next(s, Read(i), ttl);
    if !s1.calls[i].phase.Found? then s1
    else
      var s2 := Next(s1, Check(i), ttl);
      if !s2.calls[i].phase.Expired? then s2 else Next(s2, LazyDelete(i), ttl)
  }

  /** Uninterrupted, the steps of a `Get` do what the sequential `Get` does, and return what it returns. */
  lemma GetAloneIsSequential(s: State, i: nat, ttl: int)
    requires Enabled(s, Read(i))
    ensures var t, (c, r) := GetAlone(s, i, ttl), CacheGet(s.shards, s.calls[i].key, s.now);
            && t.shards == c
            && (if r.Some? then t.calls[i].phase == Hit(r.value, |s.log|, s.now) else t.calls[i].phase == Missed)
            && t.log == s.log && t.now == s.now
  {}

  // ---------------------------------------------------- the lazy-delete window

  ghost predicate WrittenSince(log: seq<Event>, at: nat, k: Key) {
    exists j :: at <= j < |log| && log[j].Wrote? && log[j].key == k
  }

  lemma {:induction false} LastWriteSettled(log: seq<Event>, at: nat, k: Key)
    requires at <= |log| && !WrittenSince(log, at, k)
    ensures LastWrite(log, k) == LastWrite(log[..at], k) || LastWrite(log, k) == None
  {
    if at < |log| {
      var shorter := log[..|log| - 1];
      forall j | at <= j < |shorter| ensures !(shorter[j].Wrote? && shorter[j].key == k) {
        assert shorter[j] == log[j];
      }
      LastWriteSettled(shorter, at, k);
      assert shorter[..at] == log[..at];
    } else {
      assert log[..at] == log;
    }
  }

  /** The lazy deletion can lose a live entry only to a write that overtook it. */
  lemma LiveLossNeedsOvertaking(s: State, i: nat, per: int, ttl: int)
    requires Inv(s, per, ttl) && Enabled(s, LazyDelete(i))
    requires CacheLookup(s.shards, s.calls[i].key).Some?
    requires s.now <= CacheLookup(s.shards, s.calls[i].key).value.expiresAt
    ensures WrittenSince(s.log, s.calls[i].phase.at, s.calls[i].key)
  {
    assert CallOk(s.calls[i], s.log, s.now, ttl);
    if !WrittenSince(s.log, s.calls[i].phase.at, s.calls[i].key) {
      LastWriteSettled(s.log, s.calls[i].phase.at, s.calls[i].key);
    }
  }

  /** Event `j` wrote the entry, and nothing has happened to the key since. */
  ghost predicate StoredBy(log: seq<Event>, j: int, k: Key, e: Entry, ttl: int) {
    && 0 <= j < |log| && log[j] == Wrote(k, e.value, e.expiresAt - ttl)
    && forall m :: j < m < |log| ==> log[m].key != k
  }

  lemma {:induction false} WriterOf(log: seq<Event>, k: Key, e: Entry, ttl: int) returns (j: nat)
    requires Current(log, k, e, ttl)
    ensures StoredBy(log, j, k, e, ttl)
  {
    if log[|log| - 1].key == k {
      j := |log| - 1;
    } else {
      j := WriterOf(log[..|log| - 1], k, e, ttl);
    }
  }

  /**
   Exactly when the lazy deletion drops an entry fresher than the expired one it
   read: the entry removed was written after that read if and only if some write of
   the key overtook the deletion, and it is live if and only if that write is at
   most `ttl` old. The ideal map keeps it all the same.
   */
  lemma FreshLossIff(s: State, i: nat, per: int, ttl: int)
    requires Inv(s, per, ttl) && Enabled(s, LazyDelete(i))
    requires CacheLookup(s.shards, s.calls[i].key).Some?
    ensures var k, at, t := s.calls[i].key, s.calls[i].phase.at, Next(s, LazyDelete(i), ttl);
            var e := CacheLookup(s.shards, k).value;
            && ((exists j :: at <= j && StoredBy(s.log, j, k, e, ttl)) <==> WrittenSince(s.log, at, k))
            && (s.now <= e.expiresAt <==>
                  exists j :: at <= j && StoredBy(s.log, j, k, e, ttl) && s.now - s.log[j].time <= ttl)
            && CacheLookup(t.shards, k) == None && LastWrite(t.log, k) == Some(Write(e.value, e.expiresAt - ttl))
  {
    var k, at := s.calls[i].key, s.calls[i].phase.at;
    var e := CacheLookup(s.shards, k).value;
    var j := WriterOf(s.log, k, e, ttl);
    if WrittenSince(s.log, at, k) {
      var m :| at <= m < |s.log| && s.log[m].Wrote? && s.log[m].key == k;
      assert m <= j;
    }
    if s.now <= e.expiresAt { LiveLossNeedsOvertaking(s, i, per, ttl); }
    RemovalIsExact(s.shards, k, k);
  }

  /**
   And whenever a write does overtake it, the new entry is lost: from any good
   state with an expired read outstanding, a write of the key and then the
   deletion leave the key absent, although its entry was written just before.
   */
  lemma OvertakingWriteIsLost(s: State, i: nat, v: Value, per: int, ttl: int)
    requires Inv(s, per, ttl) && Enabled(s, LazyDelete(i)) && 0 <= ttl
    ensures CursorInRange(s.shards[Home(s.calls[i].key)])
    ensures var k := s.calls[i].key;
            var t := Next(s, Set(k, v), ttl);
            && CacheLookup(t.shards, k) == Some(Entry(v, s.now + ttl)) && t.now <= s.now + ttl
            && Enabled(t, LazyDelete(i))
            && CacheLookup(Next(t, LazyDelete(i), ttl).shards, k) == None
            && LastWrite(Next(t, LazyDelete(i), ttl).log, k) == Some(Write(v, s.now))
  {}
}
