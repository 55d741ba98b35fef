/**
 The in-process cache under any number of threads, in terms of the calls made and of
 nothing else: what a `Set` and a `Delete` do to every later read, and what every `Get`
 returns, over all interleavings.
 */
module L1History {
  import opened CacheTypes
  import opened L1Shard
  import opened L1Cache
  import opened L1Concurrent

  // ------------------------------------------------------------------- the history

  /** The writes and explicit deletions, read off the steps before state `n`. */
  function LogOf(states: seq<State>, steps: seq<Step>, n: nat): seq<Event>
    requires n <= |steps| && |states| == |steps| + 1
  {
    if n == 0 then []
    else
      LogOf(states, steps, n - 1) +
      match steps[n - 1]
      case Set(k, v) => [Wrote(k, v, states[n - 1].now)]
      case Delete(k) => [Deleted(k)]
      case _ => []
  }

  function Ticks(steps: seq<Step>): nat {
    if steps == [] then 0
    else Ticks(steps[..|steps| - 1]) + match steps[|steps| - 1] case Tick(d) => d case _ => 0
  }

  lemma StepHistory(s: State, step: Step, t: State, ttl: int)
    requires Moves(s, step, t, ttl)
    ensures t.now == s.now + match step case Tick(d) => d case _ => 0
    ensures t.log == s.log +
            match step case Set(k, v) => [Wrote(k, v, s.now)] case Delete(k) => [Deleted(k)] case _ => []
  {}

  /** The log and the clock are what the steps say. */
  lemma {:induction false} LogIsTrue(states: seq<State>, steps: seq<Step>, maxSize: int, ttl: int, n: nat)
    requires IsRun(states, steps, maxSize, ttl) && n < |states|
    ensures states[n].log == LogOf(states, steps, n)
    ensures states[n].now == states[0].now + Ticks(steps[..n])
    decreases n
  {
    if n > 0 {
      LogIsTrue(states, steps, maxSize, ttl, n - 1);
      assert Moves(states[n - 1], steps[n - 1], states[n], ttl);
      StepHistory(states[n - 1], steps[n - 1], states[n], ttl);
      hide Moves;
      assert steps[..n][..n - 1] == steps[..n - 1];
    } else {
      var now :| states[0] == Initial(maxSize, now);
    }
  }

  // ------------------------------------------------------------------ single steps

  /** The key whose entry the step is about, if it is about one. */
  predicate Touches(s: State, step: Step, k: Key)
    requires Enabled(s, step)
  {
    match step
    case Set(o, _) => o == k
    case Delete(o) => o == k
    case LazyDelete(i) => s.calls[i].key == k
    case _ => false
  }

  lemma StoreEffects(c: Shards, per: int, o: Key, e: Entry, k: Key)
    requires GoodCache(c, per) && CursorInRange(c[Home(o)])
    ensures CacheLookup(CachePut(c, o, e), o) == Some(e)
    ensures k != o ==>
              || CacheLookup(CachePut(c, o, e), k) == CacheLookup(c, k)
              || (&& CacheLookup(CachePut(c, o, e), k) == None && Home(o) == Home(k)
                  && |c[Home(k)].items| >= per && CacheLookup(c, o) == None)
  {
    HomeIsGood(c, per, o);
    hide Good, Put, GoodCache, Evicts;
    StoreIsLossyUpdate(c, per, o, e, o);
    StoreIsLossyUpdate(c, per, o, e, k);
  }

  /**
   A `Set` makes its entry readable until `now + ttl`; deletions make theirs absent; and no
   step changes another key's entry, but that a `Set` may evict one from its own full shard.
   */
  lemma StepEffects(s: State, step: Step, t: State, per: int, ttl: int, k: Key)
    requires Inv(s, per, ttl) && Moves(s, step, t, ttl)
    ensures Touches(s, step, k) ==>
              CacheLookup(t.shards, k) == if step.Set? then Some(Entry(step.value, s.now + ttl)) else None
    ensures !Touches(s, step, k) ==>
              || CacheLookup(t.shards, k) == CacheLookup(s.shards, k)
              || (&& step.Set? && CacheLookup(t.shards, k) == None && Home(step.key) == Home(k)
                  && |s.shards[Home(k)].items| >= per && CacheLookup(s.shards, step.key) == None)
  {
    hide Good, Put, CacheLookup, CachePut, CacheRemove;
    match step
    case Set(o, v) => StoreEffects(s.shards, per, o, Entry(v, s.now + ttl), k);
    case Delete(o) => RemovalIsExact(s.shards, o, k);
    case LazyDelete(i) => RemovalIsExact(s.shards, s.calls[i].key, k);
    case _ =>
  }

  /** An explicit deletion in a run makes the key absent and leaves every other entry as it was. */
  lemma DeleteIsExact(states: seq<State>, steps: seq<Step>, maxSize: int, ttl: int, m: nat, k: Key)
    requires IsRun(states, steps, maxSize, ttl) && m < |steps| && steps[m] == Delete(k)
    ensures CacheLookup(states[m + 1].shards, k) == None
    ensures forall o :: o != k ==> CacheLookup(states[m + 1].shards, o) == CacheLookup(states[m].shards, o)
  {
    assert Moves(states[m], steps[m], states[m + 1], ttl);
    forall o ensures CacheLookup(states[m + 1].shards, o) == if o == k then None else CacheLookup(states[m].shards, o) {
      RemovalIsExact(states[m].shards, k, o);
    }
  }

  // ------------------------------------------------- what later reads can be given

  /** After step `m`, and before `n`, `k` is not `Set`. */
  predicate NotSet(steps: seq<Step>, m: nat, n: nat, k: Key)
    requires m < n <= |steps|
  {
    forall j :: m < j < n ==> !(steps[j].Set? && steps[j].key == k)
  }

  /** What the key may hold is nothing, or the one entry allowed. */
  predicate Only(found: Option<Entry>, allowed: Option<Entry>) {
    found.Some? ==> found == allowed
  }

  /** The call has read nothing but the one entry allowed, and returned it only while it lived. */
  predicate ReadOnly(c: Call, allowed: Option<Entry>) {
    match c.phase
    case Found(e, _) => allowed == Some(e)
    case Expired(e, _) => allowed == Some(e)
    case Hit(v, _, at) => allowed.Some? && allowed.value.value == v && at <= allowed.value.expiresAt
    case _ => true
  }

  ghost predicate AllReadOnly(calls: seq<Call>, k: Key, allowed: Option<Entry>, n0: nat) {
    forall i :: n0 <= i < |calls| && calls[i].key == k ==> ReadOnly(calls[i], allowed)
  }

  lemma CallsReadOnly(s: State, step: Step, t: State, ttl: int, k: Key, allowed: Option<Entry>, n0: nat)
    requires Moves(s, step, t, ttl) && AllReadOnly(s.calls, k, allowed, n0) && n0 <= |s.calls|
    requires Only(CacheLookup(s.shards, k), allowed)
    ensures AllReadOnly(t.calls, k, allowed, n0) && n0 <= |t.calls|
  {}

  lemma {:induction false} LaterReads(states: seq<State>, steps: seq<Step>, maxSize: int, ttl: int, m: nat, n: nat,
                                      k: Key, allowed: Option<Entry>)
    requires IsRun(states, steps, maxSize, ttl) && m < n < |states| && NotSet(steps, m, n, k)
    requires Only(CacheLookup(states[m + 1].shards, k), allowed)
    ensures Only(CacheLookup(states[n].shards, k), allowed)
    ensures |states[m + 1].calls| <= |states[n].calls|
    ensures AllReadOnly(states[n].calls, k, allowed, |states[m + 1].calls|)
    decreases n
  {
    if n > m + 1 {
      LaterReads(states, steps, maxSize, ttl, m, n - 1, k, allowed);
      assert Moves(states[n - 1], steps[n - 1], states[n], ttl);
      hide Inv, Moves;
      RunKeepsInv(states, steps, maxSize, ttl, n - 1);
      StepEffects(states[n - 1], steps[n - 1], states[n], PerShard(maxSize), ttl, k);
      CallsReadOnly(states[n - 1], steps[n - 1], states[n], ttl, k, allowed, |states[m + 1].calls|);
    }
  }

  /**
   From a `Delete` to the next `Set` of the key, in every interleaving, the key is not in the
   cache, and no `Get` of it that starts meanwhile is a hit.
   */
  lemma DeletedStaysAbsent(states: seq<State>, steps: seq<Step>, maxSize: int, ttl: int, m: nat, n: nat, k: Key)
    requires IsRun(states, steps, maxSize, ttl) && m < n < |states| && steps[m] == Delete(k) && NotSet(steps, m, n, k)
    ensures CacheLookup(states[n].shards, k) == None
    ensures forall i :: |states[m + 1].calls| <= i < |states[n].calls| && states[n].calls[i].key == k ==>
              !states[n].calls[i].phase.Hit?
  {
    DeleteIsExact(states, steps, maxSize, ttl, m, k);
    LaterReads(states, steps, maxSize, ttl, m, n, k, None);
  }

  /**
   A `Set` makes its value readable at once; and from it to the next `Set` of the key the
   cache holds that entry or nothing, and every `Get` of it that starts meanwhile and hits
   returns that value, within `ttl` of the `Set`.
   */
  lemma SetIsSeen(states: seq<State>, steps: seq<Step>, maxSize: int, ttl: int, m: nat, n: nat, k: Key, v: Value)
    requires IsRun(states, steps, maxSize, ttl) && m < n < |states| && steps[m] == Set(k, v) && NotSet(steps, m, n, k)
    ensures CacheLookup(states[m + 1].shards, k) == Some(Entry(v, states[m].now + ttl))
    ensures CacheLookup(states[n].shards, k).Some? ==>
              CacheLookup(states[n].shards, k) == Some(Entry(v, states[m].now + ttl))
    ensures forall i :: |states[m + 1].calls| <= i < |states[n].calls| && states[n].calls[i].key == k
                        && states[n].calls[i].phase.Hit? ==>
              states[n].calls[i].phase.value == v && states[n].calls[i].phase.checked - states[m].now <= ttl
  {
    assert Moves(states[m], steps[m], states[m + 1], ttl);
    RunKeepsInv(states, steps, maxSize, ttl, m);
    StepEffects(states[m], steps[m], states[m + 1], PerShard(maxSize), ttl, k);
    LaterReads(states, steps, maxSize, ttl, m, n, k, Some(Entry(v, states[m].now + ttl)));
  }

  // ---------------------------------------------------------- what a `Get` returns

  /** Before state `n`, call `i` read `found`, from the log's position `at` on. */
  ghost predicate ReadAt(states: seq<State>, steps: seq<Step>, n: nat, i: nat, k: Key, found: Option<Entry>, at: nat)
    requires |states| == |steps| + 1
  {
    exists m :: && 0 <= m < n && m < |steps| && steps[m] == Read(i)
                && CacheLookup(states[m].shards, k) == found && at == |states[m].log|
  }

  ghost predicate CheckedAt(states: seq<State>, steps: seq<Step>, c: int, i: nat, k: Key, e: Entry, at: nat)
    requires |states| == |steps| + 1
  {
    0 <= c < |steps| && steps[c] == Check(i) && ReadAt(states, steps, c, i, k, Some(e), at)
  }

  ghost predicate TooOld(states: seq<State>, steps: seq<Step>, n: nat, i: nat, k: Key)
    requires |states| == |steps| + 1
  {
    exists c, e, at :: 0 <= c < n && CheckedAt(states, steps, c, i, k, e, at) && e.expiresAt < states[c].now
  }

  ghost predicate Fresh(states: seq<State>, steps: seq<Step>, n: nat, i: nat, k: Key, v: Value, at: nat, time: int)
    requires |states| == |steps| + 1
  {
    exists c, e :: 0 <= c < n && CheckedAt(states, steps, c, i, k, e, at) && e.value == v
                   && time == states[c].now <= e.expiresAt
  }

  ghost predicate StartedAt(states: seq<State>, steps: seq<Step>, n: nat, i: nat, k: Key, since: nat)
    requires |states| == |steps| + 1
  {
    exists m :: 0 <= m < n && m < |steps| && steps[m] == Start(k) && |states[m].calls| == i && |states[m].log| == since
  }

  ghost predicate CallTrace(c: Call, states: seq<State>, steps: seq<Step>, n: nat, i: nat)
    requires |states| == |steps| + 1
  {
    && StartedAt(states, steps, n, i, c.key, c.since)
    && match c.phase
       case Started => true
       case Found(e, at) => ReadAt(states, steps, n, i, c.key, Some(e), at)
       case Expired(e, at) => TooOld(states, steps, n, i, c.key)
       case Hit(v, at, time) => Fresh(states, steps, n, i, c.key, v, at, time)
       case Missed =>
         || (exists at :: ReadAt(states, steps, n, i, c.key, None, at))
         || (TooOld(states, steps, n, i, c.key) && LazyDelete(i) in steps[..Min(n, |steps|)])
  }

  lemma TraceGrows(c: Call, states: seq<State>, steps: seq<Step>, n: nat, i: nat)
    requires n < |steps| && |states| == |steps| + 1 && CallTrace(c, states, steps, n, i)
    ensures CallTrace(c, states, steps, n + 1, i)
  {
    assert steps[..n + 1] == steps[..n] + [steps[n]];
    forall found, at | ReadAt(states, steps, n, i, c.key, found, at)
      ensures ReadAt(states, steps, n + 1, i, c.key, found, at) {}
  }

  lemma OwnStep(states: seq<State>, steps: seq<Step>, n: nat, i: nat, ttl: int)
    requires |states| == |steps| + 1 && n < |steps| && Moves(states[n], steps[n], states[n + 1], ttl)
    requires steps[n] == Read(i) || steps[n] == Check(i) || steps[n] == LazyDelete(i)
    requires CallTrace(states[n].calls[i], states, steps, n, i)
    ensures CallTrace(states[n + 1].calls[i], states, steps, n + 1, i)
  {
    var c := states[n].calls[i];
    TraceGrows(c, states, steps, n, i);
    if steps[n].Read? {
      assert ReadAt(states, steps, n + 1, i, c.key, CacheLookup(states[n].shards, c.key), |states[n].log|);
    } else if steps[n].Check? {
      assert CheckedAt(states, steps, n, i, c.key, c.phase.entry, c.phase.at);
    } else {
      assert steps[..n + 1][n] == LazyDelete(i);
    }
  }

  predicate Of(step: Step, i: nat) {
    step == Read(i) || step == Check(i) || step == LazyDelete(i)
  }

  /** No step moves a call but its own; calls begin with the read still to come. */
  lemma CallsStay(s: State, step: Step, t: State, ttl: int, i: nat)
    requires Moves(s, step, t, ttl) && i < |t.calls|
    ensures i < |s.calls| ==> t.calls[i].key == s.calls[i].key && (!Of(step, i) ==> t.calls[i] == s.calls[i])
    ensures |s.calls| <= i ==>
              i == |s.calls| && step.Start? && t.calls[i] == Call(step.key, |s.log|, Started)
  {}

  lemma NewCallTrace(states: seq<State>, steps: seq<Step>, n: nat, i: nat)
    requires |states| == |steps| + 1 && n < |steps| && steps[n].Start? && i == |states[n].calls|
    ensures CallTrace(Call(steps[n].key, |states[n].log|, Started), states, steps, n + 1, i)
  {}

  lemma {:induction false} RunTracesCalls(states: seq<State>, steps: seq<Step>, maxSize: int, ttl: int, n: nat, i: nat)
    requires IsRun(states, steps, maxSize, ttl) && n < |states| && i < |states[n].calls|
    ensures CallTrace(states[n].calls[i], states, steps, n, i)
    decreases n
  {
    if n > 0 {
      assert Moves(states[n - 1], steps[n - 1], states[n], ttl);
      CallsStay(states[n - 1], steps[n - 1], states[n], ttl, i);
      hide CallTrace, Moves;
      if |states[n - 1].calls| <= i {
        NewCallTrace(states, steps, n - 1, i);
      } else {
        RunTracesCalls(states, steps, maxSize, ttl, n - 1, i);
        if Of(steps[n - 1], i) {
          OwnStep(states, steps, n - 1, i, ttl);
        } else {
          TraceGrows(states[n - 1].calls[i], states, steps, n - 1, i);
        }
      }
    }
  }

  /**
   A `Get` hits only with what the cache held when the call read it, unexpired when it
   checked; it misses only if the key was then absent, or expired when it checked.
   */
  lemma GetFollowsItsRead(states: seq<State>, steps: seq<Step>, maxSize: int, ttl: int, n: nat, i: nat)
    requires IsRun(states, steps, maxSize, ttl) && n < |states| && i < |states[n].calls|
    ensures var c := states[n].calls[i];
            && StartedAt(states, steps, n, i, c.key, c.since)
            && (c.phase.Hit? ==> Fresh(states, steps, n, i, c.key, c.phase.value, c.phase.at, c.phase.checked))
            && (c.phase.Missed? ==>
                  || (exists at :: ReadAt(states, steps, n, i, c.key, None, at))
                  || TooOld(states, steps, n, i, c.key))
  {
    RunTracesCalls(states, steps, maxSize, ttl, n, i);
  }
}
