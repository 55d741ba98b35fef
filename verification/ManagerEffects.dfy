/**
 What changes the tiers, over all runs and with anything interleaved: every entry that
 appears is the value of a `Set`, of an origin's answer or of a read of L2, with a fresh
 lifetime; every entry that goes was dropped, invalidated or too old; nothing else moves.
 */
module ManagerEffects {
  import opened CacheTypes
  import opened Manager
  import P = ManagerProvenance
  import D = ManagerDelivery
  import G = ManagerGets

  // ---------------------------------------------------------------------- the history

  /** The time that has passed in `steps`. */
  function Ticks(steps: seq<Step>): nat {
    if steps == [] then 0
    else Ticks(steps[..|steps| - 1]) + match steps[|steps| - 1] case Tick(d) => d case _ => 0
  }

  /** The moments at which a value entered or was invalidated, read off the steps before state `n`. */
  function Log(states: seq<State>, steps: seq<Step>, n: nat): seq<Event>
    requires n <= |steps| && |states| == |steps| + 1
  {
    if n == 0 then []
    else
      var s := states[n - 1];
      Log(states, steps, n - 1) +
      match steps[n - 1]
      case BeginSet(k, v) => [Wrote(k, v, s.now)]
      case BeginInvalidate(k) => [Invalidated(k, s.now)]
      case OriginReturns(f, v) => if f < |s.flights| then [Fetched(s.flights[f].key, v, s.now)] else []
      case _ => []
  }

  lemma QuietGet(s: State, cfg: Config, step: Step)
    requires Enabled(s, step) && (OnL1(step) || OnL2(step))
    ensures var t := Next(s, cfg, step);
            && t.now == s.now && t.events == s.events && t.writers == s.writers && t.l2 == s.l2
            && t.intercepted == s.intercepted
  {}

  lemma StepHistory(s: State, cfg: Config, step: Step)
    requires Enabled(s, step)
    ensures Next(s, cfg, step).now == s.now + match step case Tick(d) => d case _ => 0
    ensures Next(s, cfg, step).events == s.events +
            match step
            case BeginSet(k, v) => [Wrote(k, v, s.now)]
            case BeginInvalidate(k) => [Invalidated(k, s.now)]
            case OriginReturns(f, v) => [Fetched(s.flights[f].key, v, s.now)]
            case _ => []
  {
    if OnL1(step) || OnL2(step) { QuietGet(s, cfg, step); }
  }

  /** Requests counted by the gRPC interceptor. */
  function Intercepts(steps: seq<Step>): nat {
    if steps == [] then 0
    else Intercepts(steps[..|steps| - 1]) + if steps[|steps| - 1] == Intercept then 1 else 0
  }

  lemma StepIntercepts(s: State, cfg: Config, step: Step)
    requires Enabled(s, step)
    ensures Next(s, cfg, step).intercepted == s.intercepted + if step == Intercept then 1 else 0
  {
    if OnL1(step) || OnL2(step) { QuietGet(s, cfg, step); }
  }

  /** The clock, the interceptor's count and the history variable are what the steps say. */
  lemma {:induction false} HistoryIsTrue(states: seq<State>, cfg: Config, steps: seq<Step>, n: nat)
    requires IsRun(states, cfg, steps) && n < |states|
    ensures states[n].now == states[0].now + Ticks(steps[..n])
    ensures states[n].intercepted == Intercepts(steps[..n])
    ensures states[n].events == Log(states, steps, n)
    decreases n
  {
    if n > 0 {
      HistoryIsTrue(states, cfg, steps, n - 1);
      assert Moves(states[n - 1], cfg, steps[n - 1], states[n]);
      StepHistory(states[n - 1], cfg, steps[n - 1]);
      StepIntercepts(states[n - 1], cfg, steps[n - 1]);
      assert steps[..n][..n - 1] == steps[..n - 1];
    }
  }

  // ---------------------------------------------------------------------- the writers

  /** Writer `w` is the call begun by step `b`. */
  ghost predicate BegunAt(states: seq<State>, steps: seq<Step>, b: int, w: nat, k: Key, change: Option<Value>)
    requires |states| == |steps| + 1
  {
    && 0 <= b < |steps| && |states[b].writers| == w
    && match change case Some(v) => steps[b] == BeginSet(k, v) case None => steps[b] == BeginInvalidate(k)
  }

  function ValueOf(change: Option<Item>): Option<Value> {
    match change case Some(item) => Some(item.value) case None => None
  }

  ghost predicate WriterTrace(wr: Writer, states: seq<State>, steps: seq<Step>, n: nat, w: nat)
    requires |states| == |steps| + 1
  {
    exists b :: 0 <= b < n && BegunAt(states, steps, b, w, wr.key, ValueOf(wr.change))
  }

  lemma WritersStay(s: State, cfg: Config, step: Step, w: nat)
    requires Enabled(s, step) && w < |Next(s, cfg, step).writers|
    ensures w < |s.writers| ==> Next(s, cfg, step).writers[w] ==
                                s.writers[w].(finished := s.writers[w].finished || (step.EndWrite? && step.w == w))
    ensures |s.writers| <= w ==>
              && w == |s.writers| && !Next(s, cfg, step).writers[w].finished
              && match ValueOf(Next(s, cfg, step).writers[w].change)
                 case Some(v) => step == BeginSet(Next(s, cfg, step).writers[w].key, v)
                 case None => step == BeginInvalidate(Next(s, cfg, step).writers[w].key)
    ensures |s.writers| <= |Next(s, cfg, step).writers|
  {
    if OnL1(step) || OnL2(step) { QuietGet(s, cfg, step); }
  }

  lemma {:induction false} RunTracesWriters(states: seq<State>, cfg: Config, steps: seq<Step>, n: nat, w: nat)
    requires IsRun(states, cfg, steps) && n < |states| && w < |states[n].writers|
    ensures WriterTrace(states[n].writers[w], states, steps, n, w)
    decreases n
  {
    if n > 0 {
      assert Moves(states[n - 1], cfg, steps[n - 1], states[n]);
      WritersStay(states[n - 1], cfg, steps[n - 1], w);
      hide Next, Enabled;
      if w < |states[n - 1].writers| {
        RunTracesWriters(states, cfg, steps, n - 1, w);
      } else {
        var wr := states[n].writers[w];
        assert BegunAt(states, steps, n - 1, w, wr.key, ValueOf(wr.change));
      }
    }
  }

  // ------------------------------------------------------------------------- the tiers

  /** The tier holds `v` for `k`, until `expires`. */
  predicate Holds(tier: map<Key, Stored>, k: Key, v: Value, expires: int) {
    k in tier && tier[k].item.value == v && tier[k].expires == expires
  }

  /** What a `Set` of a value, or an `Invalidate`, leaves in a tier. */
  predicate After(tier: map<Key, Stored>, k: Key, change: Option<Value>, expires: int) {
    match change case Some(v) => Holds(tier, k, v, expires) case None => k !in tier
  }

  predicate SameAt(a: map<Key, Stored>, b: map<Key, Stored>, k: Key) {
    (k in a <==> k in b) && (k in a ==> a[k] == b[k])
  }

  /** The step is for key `k` on L1. */
  predicate TouchesL1(s: State, step: Step, k: Key)
    requires Enabled(s, step)
  {
    match step
    case BeginSet(o, _) => o == k
    case BeginInvalidate(o) => o == k
    case DropL1(o) => o == k
    case LazyDelete(i) => s.calls[i].key == k
    case FillL1(i) => s.calls[i].key == k
    case FillFromOrigin(f) => s.flights[f].key == k
    case _ => false
  }

  lemma FlightKeepsL1(s: State, cfg: Config, step: Step, k: Key)
    requires Enabled(s, step) && OnFlight(step) && !TouchesL1(s, step, k)
    ensures SameAt(Next(s, cfg, step).l1, s.l1, k)
  {}

  lemma WriteKeepsL1(s: State, cfg: Config, step: Step, k: Key)
    requires Enabled(s, step) && (step.BeginSet? || step.BeginInvalidate? || step.EndWrite?) && !TouchesL1(s, step, k)
    ensures SameAt(Next(s, cfg, step).l1, s.l1, k)
  {}

  lemma L1Untouched(s: State, cfg: Config, step: Step, k: Key)
    requires Enabled(s, step) && !TouchesL1(s, step, k)
    ensures SameAt(Next(s, cfg, step).l1, s.l1, k)
  {
    if OnFlight(step) {
      FlightKeepsL1(s, cfg, step, k);
    } else if step.BeginSet? || step.BeginInvalidate? || step.EndWrite? {
      WriteKeepsL1(s, cfg, step, k);
    }
  }

  /**
   What each step of a run does to L1's entry for a key. A fill from the origin stores its
   answer to that flight; a fill from L2 what the call read there.
   */
  lemma L1Effects(states: seq<State>, cfg: Config, steps: seq<Step>, m: nat, k: Key)
    requires IsRun(states, cfg, steps) && m < |steps| && Enabled(states[m], steps[m])
    ensures var s, t := states[m], states[m + 1];
            if !TouchesL1(s, steps[m], k) then SameAt(t.l1, s.l1, k)
            else match steps[m]
                 case BeginSet(_, v) => Holds(t.l1, k, v, s.now + cfg.ttl1)
                 case FillFromOrigin(f) =>
                   exists v :: OriginReturns(f, v) in D.Taken(steps, m) && Holds(t.l1, k, v, s.now + cfg.ttl1)
                 case FillL1(i) =>
                   exists item, at :: G.Hit2(states, cfg, steps, m, i, k, item, at)
                                      && Holds(t.l1, k, item.value, s.now + cfg.ttl1)
                 case LazyDelete(i) => G.TooOld(states, steps, m, i, k) && k !in t.l1
                 case _ => k !in t.l1
  {
    var s, step := states[m], steps[m];
    assert Moves(s, cfg, step, states[m + 1]);
    if !TouchesL1(s, step, k) {
      L1Untouched(s, cfg, step, k);
    } else if step.FillFromOrigin? {
      D.RunTracesFlights(states, cfg, steps, m);
      assert D.FlightTrace(s.flights[step.f], D.Taken(steps, m), step.f);
      assert OriginReturns(step.f, s.flights[step.f].phase.item.value) in D.Taken(steps, m);
    } else if step.FillL1? {
      G.RunTracesCalls(states, cfg, steps, m, step.i);
      assert G.Hit2(states, cfg, steps, m, step.i, k, s.calls[step.i].phase.item, s.calls[step.i].phase.at);
    } else if step.LazyDelete? {
      G.RunTracesCalls(states, cfg, steps, m, step.i);
    }
  }

  predicate TouchesL2(s: State, step: Step, k: Key)
    requires Enabled(s, step)
  {
    match step
    case EndWrite(w, ok) => ok && s.writers[w].key == k
    case Land(f) => s.flights[f].key == k
    case DropL2(o) => o == k
    case _ => false
  }

  lemma L2Untouched(s: State, cfg: Config, step: Step, k: Key)
    requires Enabled(s, step) && !TouchesL2(s, step, k)
    ensures SameAt(Next(s, cfg, step).l2, s.l2, k)
  {
    if OnL1(step) || OnL2(step) { QuietGet(s, cfg, step); }
  }

  /**
   What each step of a run does to L2's entry for a key: a background write stores the
   origin's answer to its flight, and the L2 half of a `Set` or `Invalidate` does what the
   call was begun to do. No `Get` writes L2.
   */
  lemma L2Effects(states: seq<State>, cfg: Config, steps: seq<Step>, m: nat, k: Key)
    requires IsRun(states, cfg, steps) && m < |steps| && Enabled(states[m], steps[m])
    ensures var s, t := states[m], states[m + 1];
            if !TouchesL2(s, steps[m], k) then SameAt(t.l2, s.l2, k)
            else match steps[m]
                 case Land(f) =>
                   exists v :: OriginReturns(f, v) in D.Taken(steps, m) && Holds(t.l2, k, v, s.now + cfg.ttl2)
                 case EndWrite(w, _) =>
                   exists b, change :: b < m && BegunAt(states, steps, b, w, k, change)
                                       && After(t.l2, k, change, s.now + cfg.ttl2)
                 case _ => k !in t.l2
  {
    var s, step := states[m], steps[m];
    assert Moves(s, cfg, step, states[m + 1]);
    if !TouchesL2(s, step, k) {
      L2Untouched(s, cfg, step, k);
    } else if step.Land? {
      D.RunTracesFlights(states, cfg, steps, m);
      assert D.FlightTrace(s.flights[step.f], D.Taken(steps, m), step.f);
      assert OriginReturns(step.f, s.flights[step.f].write.payload.value) in D.Taken(steps, m);
    } else if step.EndWrite? {
      RunTracesWriters(states, cfg, steps, m, step.w);
      var change := ValueOf(s.writers[step.w].change);
      var b :| 0 <= b < m && BegunAt(states, steps, b, step.w, k, change);
      assert After(states[m + 1].l2, k, change, s.now + cfg.ttl2);
    }
  }
}
