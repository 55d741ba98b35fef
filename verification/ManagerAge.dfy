/**
 Bounded age: no read path ever writes L2, so a value served from either tier
 entered the system a bounded time before.

 `writeDelay` bounds the time from a value's entry to the landing of its L2 write,
 and the time from the origin's return to the L1 fill; `fillDelay` bounds the time
 from a read of L2 to the L1 fill it causes.
 */
module ManagerAge {
  import opened CacheTypes
  import opened Manager
  import P = ManagerProvenance

  datatype Delays = Delays(write: nat, fill: nat)

  function Entry(events: seq<Event>, item: Item): int
    requires item.src < |events|
  {
    events[item.src].time
  }

  /** The step happens within the delays. */
  ghost predicate Timely(s: State, step: Step, d: Delays)
    requires P.Provenance(s) && Enabled(s, step)
  {
    match step
    case Land(f) =>
      assert P.FlightOk(s.events, s.flights[f]);
      s.now - Entry(s.events, s.flights[f].write.payload) <= d.write
    case EndWrite(w, ok) =>
      assert P.WriterOk(s.events, s.writers[w]);
      ok && s.writers[w].change.Some? ==> s.now - Entry(s.events, s.writers[w].change.value) <= d.write
    case FillFromOrigin(f) =>
      assert P.FlightOk(s.events, s.flights[f]);
      s.now - Entry(s.events, s.flights[f].phase.item) <= d.write
    case FillL1(i) => s.now - s.calls[i].phase.at <= d.fill
    case _ => true
  }

  function L2Bound(cfg: Config, d: Delays): int { d.write + cfg.ttl2 }

  function L1Bound(cfg: Config, d: Delays): int { d.write + cfg.ttl2 + d.fill + cfg.ttl1 }

  /** `time` is at most `bound` after the entry of `item`. */
  ghost predicate Within(events: seq<Event>, item: Item, time: int, bound: int) {
    item.src < |events| && time - events[item.src].time <= bound
  }

  ghost predicate TierAge(events: seq<Event>, tier: map<Key, Stored>, bound: int) {
    forall k :: k in tier ==> Within(events, tier[k].item, tier[k].expires, bound)
  }

  ghost predicate CallAge(events: seq<Event>, c: Call, cfg: Config, d: Delays) {
    match c.phase
    case FoundL1(found) => Within(events, found.item, found.expires, L1Bound(cfg, d))
    case HitL1(item, at) => Within(events, item, at, L1Bound(cfg, d))
    case HitL2(item, at) => Within(events, item, at, L2Bound(cfg, d))
    case FillingL1(item, at) => Within(events, item, at, L2Bound(cfg, d))
    case Returning(via, o) => ServedAge(events, via, o, cfg, d)
    case Returned(via, o) => ServedAge(events, via, o, cfg, d)
    case _ => true
  }

  ghost predicate ServedAge(events: seq<Event>, via: Via, o: Outcome, cfg: Config, d: Delays) {
    match via
    case ViaL1(at) => o.Got? && Within(events, o.item, at, L1Bound(cfg, d))
    case ViaL2(at) => o.Got? && Within(events, o.item, at, L2Bound(cfg, d))
    case ViaFlight(_, _, _) => true
  }

  ghost predicate CallsAge(events: seq<Event>, calls: seq<Call>, cfg: Config, d: Delays) {
    forall i :: 0 <= i < |calls| ==> CallAge(events, calls[i], cfg, d)
  }

  ghost predicate Aged(s: State, cfg: Config, d: Delays) {
    && TierAge(s.events, s.l1, L1Bound(cfg, d))
    && TierAge(s.events, s.l2, L2Bound(cfg, d))
    && CallsAge(s.events, s.calls, cfg, d)
  }

  lemma EventsGrow(events: seq<Event>, e: Event, l1: map<Key, Stored>, l2: map<Key, Stored>, calls: seq<Call>,
                   cfg: Config, d: Delays)
    requires TierAge(events, l1, L1Bound(cfg, d)) && TierAge(events, l2, L2Bound(cfg, d))
    requires CallsAge(events, calls, cfg, d)
    ensures TierAge(events + [e], l1, L1Bound(cfg, d)) && TierAge(events + [e], l2, L2Bound(cfg, d))
    ensures CallsAge(events + [e], calls, cfg, d)
  {}

  lemma TierPut(events: seq<Event>, tier: map<Key, Stored>, bound: int, k: Key, e: Stored)
    requires TierAge(events, tier, bound) && Within(events, e.item, e.expires, bound)
    ensures TierAge(events, tier[k := e], bound)
  {}

  lemma ReadStep(s: State, cfg: Config, d: Delays, step: Step)
    requires Aged(s, cfg, d) && Enabled(s, step) && 0 < cfg.ttl2
    requires step.ReadL1? || step.CheckL1? || step.LazyDelete? || step.ReadL2?
    ensures Aged(Next(s, cfg, step), cfg, d)
  {
    assert CallAge(s.events, s.calls[step.i], cfg, d);
    var t := Next(s, cfg, step);
    assert CallAge(s.events, t.calls[step.i], cfg, d);
    assert t.calls == s.calls[step.i := t.calls[step.i]];
  }

  lemma CountStep(s: State, cfg: Config, d: Delays, step: Step)
    requires Aged(s, cfg, d) && Enabled(s, step)
    requires step.CountMiss1? || step.CountHit1? || step.CountMiss2? || step.CountHit2? || step.Return?
    ensures Aged(Next(s, cfg, step), cfg, d)
  {}

  /** The two L1 fills and the two L2 writes, where the delays and the lifetimes add up. */
  lemma FillStep(s: State, cfg: Config, d: Delays, step: Step)
    requires P.Provenance(s) && Aged(s, cfg, d) && Enabled(s, step) && Timely(s, step, d)
    requires 0 < cfg.ttl2
    requires step.FillL1? || step.FillFromOrigin? || step.Land? || step.EndWrite?
    ensures Aged(Next(s, cfg, step), cfg, d)
  {
    match step
    case FillL1(i) =>
      assert CallAge(s.events, s.calls[i], cfg, d);
      TierPut(s.events, s.l1, L1Bound(cfg, d), s.calls[i].key, Stored(s.calls[i].phase.item, s.now + cfg.ttl1));
    case FillFromOrigin(f) =>
      assert P.FlightOk(s.events, s.flights[f]);
      TierPut(s.events, s.l1, L1Bound(cfg, d), s.flights[f].key, Stored(s.flights[f].phase.item, s.now + cfg.ttl1));
    case Land(f) =>
      assert P.FlightOk(s.events, s.flights[f]);
      TierPut(s.events, s.l2, L2Bound(cfg, d), s.flights[f].key, Stored(s.flights[f].write.payload, s.now + cfg.ttl2));
    case EndWrite(w, ok) =>
      assert P.WriterOk(s.events, s.writers[w]);
      if ok && s.writers[w].change.Some? {
        TierPut(s.events, s.l2, L2Bound(cfg, d), s.writers[w].key, Stored(s.writers[w].change.value, s.now + cfg.ttl2));
      }
  }

  lemma EventStep(s: State, cfg: Config, d: Delays, step: Step)
    requires Aged(s, cfg, d) && Enabled(s, step)
    requires 0 < cfg.ttl2
    requires step.OriginReturns? || step.BeginSet? || step.BeginInvalidate?
    ensures Aged(Next(s, cfg, step), cfg, d)
  {
    match step
    case OriginReturns(f, v) =>
      EventsGrow(s.events, Fetched(s.flights[f].key, v, s.now), s.l1, s.l2, s.calls, cfg, d);
    case BeginSet(k, v) =>
      EventsGrow(s.events, Wrote(k, v, s.now), s.l1, s.l2, s.calls, cfg, d);
      TierPut(s.events + [Wrote(k, v, s.now)], s.l1, L1Bound(cfg, d), k, Stored(Item(v, |s.events|), s.now + cfg.ttl1));
    case BeginInvalidate(k) =>
      EventsGrow(s.events, Invalidated(k, s.now), s.l1, s.l2, s.calls, cfg, d);
  }

  lemma StepKeepsAge(s: State, cfg: Config, d: Delays, step: Step)
    requires P.Provenance(s) && Aged(s, cfg, d) && Enabled(s, step) && Timely(s, step, d)
    requires 0 < cfg.ttl2
    ensures Aged(Next(s, cfg, step), cfg, d)
  {
    if step.ReadL1? || step.CheckL1? || step.LazyDelete? || step.ReadL2? {
      ReadStep(s, cfg, d, step);
    } else if step.FillL1? || step.FillFromOrigin? || step.Land? || step.EndWrite? {
      FillStep(s, cfg, d, step);
    } else if step.OriginReturns? || step.BeginSet? || step.BeginInvalidate? {
      EventStep(s, cfg, d, step);
    } else if OnL1(step) || OnL2(step) {
      CountStep(s, cfg, d, step);
    }
  }

  ghost predicate TimelyAt(s: State, step: Step, d: Delays) {
    P.Provenance(s) && Enabled(s, step) ==> Timely(s, step, d)
  }

  ghost predicate TimelyRun(states: seq<State>, cfg: Config, steps: seq<Step>, d: Delays) {
    && IsRun(states, cfg, steps)
    && forall n :: 0 <= n < |steps| ==> TimelyAt(states[n], steps[n], d)
  }

  lemma MoveKeepsAge(s: State, cfg: Config, d: Delays, step: Step, t: State)
    requires P.Provenance(s) && Aged(s, cfg, d) && Moves(s, cfg, step, t) && TimelyAt(s, step, d)
    requires 0 < cfg.ttl2
    ensures Aged(t, cfg, d)
  {
    StepKeepsAge(s, cfg, d, step);
  }

  lemma InitiallyAged(now: int, cfg: Config, d: Delays)
    ensures Aged(Initial(now), cfg, d)
  {}

  lemma RunMove(states: seq<State>, cfg: Config, steps: seq<Step>, d: Delays, n: nat)
    requires TimelyRun(states, cfg, steps, d) && n < |steps|
    ensures P.Provenance(states[n]) && Moves(states[n], cfg, steps[n], states[n + 1])
    ensures TimelyAt(states[n], steps[n], d)
  {
    P.RunKeepsProvenance(states, cfg, steps, n);
  }

  lemma {:induction false} RunKeepsAge(states: seq<State>, cfg: Config, steps: seq<Step>, d: Delays, n: nat)
    requires TimelyRun(states, cfg, steps, d) && n < |states| && 0 < cfg.ttl2
    ensures Aged(states[n], cfg, d)
  {
    if n == 0 {
      InitiallyAged(states[0].now, cfg, d);
    } else {
      RunKeepsAge(states, cfg, steps, d, n - 1);
      RunMove(states, cfg, steps, d, n - 1);
      MoveKeepsAge(states[n - 1], cfg, d, steps[n - 1], states[n]);
    }
  }

  /**
   Over every run that meets the delays, a value served from L2 entered the system
   at most `writeDelay + ttl2` before it was read there, and a value served from L1
   at most `writeDelay + ttl2 + fillDelay + ttl1` before its expiry was checked.
   */
  lemma BoundedAge(states: seq<State>, cfg: Config, steps: seq<Step>, d: Delays, n: nat, i: nat)
    requires TimelyRun(states, cfg, steps, d) && n < |states| && 0 < cfg.ttl2
    requires i < |states[n].calls| && states[n].calls[i].phase.Returned?
    requires !states[n].calls[i].phase.via.ViaFlight?
    ensures var s, c := states[n], states[n].calls[i];
            && c.phase.outcome.Got?
            && P.Sourced(s.events, c.key, c.phase.outcome.item)
            && c.phase.via.at - s.events[c.phase.outcome.item.src].time <=
               if c.phase.via.ViaL2? then d.write + cfg.ttl2 else d.write + cfg.ttl2 + d.fill + cfg.ttl1
  {
    RunKeepsAge(states, cfg, steps, d, n);
    P.RunKeepsProvenance(states, cfg, steps, n);
    var s, c := states[n], states[n].calls[i];
    assert CallAge(s.events, c, cfg, d) && P.CallOk(s.events, s.flights, c);
  }
}
