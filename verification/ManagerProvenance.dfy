/**
 Every value held or returned for a key came from a `Set` of that key or from an
 origin call for it, in every interleaving and with any losses and failures.
 */
module ManagerProvenance {
  import opened CacheTypes
  import opened Manager

  /** Event `src` brought this value into the system under key `k`. */
  ghost predicate Sourced(events: seq<Event>, k: Key, item: Item) {
    && item.src < |events|
    && !events[item.src].Invalidated?
    && events[item.src].key == k && events[item.src].value == item.value
  }

  ghost predicate TierOk(events: seq<Event>, tier: map<Key, Stored>) {
    forall k :: k in tier ==> Sourced(events, k, tier[k].item)
  }

  ghost predicate OutcomeOk(events: seq<Event>, k: Key, o: Outcome) {
    o.Got? ==> Sourced(events, k, o.item)
  }

  ghost predicate CallOk(events: seq<Event>, flights: seq<Flight>, c: Call) {
    match c.phase
    case FoundL1(found) => Sourced(events, c.key, found.item)
    case HitL1(item, _) => Sourced(events, c.key, item)
    case HitL2(item, _) => Sourced(events, c.key, item)
    case FillingL1(item, _) => Sourced(events, c.key, item)
    case InFlight(f, _) => f < |flights| && flights[f].key == c.key
    case Returning(_, o) => OutcomeOk(events, c.key, o)
    case Returned(_, o) => OutcomeOk(events, c.key, o)
    case _ => true
  }

  ghost predicate FlightOk(events: seq<Event>, f: Flight) {
    && (f.write.Waiting? ==> Sourced(events, f.key, f.write.payload))
    && match f.phase
       case Filling(item) => Sourced(events, f.key, item)
       case Finishing(o) => OutcomeOk(events, f.key, o)
       case Done(o) => OutcomeOk(events, f.key, o)
       case _ => true
  }

  ghost predicate WriterOk(events: seq<Event>, w: Writer) {
    w.change.Some? ==> Sourced(events, w.key, w.change.value)
  }

  ghost predicate GroupOk(group: map<Key, nat>, flights: seq<Flight>) {
    forall k :: k in group ==> group[k] < |flights| && flights[group[k]].key == k
  }

  ghost predicate CallsOk(events: seq<Event>, flights: seq<Flight>, calls: seq<Call>) {
    forall i :: 0 <= i < |calls| ==> CallOk(events, flights, calls[i])
  }

  ghost predicate FlightsOk(events: seq<Event>, flights: seq<Flight>) {
    forall f :: 0 <= f < |flights| ==> FlightOk(events, flights[f])
  }

  ghost predicate WritersOk(events: seq<Event>, writers: seq<Writer>) {
    forall w :: 0 <= w < |writers| ==> WriterOk(events, writers[w])
  }

  ghost predicate Provenance(s: State) {
    && TierOk(s.events, s.l1) && TierOk(s.events, s.l2)
    && CallsOk(s.events, s.flights, s.calls)
    && FlightsOk(s.events, s.flights)
    && WritersOk(s.events, s.writers)
    && GroupOk(s.group, s.flights)
  }

  // ---------------------------------------------------------------- what may grow

  /** The same flights, in the same places and for the same keys, and perhaps more. */
  ghost predicate Extends(before: seq<Flight>, after: seq<Flight>) {
    |before| <= |after| && forall f :: 0 <= f < |before| ==> after[f].key == before[f].key
  }

  lemma EventsGrow(s: State, e: Event)
    requires Provenance(s)
    ensures Provenance(s.(events := s.events + [e]))
  {}

  lemma FlightsExtend(events: seq<Event>, calls: seq<Call>, group: map<Key, nat>,
                      before: seq<Flight>, after: seq<Flight>)
    requires Extends(before, after) && CallsOk(events, before, calls) && GroupOk(group, before)
    ensures CallsOk(events, after, calls) && GroupOk(group, after)
  {}

  // ------------------------------------------------------------------- the steps

  lemma MoveKeeps(s: State, i: nat, p: Phase)
    requires Provenance(s) && i < |s.calls|
    requires CallOk(s.events, s.flights, s.calls[i].(phase := p))
    ensures Provenance(Move(s, i, p))
  {}

  lemma L1Step(s: State, cfg: Config, step: Step)
    requires Provenance(s) && Enabled(s, step)
    requires OnL1(step)
    ensures Provenance(Next(s, cfg, step))
  {}

  lemma L2Step(s: State, cfg: Config, step: Step)
    requires Provenance(s) && Enabled(s, step)
    requires OnL2(step) && !step.FillL1?
    ensures Provenance(Next(s, cfg, step))
  {
    assert CallOk(s.events, s.flights, s.calls[step.i]);
    MoveKeeps(s, step.i, Next(s, cfg, step).calls[step.i].phase);
  }

  lemma FillStep(s: State, cfg: Config, i: nat)
    requires Provenance(s) && Enabled(s, FillL1(i))
    ensures Provenance(Next(s, cfg, FillL1(i)))
  {
    assert CallOk(s.events, s.flights, s.calls[i]);
    MoveKeeps(s, i, Returning(ViaL2(s.calls[i].phase.at), Got(s.calls[i].phase.item)));
  }

  lemma EnterStep(s: State, cfg: Config, i: nat)
    requires Provenance(s) && Enabled(s, EnterGroup(i))
    ensures Provenance(AfterEnter(s, cfg, i))
  {}

  lemma LeaveStep(s: State, cfg: Config, i: nat)
    requires Provenance(s) && Enabled(s, LeaveGroup(i))
    ensures Provenance(AfterLeave(s, cfg, i))
  {}

  lemma FlightStep(s: State, cfg: Config, step: Step)
    requires Provenance(s) && Enabled(s, step)
    requires OnFlight(step) && !step.OriginReturns?
    ensures Provenance(Next(s, cfg, step))
  {
    var t := Next(s, cfg, step);
    FlightsExtend(s.events, s.calls, s.group, s.flights, t.flights);
    assert FlightOk(s.events, s.flights[step.f]);
  }

  lemma OriginStep(s: State, f: nat, v: Value)
    requires Provenance(s) && f < |s.flights|
    ensures Provenance(AfterOrigin(s, f, v))
  {}

  lemma WriteStep(s: State, cfg: Config, step: Step)
    requires Provenance(s) && Enabled(s, step)
    requires step.BeginSet? || step.BeginInvalidate?
    ensures Provenance(Next(s, cfg, step))
  {
    match step
    case BeginSet(k, v) => EventsGrow(s, Wrote(k, v, s.now));
    case BeginInvalidate(k) => EventsGrow(s, Invalidated(k, s.now));
  }

  lemma EndStep(s: State, cfg: Config, w: nat, ok: bool)
    requires Provenance(s) && Enabled(s, EndWrite(w, ok))
    ensures Provenance(AfterEndWrite(s, cfg, w, ok))
  {
    assert WriterOk(s.events, s.writers[w]);
  }

  lemma StepKeepsProvenance(s: State, cfg: Config, step: Step)
    requires Provenance(s) && Enabled(s, step)
    ensures Provenance(Next(s, cfg, step))
  {
    if OnL1(step) {
      L1Step(s, cfg, step);
    } else if step.FillL1? {
      FillStep(s, cfg, step.i);
    } else if OnL2(step) {
      L2Step(s, cfg, step);
    } else if step.OriginReturns? {
      OriginStep(s, step.f, step.value);
    } else if OnFlight(step) {
      FlightStep(s, cfg, step);
    } else if step.EnterGroup? {
      EnterStep(s, cfg, step.i);
    } else if step.LeaveGroup? {
      LeaveStep(s, cfg, step.i);
    } else if step.BeginSet? || step.BeginInvalidate? {
      WriteStep(s, cfg, step);
    } else if step.EndWrite? {
      EndStep(s, cfg, step.w, step.ok);
    }
  }

  // ------------------------------------------------------------------ whole runs

  lemma {:induction false} RunKeepsProvenance(states: seq<State>, cfg: Config, steps: seq<Step>, n: nat)
    requires IsRun(states, cfg, steps) && n < |states|
    ensures Provenance(states[n])
  {
    if n > 0 {
      RunKeepsProvenance(states, cfg, steps, n - 1);
      assert Moves(states[n - 1], cfg, steps[n - 1], states[n]);
      StepKeepsProvenance(states[n - 1], cfg, steps[n - 1]);
    }
  }

  /** Some event before the end of the history brought `value` into the system for `k`. */
  ghost predicate Entered(s: State, k: Key, value: Value) {
    exists n :: 0 <= n < |s.events| && Sourced(s.events, k, Item(value, n))
  }

  /** The item a flight carries, once the origin has answered. */
  function Carried(p: FlightPhase): Option<Item> {
    match p
    case Filling(item) => Some(item)
    case Finishing(Got(item)) => Some(item)
    case Done(Got(item)) => Some(item)
    case _ => None
  }

  /**
   Whatever a tier holds for a key, whatever a flight, a pending background write or
   an unfinished `Set` carries for it, and whatever a `Get` returns for it, entered
   the system by a `Set` of that key or by an origin call for that key.
   */
  lemma ValuesComeFromWrites(states: seq<State>, cfg: Config, steps: seq<Step>, n: nat)
    requires IsRun(states, cfg, steps) && n < |states|
    ensures var s := states[n];
            && (forall k :: k in s.l1 ==> Entered(s, k, s.l1[k].item.value))
            && (forall k :: k in s.l2 ==> Entered(s, k, s.l2[k].item.value))
            && (forall i :: 0 <= i < |s.calls| && s.calls[i].phase.Returned? && s.calls[i].phase.outcome.Got? ==>
                  Entered(s, s.calls[i].key, s.calls[i].phase.outcome.item.value))
            && (forall f :: 0 <= f < |s.flights| && s.flights[f].write.Waiting? ==>
                  Entered(s, s.flights[f].key, s.flights[f].write.payload.value))
            && (forall f :: 0 <= f < |s.flights| && Carried(s.flights[f].phase).Some? ==>
                  Entered(s, s.flights[f].key, Carried(s.flights[f].phase).value.value))
            && (forall w :: 0 <= w < |s.writers| && s.writers[w].change.Some? ==>
                  Entered(s, s.writers[w].key, s.writers[w].change.value.value))
  {
    RunKeepsProvenance(states, cfg, steps, n);
    var s := states[n];
    forall k, item | Sourced(s.events, k, item) ensures Entered(s, k, item.value) {
      assert Sourced(s.events, k, Item(item.value, item.src));
    }
    forall i | 0 <= i < |s.calls| ensures CallOk(s.events, s.flights, s.calls[i]) {}
    forall f | 0 <= f < |s.flights| ensures FlightOk(s.events, s.flights[f]) {}
    forall w | 0 <= w < |s.writers| ensures WriterOk(s.events, s.writers[w]) {}
  }

  // ------------------------------------------------- an origin that is a function

  ghost predicate AnswersFor(s: State, step: Step, origin: Key -> Value) {
    step.OriginReturns? && step.f < |s.flights| ==> step.value == origin(s.flights[step.f].key)
  }

  /** Every event for `k` is an invalidation, or a fetch that returned `origin(k)`. */
  ghost predicate OnlyOrigin(s: State, k: Key, origin: Key -> Value) {
    forall n :: 0 <= n < |s.events| && s.events[n].key == k ==>
      s.events[n].Invalidated? || (s.events[n].Fetched? && s.events[n].value == origin(k))
  }

  lemma StepKeepsOnlyOrigin(s: State, cfg: Config, step: Step, k: Key, origin: Key -> Value)
    requires OnlyOrigin(s, k, origin) && Enabled(s, step) && AnswersFor(s, step, origin)
    requires step.BeginSet? ==> step.key != k
    ensures OnlyOrigin(Next(s, cfg, step), k, origin)
  {}

  lemma {:induction false} RunKeepsOnlyOrigin(states: seq<State>, cfg: Config, steps: seq<Step>, n: nat, k: Key,
                                              origin: Key -> Value)
    requires IsRun(states, cfg, steps) && n < |states|
    requires forall m :: 0 <= m < |steps| ==> AnswersFor(states[m], steps[m], origin)
    requires forall m :: 0 <= m < |steps| && steps[m].BeginSet? ==> steps[m].key != k
    ensures OnlyOrigin(states[n], k, origin)
  {
    if n > 0 {
      RunKeepsOnlyOrigin(states, cfg, steps, n - 1, k, origin);
      assert Moves(states[n - 1], cfg, steps[n - 1], states[n]);
      assert AnswersFor(states[n - 1], steps[n - 1], origin);
      StepKeepsOnlyOrigin(states[n - 1], cfg, steps[n - 1], k, origin);
    }
  }

  /**
   If the origin is a function of the key and the key is never `Set`, every
   successful `Get` of the key returns the origin's value, whatever was evicted,
   expired, invalidated or lost on the way.
   */
  lemma GetsReturnTheOrigin(states: seq<State>, cfg: Config, steps: seq<Step>, n: nat, i: nat, origin: Key -> Value)
    requires IsRun(states, cfg, steps) && n < |states| && i < |states[n].calls|
    requires forall m :: 0 <= m < |steps| ==> AnswersFor(states[m], steps[m], origin)
    requires forall m :: 0 <= m < |steps| && steps[m].BeginSet? ==> steps[m].key != states[n].calls[i].key
    requires states[n].calls[i].phase.Returned? && states[n].calls[i].phase.outcome.Got?
    ensures states[n].calls[i].phase.outcome.item.value == origin(states[n].calls[i].key)
  {
    RunKeepsProvenance(states, cfg, steps, n);
    RunKeepsOnlyOrigin(states, cfg, steps, n, states[n].calls[i].key, origin);
    assert CallOk(states[n].events, states[n].flights, states[n].calls[i]);
  }
}
