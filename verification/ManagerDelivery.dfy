/**
 Delivery: what an answer of the origin does, over all runs, with any number of callers
 joined to the flight and anything interleaved. Where a flight is follows from the steps
 taken on it.
 */
module ManagerDelivery {
  import opened CacheTypes
  import opened Manager
  import F = ManagerFlights
  import P = ManagerProvenance

  /** The steps taken before state `n` of a run. */
  function Taken(steps: seq<Step>, n: nat): set<Step>
    requires n <= |steps|
  {
    Elements(steps[..n])
  }

  lemma TakenNext(steps: seq<Step>, n: nat)
    requires n < |steps|
    ensures Taken(steps, n + 1) == Taken(steps, n) + {steps[n]}
  {
    assert steps[..n + 1] == steps[..n] + [steps[n]];
  }

  // ---------------------------------------------------------------------- flights

  predicate Fails(p: FlightPhase) { p == Finishing(Failed) || p == Done(Failed) }

  /** The origin's answer has been put into L1. */
  predicate Filled(p: FlightPhase) { (p.Finishing? || p.Done?) && p.result.Got? }

  /** Where flight `f` is, in terms of the steps taken. */
  ghost predicate FlightTrace(fl: Flight, taken: set<Step>, f: nat) {
    var answer := P.Carried(fl.phase);
    && (forall v :: OriginReturns(f, v) in taken <==> answer.Some? && answer.value.value == v)
    && (OriginFails(f) in taken <==> Fails(fl.phase))
    && (CountOrigin(f) in taken <==> !fl.phase.Created?)
    && (FillFromOrigin(f) in taken <==> Filled(fl.phase))
    && (Complete(f) in taken <==> fl.phase.Done?)
    && (fl.write.NotSpawned? <==> answer.None?)
    && (fl.write.Waiting? ==> answer == Some(fl.write.payload))
    && (Land(f) in taken <==> fl.write.Landed?)
    && (LoseWrite(f) in taken <==> fl.write.Lost?)
  }

  /** No step has been taken on flights yet to be created. */
  ghost predicate OnlyFlights(taken: set<Step>, n: nat) {
    forall step :: step in taken && OnFlight(step) ==> step.f < n
  }

  ghost predicate FlightsTraced(s: State, taken: set<Step>) {
    && OnlyFlights(taken, |s.flights|)
    && forall f :: 0 <= f < |s.flights| ==> FlightTrace(s.flights[f], taken, f)
  }

  lemma OwnFlightStep(s: State, cfg: Config, step: Step, taken: set<Step>)
    requires Enabled(s, step) && OnFlight(step) && FlightTrace(s.flights[step.f], taken, step.f)
    ensures FlightTrace(Next(s, cfg, step).flights[step.f], taken + {step}, step.f)
  {}

  lemma OtherStep(fl: Flight, g: Flight, taken: set<Step>, step: Step, f: nat)
    requires FlightTrace(fl, taken, f) && (OnFlight(step) ==> step.f != f)
    requires g.phase == fl.phase && g.write == fl.write
    ensures FlightTrace(g, taken + {step}, f)
  {}

  lemma FlightStep(s: State, cfg: Config, step: Step, taken: set<Step>)
    requires Enabled(s, step) && OnFlight(step) && FlightsTraced(s, taken)
    ensures FlightsTraced(Next(s, cfg, step), taken + {step})
  {
    var t := Next(s, cfg, step);
    OwnFlightStep(s, cfg, step, taken);
    hide FlightTrace;
    assert t.flights == s.flights[step.f := t.flights[step.f]];
    forall f | 0 <= f < |t.flights| && f != step.f ensures FlightTrace(t.flights[f], taken + {step}, f) {
      OtherStep(s.flights[f], t.flights[f], taken, step, f);
    }
  }

  /** What a step that belongs to no flight does to the flights: one more may be created. */
  lemma FlightsStay(s: State, cfg: Config, step: Step)
    requires Enabled(s, step) && !OnFlight(step)
    ensures var t := Next(s, cfg, step);
            && |s.flights| <= |t.flights| <= |s.flights| + 1
            && (forall f :: 0 <= f < |s.flights| ==>
                  t.flights[f].phase == s.flights[f].phase && t.flights[f].write == s.flights[f].write)
            && (|s.flights| < |t.flights| ==>
                  t.flights[|s.flights|].phase.Created? && t.flights[|s.flights|].write.NotSpawned?)
  {
    if OnL1(step) || OnL2(step) { assert Next(s, cfg, step).flights == s.flights; }
  }

  lemma NewFlightTrace(fl: Flight, taken: set<Step>, step: Step, f: nat)
    requires OnlyFlights(taken, f) && !OnFlight(step) && fl.phase.Created? && fl.write.NotSpawned?
    ensures FlightTrace(fl, taken + {step}, f)
  {}

  lemma GroupStep(s: State, cfg: Config, step: Step, taken: set<Step>)
    requires Enabled(s, step) && !OnFlight(step) && FlightsTraced(s, taken)
    ensures FlightsTraced(Next(s, cfg, step), taken + {step})
  {
    var t := Next(s, cfg, step);
    FlightsStay(s, cfg, step);
    hide FlightTrace, Next, Enabled;
    forall f | 0 <= f < |t.flights| ensures FlightTrace(t.flights[f], taken + {step}, f) {
      if f < |s.flights| {
        OtherStep(s.flights[f], t.flights[f], taken, step, f);
      } else {
        NewFlightTrace(t.flights[f], taken, step, f);
      }
    }
  }

  lemma MoveTraces(s: State, cfg: Config, step: Step, t: State, taken: set<Step>)
    requires Moves(s, cfg, step, t) && FlightsTraced(s, taken)
    ensures FlightsTraced(t, taken + {step})
  {
    hide FlightsTraced, Next, Enabled;
    if OnFlight(step) {
      FlightStep(s, cfg, step, taken);
    } else {
      GroupStep(s, cfg, step, taken);
    }
  }

  lemma {:induction false} RunTracesFlights(states: seq<State>, cfg: Config, steps: seq<Step>, n: nat)
    requires IsRun(states, cfg, steps) && n < |states|
    ensures FlightsTraced(states[n], Taken(steps, n))
    decreases n
  {
    hide FlightTrace, Moves;
    if n > 0 {
      hide FlightsTraced, Taken;
      RunTracesFlights(states, cfg, steps, n - 1);
      TakenNext(steps, n - 1);
      MoveTraces(states[n - 1], cfg, steps[n - 1], states[n], Taken(steps, n - 1));
    }
  }

  /** A call that comes out of a flight has that flight's result. */
  lemma FlightResults(states: seq<State>, cfg: Config, steps: seq<Step>, n: nat)
    requires IsRun(states, cfg, steps) && n < |states|
    ensures forall i :: 0 <= i < |states[n].calls| && states[n].calls[i].phase.Returned?
                        && states[n].calls[i].phase.via.ViaFlight? ==>
              && states[n].calls[i].phase.via.f < |states[n].flights|
              && states[n].flights[states[n].calls[i].phase.via.f].key == states[n].calls[i].key
              && states[n].flights[states[n].calls[i].phase.via.f].phase == Done(states[n].calls[i].phase.outcome)
  {
    F.RunKeepsSingleflight(states, cfg, steps, n);
    forall i | 0 <= i < |states[n].calls| ensures F.CallJoined(states[n].flights, cfg, i, states[n].calls[i]) {}
  }

  /** The write of L2 that an answer `v` of the origin has spawned: to come, over, or lost, by the steps taken. */
  ghost predicate WriteFollows(w: Background, v: Value, f: nat, taken: set<Step>) {
    if Land(f) in taken then w.Landed?
    else if LoseWrite(f) in taken then w.Lost?
    else w.Waiting? && w.payload.value == v
  }

  /**
   When the origin has answered a flight with `v`, its background write of `v` is spawned
   at once, however many calls have joined, and only landing or losing it changes it;
   and every call that comes out of the flight, leader or joiner, returns exactly `v`.
   */
  lemma AnswerIsDelivered(states: seq<State>, cfg: Config, steps: seq<Step>, m: nat, n: nat, f: nat, v: Value)
    requires IsRun(states, cfg, steps) && m < n < |states| && steps[m] == OriginReturns(f, v)
    ensures f < |states[m + 1].flights| && f < |states[n].flights|
    ensures states[m + 1].flights[f].write.Waiting? && states[m + 1].flights[f].write.payload.value == v
    ensures WriteFollows(states[n].flights[f].write, v, f, Taken(steps, n))
    ensures forall i :: 0 <= i < |states[n].calls| && states[n].calls[i].phase.Returned?
                        && states[n].calls[i].phase.via.ViaFlight? && states[n].calls[i].phase.via.f == f ==>
              states[n].calls[i].phase.outcome.Got? && states[n].calls[i].phase.outcome.item.value == v
  {
    RunTracesFlights(states, cfg, steps, m + 1);
    RunTracesFlights(states, cfg, steps, n);
    assert Moves(states[m], cfg, steps[m], states[m + 1]);
    TakenNext(steps, m);
    assert steps[..n][m] == steps[m];
    assert steps[m] in Taken(steps, n) && steps[m] in Taken(steps, m + 1);
    assert FlightTrace(states[n].flights[f], Taken(steps, n), f);
    FlightResults(states, cfg, steps, n);
    hide Next, Enabled, Taken;
  }

  /**
   And every call that comes out of a flight returns the origin's answer to that flight,
   put into L1 before, or fails because the origin did.
   */
  lemma ReturnsThroughFlight(states: seq<State>, cfg: Config, steps: seq<Step>, n: nat, i: nat)
    requires IsRun(states, cfg, steps) && n < |states| && i < |states[n].calls|
    requires states[n].calls[i].phase.Returned? && states[n].calls[i].phase.via.ViaFlight?
    ensures var taken, f, o := Taken(steps, n), states[n].calls[i].phase.via.f, states[n].calls[i].phase.outcome;
            && f < |states[n].flights| && states[n].flights[f].key == states[n].calls[i].key
            && Complete(f) in taken
            && match o
               case Got(item) => OriginReturns(f, item.value) in taken && FillFromOrigin(f) in taken
               case Failed => OriginFails(f) in taken
  {
    RunTracesFlights(states, cfg, steps, n);
    FlightResults(states, cfg, steps, n);
    var f := states[n].calls[i].phase.via.f;
    assert FlightTrace(states[n].flights[f], Taken(steps, n), f);
  }

  /** Only one answer: the origin is called once a flight, and answers or fails once. */
  lemma OneAnswerPerFlight(states: seq<State>, cfg: Config, steps: seq<Step>, n: nat, f: nat, v: Value, w: Value)
    requires IsRun(states, cfg, steps) && n < |states|
    requires OriginReturns(f, v) in Taken(steps, n)
    ensures OriginFails(f) !in Taken(steps, n)
    ensures OriginReturns(f, w) in Taken(steps, n) ==> w == v
  {
    RunTracesFlights(states, cfg, steps, n);
    assert OnFlight(OriginReturns(f, v));
    assert FlightTrace(states[n].flights[f], Taken(steps, n), f);
  }
}
