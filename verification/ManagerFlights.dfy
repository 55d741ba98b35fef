/**
 Singleflight: at most one unfinished fetch per key, and one result for everybody
 who took part in it.
 */
module ManagerFlights {
  import opened CacheTypes
  import opened Manager

  /** What is known of call `i`, given the flights. */
  ghost predicate CallJoined(flights: seq<Flight>, cfg: Config, i: nat, c: Call) {
    match c.phase
    case InFlight(f, leads) =>
      && f < |flights| && flights[f].key == c.key
      && (if leads then flights[f].leader == i && !flights[f].departed else cfg.useSF && flights[f].joiners > 0)
    case Returning(via, o) => ViaOk(flights, cfg, i, c.key, via, o)
    case Returned(via, o) => ViaOk(flights, cfg, i, c.key, via, o)
    case _ => true
  }

  /** A call that came out of a flight has the flight's result, and was told whether it was shared. */
  ghost predicate ViaOk(flights: seq<Flight>, cfg: Config, i: nat, k: Key, via: Via, o: Outcome) {
    via.ViaFlight? ==>
      && via.f < |flights| && flights[via.f].key == k
      && flights[via.f].phase == Done(o)
      && (if via.leads then flights[via.f].leader == i && flights[via.f].departed else cfg.useSF)
      && via.shared == (cfg.useSF && (!via.leads || flights[via.f].joiners > 0))
  }

  /** What is known of flight `f`, given the calls. */
  ghost predicate FlightLed(calls: seq<Call>, cfg: Config, f: nat, fl: Flight) {
    && fl.leader < |calls| && calls[fl.leader].key == fl.key
    && (if fl.departed then fl.phase.Done? else calls[fl.leader].phase == InFlight(f, true))
    && (!cfg.useSF ==> fl.joiners == 0)
  }

  ghost predicate InGroup(group: map<Key, nat>, f: nat, fl: Flight) {
    !fl.phase.Done? ==> fl.key in group && group[fl.key] == f
  }

  ghost predicate GroupSound(group: map<Key, nat>, flights: seq<Flight>) {
    forall k :: k in group ==> group[k] < |flights| && flights[group[k]].key == k && !flights[group[k]].phase.Done?
  }

  ghost predicate GroupComplete(group: map<Key, nat>, flights: seq<Flight>) {
    forall f :: 0 <= f < |flights| ==> InGroup(group, f, flights[f])
  }

  ghost predicate CallsJoined(s: State, cfg: Config) {
    forall i :: 0 <= i < |s.calls| ==> CallJoined(s.flights, cfg, i, s.calls[i])
  }

  ghost predicate FlightsLed(s: State, cfg: Config) {
    forall f :: 0 <= f < |s.flights| ==> FlightLed(s.calls, cfg, f, s.flights[f])
  }

  ghost predicate Coalesced(s: State, cfg: Config) {
    && GroupSound(s.group, s.flights)
    && (cfg.useSF ==> GroupComplete(s.group, s.flights))
    && CallsJoined(s, cfg)
    && FlightsLed(s, cfg)
  }

  // ------------------------------------------------------------------- the steps

  /** A call moves between two points outside every flight. */
  lemma OutsideStep(s: State, t: State, cfg: Config, i: nat)
    requires Coalesced(s, cfg) && i < |s.calls|
    requires !s.calls[i].phase.InFlight?
    requires |t.calls| == |s.calls| && t.calls == s.calls[i := s.calls[i].(phase := t.calls[i].phase)]
    requires t.flights == s.flights && t.group == s.group
    requires CallJoined(s.flights, cfg, i, t.calls[i])
    ensures Coalesced(t, cfg)
  {}

  /** What a step of a `Get` outside every flight may change. */
  lemma GetMoves(s: State, cfg: Config, step: Step)
    requires Coalesced(s, cfg) && Enabled(s, step) && (OnL1(step) || OnL2(step))
    ensures var t := Next(s, cfg, step);
            && !s.calls[step.i].phase.InFlight? && |t.calls| == |s.calls|
            && t.calls == s.calls[step.i := s.calls[step.i].(phase := t.calls[step.i].phase)]
            && t.flights == s.flights && t.group == s.group
            && CallJoined(s.flights, cfg, step.i, t.calls[step.i])
  {
    assert CallJoined(s.flights, cfg, step.i, s.calls[step.i]);
  }

  lemma GetStep(s: State, cfg: Config, step: Step)
    requires Coalesced(s, cfg) && Enabled(s, step) && (OnL1(step) || OnL2(step))
    ensures Coalesced(Next(s, cfg, step), cfg)
  {
    hide Coalesced, Next, CallJoined;
    GetMoves(s, cfg, step);
    OutsideStep(s, Next(s, cfg, step), cfg, step.i);
  }

  lemma StartStep(s: State, cfg: Config, k: Key)
    requires Coalesced(s, cfg)
    ensures Coalesced(s.(calls := s.calls + [Call(k, AtL1)]), cfg)
  {}

  /** Call `i` joins flight `g`. */
  ghost predicate JoinsTo(s: State, t: State, i: nat, g: nat) {
    && i < |s.calls| && g < |s.flights| && s.calls[i].phase.AtOrigin?
    && s.flights[g].key == s.calls[i].key && !s.flights[g].phase.Done?
    && t.calls == s.calls[i := s.calls[i].(phase := InFlight(g, false))]
    && t.flights == s.flights[g := s.flights[g].(joiners := s.flights[g].joiners + 1)]
    && t.group == s.group
  }

  lemma JoinKeepsCalls(s: State, t: State, cfg: Config, i: nat, g: nat)
    requires Coalesced(s, cfg) && JoinsTo(s, t, i, g) && cfg.useSF
    ensures CallsJoined(t, cfg)
  {
    forall j | 0 <= j < |t.calls| ensures CallJoined(t.flights, cfg, j, t.calls[j]) {
      assert CallJoined(s.flights, cfg, j, s.calls[j]);
    }
  }

  lemma JoinKeepsFlights(s: State, t: State, cfg: Config, i: nat, g: nat)
    requires Coalesced(s, cfg) && JoinsTo(s, t, i, g) && cfg.useSF
    ensures FlightsLed(t, cfg) && GroupSound(t.group, t.flights) && GroupComplete(t.group, t.flights)
  {
    forall f | 0 <= f < |t.flights| ensures FlightLed(t.calls, cfg, f, t.flights[f]) {
      assert FlightLed(s.calls, cfg, f, s.flights[f]);
    }
    forall f | 0 <= f < |t.flights| ensures InGroup(t.group, f, t.flights[f]) {
      assert InGroup(s.group, f, s.flights[f]);
    }
  }

  lemma JoinStep(s: State, cfg: Config, i: nat)
    requires Coalesced(s, cfg) && Enabled(s, EnterGroup(i)) && Joins(s, cfg, s.calls[i].key)
    ensures Coalesced(AfterEnter(s, cfg, i), cfg)
  {
    var t, g := AfterEnter(s, cfg, i), s.group[s.calls[i].key];
    assert JoinsTo(s, t, i, g);
    hide JoinsTo, CallsJoined, FlightsLed, AfterEnter;
    JoinKeepsCalls(s, t, cfg, i, g);
    JoinKeepsFlights(s, t, cfg, i, g);
  }

  lemma LeadStep(s: State, cfg: Config, i: nat)
    requires Coalesced(s, cfg) && Enabled(s, EnterGroup(i)) && !Joins(s, cfg, s.calls[i].key)
    ensures Coalesced(AfterEnter(s, cfg, i), cfg)
  {}

  lemma LeaveKeepsCalls(s: State, cfg: Config, i: nat)
    requires Coalesced(s, cfg) && Enabled(s, LeaveGroup(i))
    ensures CallsJoined(AfterLeave(s, cfg, i), cfg)
  {
    var t := AfterLeave(s, cfg, i);
    assert CallJoined(s.flights, cfg, i, s.calls[i]);
    forall j | 0 <= j < |t.calls| ensures CallJoined(t.flights, cfg, j, t.calls[j]) {
      assert CallJoined(s.flights, cfg, j, s.calls[j]);
    }
  }

  lemma LeaveStep(s: State, cfg: Config, i: nat)
    requires Coalesced(s, cfg) && Enabled(s, LeaveGroup(i))
    ensures Coalesced(AfterLeave(s, cfg, i), cfg)
  {
    var t := AfterLeave(s, cfg, i);
    LeaveKeepsCalls(s, cfg, i);
    assert CallJoined(s.flights, cfg, i, s.calls[i]);
    hide CallsJoined;
    forall f | 0 <= f < |t.flights| ensures FlightLed(t.calls, cfg, f, t.flights[f]) {
      assert FlightLed(s.calls, cfg, f, s.flights[f]);
    }
    if cfg.useSF {
      forall f | 0 <= f < |t.flights| ensures InGroup(t.group, f, t.flights[f]) {
        assert InGroup(s.group, f, s.flights[f]);
      }
    }
  }

  /** A flight that is not done moves on, but not to the end. */
  lemma UnfinishedStep(s: State, t: State, cfg: Config, f: nat)
    requires Coalesced(s, cfg) && f < |s.flights|
    requires t.calls == s.calls && t.group == s.group
    requires |t.flights| == |s.flights| && t.flights == s.flights[f := t.flights[f]]
    requires t.flights[f] == s.flights[f].(phase := t.flights[f].phase, write := t.flights[f].write)
    requires t.flights[f].phase == s.flights[f].phase || (!s.flights[f].phase.Done? && !t.flights[f].phase.Done?)
    ensures Coalesced(t, cfg)
  {}

  lemma CompleteCalls(s: State, t: State, cfg: Config, f: nat)
    requires Coalesced(s, cfg) && f < |s.flights| && !s.flights[f].phase.Done?
    requires t.calls == s.calls && |t.flights| == |s.flights| && t.flights == s.flights[f := t.flights[f]]
    requires t.flights[f] == s.flights[f].(phase := t.flights[f].phase)
    ensures CallsJoined(t, cfg)
  {
    forall j | 0 <= j < |t.calls| ensures CallJoined(t.flights, cfg, j, t.calls[j]) {
      assert CallJoined(s.flights, cfg, j, s.calls[j]);
    }
  }

  lemma CompleteStep(s: State, cfg: Config, f: nat)
    requires Coalesced(s, cfg) && Enabled(s, Complete(f))
    requires !cfg.useSF ==> s.group == map[]
    ensures Coalesced(Next(s, cfg, Complete(f)), cfg)
  {
    var t := Next(s, cfg, Complete(f));
    forall g | 0 <= g < |t.flights| ensures FlightLed(t.calls, cfg, g, t.flights[g]) {
      assert FlightLed(s.calls, cfg, g, s.flights[g]);
    }
    if cfg.useSF {
      assert InGroup(s.group, f, s.flights[f]);
      forall g | 0 <= g < |t.flights| ensures InGroup(t.group, g, t.flights[g]) {
        assert InGroup(s.group, g, s.flights[g]);
      }
    }
    CompleteCalls(s, t, cfg, f);
  }

  ghost predicate Singleflight(s: State, cfg: Config) {
    Coalesced(s, cfg) && (!cfg.useSF ==> s.group == map[])
  }

  lemma FlightStep(s: State, cfg: Config, step: Step)
    requires Singleflight(s, cfg) && Enabled(s, step) && OnFlight(step)
    ensures Singleflight(Next(s, cfg, step), cfg)
  {
    if step.Complete? {
      CompleteStep(s, cfg, step.f);
    } else {
      UnfinishedStep(s, Next(s, cfg, step), cfg, step.f);
    }
  }

  lemma GroupStep(s: State, cfg: Config, step: Step)
    requires Singleflight(s, cfg) && Enabled(s, step) && (step.EnterGroup? || step.LeaveGroup?)
    ensures Singleflight(Next(s, cfg, step), cfg)
  {
    if step.LeaveGroup? {
      LeaveStep(s, cfg, step.i);
    } else if Joins(s, cfg, s.calls[step.i].key) {
      JoinStep(s, cfg, step.i);
    } else {
      LeadStep(s, cfg, step.i);
    }
  }

  lemma UntouchedStep(s: State, cfg: Config, step: Step)
    requires Singleflight(s, cfg) && Enabled(s, step)
    requires !OnL1(step) && !OnL2(step) && !OnFlight(step)
    requires !step.EnterGroup? && !step.LeaveGroup? && !step.StartGet?
    ensures Singleflight(Next(s, cfg, step), cfg)
  {
    var t := Next(s, cfg, step);
    assert t.calls == s.calls && t.flights == s.flights && t.group == s.group;
  }

  lemma StepKeepsSingleflight(s: State, cfg: Config, step: Step)
    requires Singleflight(s, cfg) && Enabled(s, step)
    ensures Singleflight(Next(s, cfg, step), cfg)
  {
    if OnL1(step) || OnL2(step) {
      GetStep(s, cfg, step);
    } else if OnFlight(step) {
      FlightStep(s, cfg, step);
    } else if step.EnterGroup? || step.LeaveGroup? {
      GroupStep(s, cfg, step);
    } else if step.StartGet? {
      StartStep(s, cfg, step.key);
    } else {
      UntouchedStep(s, cfg, step);
    }
  }

  // ------------------------------------------------------------------ whole runs

  lemma {:induction false} RunKeepsSingleflight(states: seq<State>, cfg: Config, steps: seq<Step>, n: nat)
    requires IsRun(states, cfg, steps) && n < |states|
    ensures Singleflight(states[n], cfg)
  {
    if n > 0 {
      RunKeepsSingleflight(states, cfg, steps, n - 1);
      assert Moves(states[n - 1], cfg, steps[n - 1], states[n]);
      StepKeepsSingleflight(states[n - 1], cfg, steps[n - 1]);
    }
  }

  /** With singleflight on, two unfinished flights for the same key are the same flight. */
  lemma OneFlightPerKey(states: seq<State>, cfg: Config, steps: seq<Step>, n: nat, f: nat, g: nat)
    requires IsRun(states, cfg, steps) && n < |states| && cfg.useSF
    requires f < |states[n].flights| && g < |states[n].flights|
    requires states[n].flights[f].key == states[n].flights[g].key
    requires !states[n].flights[f].phase.Done? && !states[n].flights[g].phase.Done?
    ensures f == g
  {
    RunKeepsSingleflight(states, cfg, steps, n);
    assert InGroup(states[n].group, f, states[n].flights[f]) && InGroup(states[n].group, g, states[n].flights[g]);
  }

  // ------------------------------------------------------------------- the leader

  /** The call leads flight `f`, or led it. */
  predicate LeadsFlight(c: Call, f: nat) {
    match c.phase
    case InFlight(g, leads) => g == f && leads
    case Returning(via, _) => via.ViaFlight? && via.f == f && via.leads
    case Returned(via, _) => via.ViaFlight? && via.f == f && via.leads
    case _ => false
  }

  ghost predicate LeadersStay(calls: seq<Call>, flights: seq<Flight>) {
    forall f :: 0 <= f < |flights| ==> flights[f].leader < |calls| && LeadsFlight(calls[flights[f].leader], f)
  }

  lemma GetKeepsLeaders(s: State, cfg: Config, step: Step)
    requires LeadersStay(s.calls, s.flights) && Enabled(s, step) && (OnL1(step) || OnL2(step))
    ensures LeadersStay(Next(s, cfg, step).calls, Next(s, cfg, step).flights)
  {
    var t := Next(s, cfg, step);
    assert forall f :: LeadsFlight(s.calls[step.i], f) ==> LeadsFlight(t.calls[step.i], f);
    assert t.calls == s.calls[step.i := t.calls[step.i]] && t.flights == s.flights;
  }

  lemma GroupKeepsLeaders(s: State, cfg: Config, step: Step)
    requires LeadersStay(s.calls, s.flights) && Enabled(s, step) && (step.EnterGroup? || step.LeaveGroup?)
    ensures LeadersStay(Next(s, cfg, step).calls, Next(s, cfg, step).flights)
  {}

  lemma FlightKeepsLeaders(s: State, cfg: Config, step: Step)
    requires LeadersStay(s.calls, s.flights) && Enabled(s, step) && OnFlight(step)
    ensures LeadersStay(Next(s, cfg, step).calls, Next(s, cfg, step).flights)
  {
    assert Next(s, cfg, step).flights[step.f].leader == s.flights[step.f].leader;
  }

  /** No call stops leading its flight, and no flight changes its leader. */
  lemma StepKeepsLeaders(s: State, cfg: Config, step: Step)
    requires LeadersStay(s.calls, s.flights) && Enabled(s, step)
    ensures LeadersStay(Next(s, cfg, step).calls, Next(s, cfg, step).flights)
  {
    if OnL1(step) || OnL2(step) {
      GetKeepsLeaders(s, cfg, step);
    } else if step.EnterGroup? || step.LeaveGroup? {
      GroupKeepsLeaders(s, cfg, step);
    } else if OnFlight(step) {
      FlightKeepsLeaders(s, cfg, step);
    } else if !step.StartGet? {
      assert Next(s, cfg, step).calls == s.calls && Next(s, cfg, step).flights == s.flights;
    }
  }

  lemma {:induction false} RunKeepsLeaders(states: seq<State>, cfg: Config, steps: seq<Step>, n: nat)
    requires IsRun(states, cfg, steps) && n < |states|
    ensures LeadersStay(states[n].calls, states[n].flights)
  {
    if n > 0 {
      RunKeepsLeaders(states, cfg, steps, n - 1);
      assert Moves(states[n - 1], cfg, steps[n - 1], states[n]);
      StepKeepsLeaders(states[n - 1], cfg, steps[n - 1]);
    }
  }

  /** Everyone who took part in a flight returns the same value or the same failure, and exactly one call leads it. */
  lemma OneResultPerFlight(states: seq<State>, cfg: Config, steps: seq<Step>, n: nat, i: nat, j: nat)
    requires IsRun(states, cfg, steps) && n < |states|
    requires i < |states[n].calls| && j < |states[n].calls|
    requires states[n].calls[i].phase.Returned? && states[n].calls[j].phase.Returned?
    requires states[n].calls[i].phase.via.ViaFlight? && states[n].calls[j].phase.via.ViaFlight?
    requires states[n].calls[i].phase.via.f == states[n].calls[j].phase.via.f
    ensures states[n].calls[i].phase.outcome == states[n].calls[j].phase.outcome
    ensures states[n].calls[i].key == states[n].calls[j].key
    ensures states[n].calls[i].phase.via.leads && states[n].calls[j].phase.via.leads ==> i == j
    ensures exists l :: 0 <= l < |states[n].calls| && LeadsFlight(states[n].calls[l], states[n].calls[i].phase.via.f)
                        && states[n].calls[l].key == states[n].calls[i].key
    ensures var s, f := states[n], states[n].calls[i].phase.via.f;
            forall l: nat, m: nat |
              l < |s.calls| && m < |s.calls| && LeadsFlight(s.calls[l], f) && LeadsFlight(s.calls[m], f)
              :: l == m
  {
    RunKeepsSingleflight(states, cfg, steps, n);
    assert CallJoined(states[n].flights, cfg, i, states[n].calls[i]);
    assert CallJoined(states[n].flights, cfg, j, states[n].calls[j]);
    RunKeepsLeaders(states, cfg, steps, n);
    var f := states[n].calls[i].phase.via.f;
    assert FlightLed(states[n].calls, cfg, f, states[n].flights[f]);
    assert LeadsFlight(states[n].calls[states[n].flights[f].leader], f);
    forall l | 0 <= l < |states[n].calls| && LeadsFlight(states[n].calls[l], f)
      ensures l == states[n].flights[f].leader
    {
      assert CallJoined(states[n].flights, cfg, l, states[n].calls[l]);
    }
  }
}
