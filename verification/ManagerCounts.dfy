/**
 The counters of internal/metrics/metrics.go as the cache manager drives them:
 each counter equals the number of calls (or flights) that are past the point
 where it is incremented, at every step of every run.
 */
module ManagerCounts {
  import opened CacheTypes
  import opened Manager
  import opened Sums
  import F = ManagerFlights

  function One(b: bool): nat { if b then 1 else 0 }

  predicate Left(c: Call) { c.phase.Returning? || c.phase.Returned? }

  function PastHit1(c: Call): nat { One(Left(c) && c.phase.via.ViaL1?) }

  function PastMiss1(c: Call): nat {
    One(c.phase.AtL2? || c.phase.MissedL2? || c.phase.HitL2? || c.phase.FillingL1? || c.phase.AtOrigin?
        || c.phase.InFlight? || (Left(c) && !c.phase.via.ViaL1?))
  }

  function PastHit2(c: Call): nat { One(c.phase.FillingL1? || (Left(c) && c.phase.via.ViaL2?)) }

  function PastMiss2(c: Call): nat {
    One(c.phase.AtOrigin? || c.phase.InFlight? || (Left(c) && c.phase.via.ViaFlight?))
  }

  /** Between the two counts: counted as an L1 miss, not yet as an L2 hit or miss. */
  function Between(c: Call): nat { One(c.phase.AtL2? || c.phase.MissedL2? || c.phase.HitL2?) }

  function Finished(c: Call): nat { One(c.phase.Returned?) }

  function Unfinished(c: Call): nat { One(!c.phase.Returned?) }

  function Waits(c: Call): nat { One(c.phase.AtOrigin?) }

  function Leads(c: Call): nat {
    One((c.phase.InFlight? && c.phase.leader) || (Left(c) && c.phase.via.ViaFlight? && c.phase.via.leads))
  }

  function Joined(c: Call): nat {
    One((c.phase.InFlight? && !c.phase.leader) || (Left(c) && c.phase.via.ViaFlight? && !c.phase.via.leads))
  }

  function SharedOut(c: Call): nat { One(Left(c) && c.phase.via.ViaFlight? && c.phase.via.shared) }

  function SharedLeader(c: Call): nat {
    One(Left(c) && c.phase.via.ViaFlight? && c.phase.via.shared && c.phase.via.leads)
  }

  function PastCreated(f: Flight): nat { One(!f.phase.Created?) }

  function Joiners(f: Flight): nat { f.joiners }

  function SharedDeparted(f: Flight): nat { One(f.departed && f.joiners > 0) }

  /** The callers a flight reports as coalesced: everybody, if there was a joiner at all. */
  function Owed(f: Flight): nat { if f.joiners > 0 then f.joiners + 1 else 0 }

  ghost predicate CallsCounted(s: State) {
    && s.count.l1Hits == Sum(s.calls, PastHit1)
    && s.count.l1Misses == Sum(s.calls, PastMiss1)
    && s.count.l2Hits == Sum(s.calls, PastHit2)
    && s.count.l2Misses == Sum(s.calls, PastMiss2)
    && s.count.total == Sum(s.calls, Finished) + s.intercepted
    && s.count.coalesced == Sum(s.calls, SharedOut)
  }

  ghost predicate FlightsCounted(s: State) {
    && s.count.originCalls == Sum(s.flights, PastCreated)
    && Sum(s.calls, Leads) == |s.flights|
    && Sum(s.calls, Joined) == Sum(s.flights, Joiners)
    && Sum(s.calls, SharedLeader) == Sum(s.flights, SharedDeparted)
  }

  // ------------------------------------------------------------------- the steps

  lemma MoveSums(cs: seq<Call>, i: nat, c: Call)
    requires i < |cs|
    ensures Sum(cs[i := c], PastHit1) + PastHit1(cs[i]) == Sum(cs, PastHit1) + PastHit1(c)
    ensures Sum(cs[i := c], PastMiss1) + PastMiss1(cs[i]) == Sum(cs, PastMiss1) + PastMiss1(c)
    ensures Sum(cs[i := c], PastHit2) + PastHit2(cs[i]) == Sum(cs, PastHit2) + PastHit2(c)
    ensures Sum(cs[i := c], PastMiss2) + PastMiss2(cs[i]) == Sum(cs, PastMiss2) + PastMiss2(c)
    ensures Sum(cs[i := c], Finished) + Finished(cs[i]) == Sum(cs, Finished) + Finished(c)
    ensures Sum(cs[i := c], SharedOut) + SharedOut(cs[i]) == Sum(cs, SharedOut) + SharedOut(c)
  {
    SumUpdate(cs, i, c, PastHit1);
    SumUpdate(cs, i, c, PastMiss1);
    SumUpdate(cs, i, c, PastHit2);
    SumUpdate(cs, i, c, PastMiss2);
    SumUpdate(cs, i, c, Finished);
    SumUpdate(cs, i, c, SharedOut);
  }

  lemma MoveRoles(cs: seq<Call>, i: nat, c: Call)
    requires i < |cs|
    ensures Sum(cs[i := c], Leads) + Leads(cs[i]) == Sum(cs, Leads) + Leads(c)
    ensures Sum(cs[i := c], Joined) + Joined(cs[i]) == Sum(cs, Joined) + Joined(c)
    ensures Sum(cs[i := c], SharedLeader) + SharedLeader(cs[i]) == Sum(cs, SharedLeader) + SharedLeader(c)
  {
    SumUpdate(cs, i, c, Leads);
    SumUpdate(cs, i, c, Joined);
    SumUpdate(cs, i, c, SharedLeader);
  }

  lemma FlightSums(fs: seq<Flight>, f: nat, x: Flight)
    requires f < |fs|
    ensures Sum(fs[f := x], PastCreated) + PastCreated(fs[f]) == Sum(fs, PastCreated) + PastCreated(x)
    ensures Sum(fs[f := x], Joiners) + fs[f].joiners == Sum(fs, Joiners) + x.joiners
    ensures Sum(fs[f := x], SharedDeparted) + SharedDeparted(fs[f]) == Sum(fs, SharedDeparted) + SharedDeparted(x)
  {
    SumUpdate(fs, f, x, PastCreated);
    SumUpdate(fs, f, x, Joiners);
    SumUpdate(fs, f, x, SharedDeparted);
  }

  lemma StartSums(cs: seq<Call>, k: Key)
    ensures var c := Call(k, AtL1);
            && Sum(cs + [c], PastHit1) == Sum(cs, PastHit1) && Sum(cs + [c], PastMiss1) == Sum(cs, PastMiss1)
            && Sum(cs + [c], PastHit2) == Sum(cs, PastHit2) && Sum(cs + [c], PastMiss2) == Sum(cs, PastMiss2)
            && Sum(cs + [c], Finished) == Sum(cs, Finished) && Sum(cs + [c], SharedOut) == Sum(cs, SharedOut)
            && Sum(cs + [c], Leads) == Sum(cs, Leads) && Sum(cs + [c], Joined) == Sum(cs, Joined)
            && Sum(cs + [c], SharedLeader) == Sum(cs, SharedLeader)
  {}

  /** One call moves, and the counters move with its weights. */
  lemma CallDelta(s: State, t: State, i: nat)
    requires CallsCounted(s) && i < |s.calls| == |t.calls| && t.calls == s.calls[i := t.calls[i]]
    requires t.count.l1Hits + PastHit1(s.calls[i]) == s.count.l1Hits + PastHit1(t.calls[i])
    requires t.count.l1Misses + PastMiss1(s.calls[i]) == s.count.l1Misses + PastMiss1(t.calls[i])
    requires t.count.l2Hits + PastHit2(s.calls[i]) == s.count.l2Hits + PastHit2(t.calls[i])
    requires t.count.l2Misses + PastMiss2(s.calls[i]) == s.count.l2Misses + PastMiss2(t.calls[i])
    requires t.count.total + Finished(s.calls[i]) == s.count.total + Finished(t.calls[i])
    requires t.count.coalesced + SharedOut(s.calls[i]) == s.count.coalesced + SharedOut(t.calls[i])
    requires t.intercepted == s.intercepted
    ensures CallsCounted(t)
  {
    MoveSums(s.calls, i, t.calls[i]);
  }

  lemma L1CallStep(s: State, cfg: Config, step: Step)
    requires CallsCounted(s) && Enabled(s, step)
    requires OnL1(step)
    ensures CallsCounted(Next(s, cfg, step))
  {
    CallDelta(s, Next(s, cfg, step), step.i);
  }

  lemma ReturnCallStep(s: State, cfg: Config, i: nat)
    requires CallsCounted(s) && Enabled(s, Return(i))
    ensures CallsCounted(Next(s, cfg, Return(i)))
  {
    CallDelta(s, Next(s, cfg, Return(i)), i);
  }

  lemma L2CallStep(s: State, cfg: Config, step: Step)
    requires CallsCounted(s) && Enabled(s, step)
    requires OnL2(step)
    ensures CallsCounted(Next(s, cfg, step))
  {
    if step.Return? {
      ReturnCallStep(s, cfg, step.i);
    } else {
      CallDelta(s, Next(s, cfg, step), step.i);
    }
  }

  lemma GroupCallStep(s: State, cfg: Config, step: Step)
    requires CallsCounted(s) && Enabled(s, step)
    requires step.EnterGroup? || step.LeaveGroup?
    ensures CallsCounted(Next(s, cfg, step))
  {
    CallDelta(s, Next(s, cfg, step), step.i);
  }

  /** One call moves without changing its role in any flight. */
  lemma RoleDelta(s: State, t: State, i: nat)
    requires FlightsCounted(s) && i < |s.calls| == |t.calls| && t.calls == s.calls[i := t.calls[i]]
    requires t.flights == s.flights && t.count.originCalls == s.count.originCalls
    requires Leads(t.calls[i]) == Leads(s.calls[i]) && Joined(t.calls[i]) == Joined(s.calls[i])
    requires SharedLeader(t.calls[i]) == SharedLeader(s.calls[i])
    ensures FlightsCounted(t)
  {
    MoveRoles(s.calls, i, t.calls[i]);
  }

  lemma L1RoleStep(s: State, cfg: Config, step: Step)
    requires FlightsCounted(s) && Enabled(s, step)
    requires OnL1(step)
    ensures FlightsCounted(Next(s, cfg, step))
  {
    RoleDelta(s, Next(s, cfg, step), step.i);
  }

  lemma ReturnRoleStep(s: State, cfg: Config, i: nat)
    requires FlightsCounted(s) && Enabled(s, Return(i))
    ensures FlightsCounted(Next(s, cfg, Return(i)))
  {
    RoleDelta(s, Next(s, cfg, Return(i)), i);
  }

  lemma L2RoleStep(s: State, cfg: Config, step: Step)
    requires FlightsCounted(s) && Enabled(s, step)
    requires OnL2(step)
    ensures FlightsCounted(Next(s, cfg, step))
  {
    if step.Return? {
      ReturnRoleStep(s, cfg, step.i);
    } else {
      RoleDelta(s, Next(s, cfg, step), step.i);
    }
  }

  lemma JoinedFlightNotDeparted(s: State, cfg: Config, k: Key)
    requires F.Singleflight(s, cfg) && Joins(s, cfg, k)
    ensures !s.flights[s.group[k]].departed
  {}

  /** A call joins a flight that nobody has left. */
  lemma JoinRoles(s: State, cfg: Config, i: nat)
    requires FlightsCounted(s) && Enabled(s, EnterGroup(i))
    requires Joins(s, cfg, s.calls[i].key) && !s.flights[s.group[s.calls[i].key]].departed
    ensures FlightsCounted(AfterEnter(s, cfg, i))
  {
    hide Sum;
    var g := s.group[s.calls[i].key];
    MoveRoles(s.calls, i, s.calls[i].(phase := InFlight(g, false)));
    FlightSums(s.flights, g, s.flights[g].(joiners := s.flights[g].joiners + 1));
  }

  /** A call leads a new flight. */
  lemma LeadRoles(s: State, cfg: Config, i: nat)
    requires FlightsCounted(s) && Enabled(s, EnterGroup(i)) && !Joins(s, cfg, s.calls[i].key)
    ensures FlightsCounted(AfterEnter(s, cfg, i))
  {
    MoveRoles(s.calls, i, s.calls[i].(phase := InFlight(|s.flights|, true)));
    NewFlightSums(s.flights, Flight(s.calls[i].key, i, 0, Created, NotSpawned, false));
  }

  lemma NewFlightSums(fs: seq<Flight>, x: Flight)
    requires x.phase.Created? && x.joiners == 0
    ensures Sum(fs + [x], PastCreated) == Sum(fs, PastCreated)
    ensures Sum(fs + [x], Joiners) == Sum(fs, Joiners)
    ensures Sum(fs + [x], SharedDeparted) == Sum(fs, SharedDeparted)
  {}

  lemma LeaveRoles(s: State, cfg: Config, i: nat)
    requires FlightsCounted(s) && F.Singleflight(s, cfg) && Enabled(s, LeaveGroup(i))
    ensures FlightsCounted(AfterLeave(s, cfg, i))
  {
    hide Sum;
    var g := s.calls[i].phase.flight;
    assert F.CallJoined(s.flights, cfg, i, s.calls[i]) && F.FlightLed(s.calls, cfg, g, s.flights[g]);
    MoveRoles(s.calls, i, AfterLeave(s, cfg, i).calls[i]);
    FlightSums(s.flights, g, s.flights[g].(departed := true));
  }

  /** A flight moves on, and the origin counter with it. */
  lemma FlightDelta(s: State, t: State, f: nat)
    requires FlightsCounted(s) && f < |s.flights| == |t.flights| && t.flights == s.flights[f := t.flights[f]]
    requires t.calls == s.calls
    requires t.count.originCalls + PastCreated(s.flights[f]) == s.count.originCalls + PastCreated(t.flights[f])
    requires t.flights[f].joiners == s.flights[f].joiners && t.flights[f].departed == s.flights[f].departed
    ensures FlightsCounted(t)
  {
    FlightSums(s.flights, f, t.flights[f]);
  }

  lemma FlightStep(s: State, cfg: Config, step: Step)
    requires FlightsCounted(s) && Enabled(s, step) && OnFlight(step)
    ensures FlightsCounted(Next(s, cfg, step))
  {
    FlightDelta(s, Next(s, cfg, step), step.f);
  }

  lemma StepKeepsCallCounts(s: State, cfg: Config, step: Step)
    requires CallsCounted(s) && Enabled(s, step)
    ensures CallsCounted(Next(s, cfg, step))
  {
    if OnL1(step) {
      L1CallStep(s, cfg, step);
    } else if OnL2(step) {
      L2CallStep(s, cfg, step);
    } else if step.EnterGroup? || step.LeaveGroup? {
      GroupCallStep(s, cfg, step);
    } else if step.StartGet? {
      StartSums(s.calls, step.key);
    }
  }

  lemma StepKeepsFlightCounts(s: State, cfg: Config, step: Step)
    requires FlightsCounted(s) && F.Singleflight(s, cfg) && Enabled(s, step)
    ensures FlightsCounted(Next(s, cfg, step))
  {
    if OnL1(step) {
      L1RoleStep(s, cfg, step);
    } else if OnL2(step) {
      L2RoleStep(s, cfg, step);
    } else if OnFlight(step) {
      FlightStep(s, cfg, step);
    } else if step.EnterGroup? {
      if Joins(s, cfg, s.calls[step.i].key) {
        JoinedFlightNotDeparted(s, cfg, s.calls[step.i].key);
        JoinRoles(s, cfg, step.i);
      } else {
        LeadRoles(s, cfg, step.i);
      }
    } else if step.LeaveGroup? {
      LeaveRoles(s, cfg, step.i);
    } else if step.StartGet? {
      StartSums(s.calls, step.key);
    }
  }

  ghost predicate Counted(s: State) {
    CallsCounted(s) && FlightsCounted(s)
  }

  // ------------------------------------------------------------------ whole runs

  lemma {:induction false} RunKeepsCounts(states: seq<State>, cfg: Config, steps: seq<Step>, n: nat)
    requires IsRun(states, cfg, steps) && n < |states|
    ensures Counted(states[n])
  {
    if n > 0 {
      RunKeepsCounts(states, cfg, steps, n - 1);
      F.RunKeepsSingleflight(states, cfg, steps, n - 1);
      assert Moves(states[n - 1], cfg, steps[n - 1], states[n]);
      StepKeepsCallCounts(states[n - 1], cfg, steps[n - 1]);
      StepKeepsFlightCounts(states[n - 1], cfg, steps[n - 1]);
    }
  }

  /** At every step: every L1 miss is an L2 hit, an L2 miss, or between the two counts. */
  lemma MissesAreConserved(states: seq<State>, cfg: Config, steps: seq<Step>, n: nat)
    requires IsRun(states, cfg, steps) && n < |states|
    ensures var s := states[n];
            s.count.l1Misses == s.count.l2Hits + s.count.l2Misses + Sum(s.calls, Between)
  {
    RunKeepsCounts(states, cfg, steps, n);
    var both := (c: Call) => PastHit2(c) + PastMiss2(c);
    SumPlus(states[n].calls, both, PastHit2, PastMiss2);
    SumPlus(states[n].calls, PastMiss1, both, Between);
  }

  /**
   Coalescing saves exactly one origin call per joiner: the L2 misses are the origin
   calls made, the flights about to make theirs, the joiners, and the calls that
   have yet to enter the group.
   */
  lemma OriginCallsSaved(states: seq<State>, cfg: Config, steps: seq<Step>, n: nat)
    requires IsRun(states, cfg, steps) && n < |states|
    ensures var s := states[n];
            && s.count.originCalls <= |s.flights|
            && s.count.l2Misses == |s.flights| + Sum(s.flights, Joiners) + Sum(s.calls, Waits)
            && ((forall f :: 0 <= f < |s.flights| ==> !s.flights[f].phase.Created?) ==>
                  s.count.originCalls == |s.flights|)
  {
    RunKeepsCounts(states, cfg, steps, n);
    var s := states[n];
    var inside := (c: Call) => Leads(c) + Joined(c);
    SumPlus(s.calls, inside, Leads, Joined);
    SumPlus(s.calls, PastMiss2, inside, Waits);
    var one := (f: Flight) => 1;
    SumOnes(s.flights, one);
    SumAtMost(s.flights, PastCreated, one);
    if forall f :: 0 <= f < |s.flights| ==> !s.flights[f].phase.Created? {
      SumOnes(s.flights, PastCreated);
    }
  }

  ghost predicate Quiescent(s: State) {
    forall i :: 0 <= i < |s.calls| ==> s.calls[i].phase.Returned?
  }

  lemma AllDeparted(s: State, cfg: Config)
    requires Quiescent(s) && F.Singleflight(s, cfg)
    ensures forall f :: 0 <= f < |s.flights| ==> s.flights[f].departed && s.flights[f].phase.Done?
  {}

  /**
   When no `Get` is running: every request was an L1 hit, an L2 hit or an L2 miss;
   the origin was called once per flight; and the coalesced count is, over the
   flights somebody joined, the joiners and the leader.
   */
  lemma QuiescentCounts(states: seq<State>, cfg: Config, steps: seq<Step>, n: nat)
    requires IsRun(states, cfg, steps) && n < |states| && Quiescent(states[n])
    ensures var s := states[n];
            && s.count.coalesced == Sum(s.flights, Owed)
            && s.count.originCalls == |s.flights|
            && s.count.l2Misses == s.count.originCalls + Sum(s.flights, Joiners)
            && s.count.total == |s.calls| + s.intercepted
            && |s.calls| == s.count.l1Hits + s.count.l2Hits + s.count.l2Misses
  {
    var s := states[n];
    RunKeepsCounts(states, cfg, steps, n);
    F.RunKeepsSingleflight(states, cfg, steps, n);
    AllDeparted(s, cfg);
    OriginCallsSaved(states, cfg, steps, n);
    MissesAreConserved(states, cfg, steps, n);
    SumZeros(s.calls, Waits);
    SumZeros(s.calls, Between);
    SumOnes(s.calls, Finished);
    SumPlus(s.calls, Finished, PastHit1, PastMiss1);
    forall i | 0 <= i < |s.calls| ensures SharedOut(s.calls[i]) == SharedLeader(s.calls[i]) + Joined(s.calls[i]) {
      assert F.CallJoined(s.flights, cfg, i, s.calls[i]);
      if Joined(s.calls[i]) == 1 { NoJoinersWithout(s, cfg, i); }
    }
    SumPlus(s.calls, SharedOut, SharedLeader, Joined);
    SumPlus(s.flights, Owed, SharedDeparted, Joiners);
  }

  lemma NoJoinersWithout(s: State, cfg: Config, i: nat)
    requires F.Singleflight(s, cfg) && i < |s.calls| && Joined(s.calls[i]) == 1
    ensures cfg.useSF
  {}
}
