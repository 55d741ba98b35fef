/**
 What `OriginErrors` counts. The manager adds failed origin calls to it, and the Redis
 tier failed reads (internal/cache/l2.go), so it does not bound either by itself, and
 may exceed `OriginCalls`.
 */
module ManagerErrors {
  import opened CacheTypes
  import opened Manager
  import opened Sums
  import opened ManagerCounts

  predicate FailsRead(step: Step) { step.ReadL2? && !step.ok }

  function FailedReads(steps: seq<Step>): nat {
    if steps == [] then 0 else FailedReads(steps[..|steps| - 1]) + One(FailsRead(steps[|steps| - 1]))
  }

  function FailedFetch(f: Flight): nat { One(f.phase == Finishing(Failed) || f.phase == Done(Failed)) }

  lemma FlightErrors(s: State, cfg: Config, step: Step)
    requires Enabled(s, step) && OnFlight(step)
    ensures Sum(Next(s, cfg, step).flights, FailedFetch) == Sum(s.flights, FailedFetch) + One(step.OriginFails?)
    ensures Next(s, cfg, step).count.originErrors == s.count.originErrors + One(step.OriginFails?)
  {
    var t := Next(s, cfg, step);
    assert t.flights == s.flights[step.f := t.flights[step.f]];
    SumUpdate(s.flights, step.f, t.flights[step.f], FailedFetch);
  }

  lemma GroupErrors(s: State, cfg: Config, step: Step)
    requires Enabled(s, step) && (step.EnterGroup? || step.LeaveGroup?)
    ensures Sum(Next(s, cfg, step).flights, FailedFetch) == Sum(s.flights, FailedFetch)
    ensures Next(s, cfg, step).count.originErrors == s.count.originErrors
  {
    var t := Next(s, cfg, step);
    if step.LeaveGroup? {
      var f := s.calls[step.i].phase.flight;
      SumUpdate(s.flights, f, s.flights[f].(departed := true), FailedFetch);
    } else if Joins(s, cfg, s.calls[step.i].key) {
      var g := s.group[s.calls[step.i].key];
      SumUpdate(s.flights, g, t.flights[g], FailedFetch);
    } else {
      assert t.flights == s.flights + [t.flights[|s.flights|]];
    }
  }

  lemma GetErrors(s: State, cfg: Config, step: Step)
    requires Enabled(s, step) && (OnL1(step) || OnL2(step))
    ensures Next(s, cfg, step).flights == s.flights
    ensures Next(s, cfg, step).count.originErrors == s.count.originErrors + One(FailsRead(step))
  {}

  lemma StepErrors(s: State, cfg: Config, step: Step)
    requires Enabled(s, step)
    ensures Sum(Next(s, cfg, step).flights, FailedFetch) == Sum(s.flights, FailedFetch) + One(step.OriginFails?)
    ensures Next(s, cfg, step).count.originErrors ==
            s.count.originErrors + One(step.OriginFails?) + One(FailsRead(step))
  {
    if OnL1(step) || OnL2(step) {
      GetErrors(s, cfg, step);
    } else if OnFlight(step) {
      FlightErrors(s, cfg, step);
    } else if step.EnterGroup? || step.LeaveGroup? {
      GroupErrors(s, cfg, step);
    } else {
      assert Next(s, cfg, step).flights == s.flights;
    }
  }

  lemma {:induction false} RunErrors(states: seq<State>, cfg: Config, steps: seq<Step>, n: nat)
    requires IsRun(states, cfg, steps) && n < |states|
    ensures states[n].count.originErrors == FailedReads(steps[..n]) + Sum(states[n].flights, FailedFetch)
  {
    if n > 0 {
      RunErrors(states, cfg, steps, n - 1);
      assert Moves(states[n - 1], cfg, steps[n - 1], states[n]);
      StepErrors(states[n - 1], cfg, steps[n - 1]);
      assert steps[..n][..n - 1] == steps[..n - 1];
    }
  }

  /**
   At every step `OriginErrors` is the failed reads of L2 so far and the failed origin
   calls, of which there are at most `OriginCalls`.
   */
  lemma ErrorsAreCounted(states: seq<State>, cfg: Config, steps: seq<Step>, n: nat)
    requires IsRun(states, cfg, steps) && n < |states|
    ensures states[n].count.originErrors == FailedReads(steps[..n]) + Sum(states[n].flights, FailedFetch)
    ensures Sum(states[n].flights, FailedFetch) <= states[n].count.originCalls
  {
    RunErrors(states, cfg, steps, n);
    RunKeepsCounts(states, cfg, steps, n);
    SumAtMost(states[n].flights, FailedFetch, PastCreated);
  }

  lemma OneMore(states: seq<State>, cfg: Config, steps: seq<Step>, step: Step)
    returns (states': seq<State>, steps': seq<Step>)
    requires IsRun(states, cfg, steps) && Enabled(states[|steps|], step)
    ensures IsRun(states', cfg, steps') && |steps'| == |steps| + 1
    ensures states'[|steps'|] == Next(states[|steps|], cfg, step)
  {
    states', steps' := states + [Next(states[|steps|], cfg, step)], steps + [step];
    assert Moves(states[|steps|], cfg, step, states'[|steps'|]);
  }

  /** A cache in which `n` calls have failed to read L2, and nothing else has happened. */
  ghost predicate OnlyFailedReads(s: State, n: nat) {
    s.l1 == map[] && |s.calls| == n && s.count.originErrors == n && s.count.originCalls == 0
  }

  lemma {:induction false} ReadsFail(cfg: Config, n: nat) returns (states: seq<State>, steps: seq<Step>)
    ensures IsRun(states, cfg, steps) && OnlyFailedReads(states[|steps|], n)
  {
    if n == 0 {
      states, steps := [Initial(0)], [];
    } else {
      states, steps := ReadsFail(cfg, n - 1);
      states, steps := OneMore(states, cfg, steps, StartGet([]));
      states, steps := OneMore(states, cfg, steps, ReadL1(n - 1));
      states, steps := OneMore(states, cfg, steps, CountMiss1(n - 1));
      states, steps := OneMore(states, cfg, steps, ReadL2(n - 1, false));
    }
  }

  /** So the errors may exceed the origin calls by any number. */
  lemma ErrorsMayExceedCalls(cfg: Config, n: nat)
    ensures exists states: seq<State>, steps :: IsRun(states, cfg, steps)
              && states[|steps|].count.originErrors == states[|steps|].count.originCalls + n
  {
    var states, steps := ReadsFail(cfg, n);
  }
}
