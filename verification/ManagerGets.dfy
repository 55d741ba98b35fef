/**
 What every `Get` returns, over all runs and with anything interleaved: it follows from
 what the tiers held at the moments at which the call read them.
 */
module ManagerGets {
  import opened CacheTypes
  import opened Manager

  /** Before state `n`, call `i` read `e` from L1. */
  ghost predicate ReadFromL1(states: seq<State>, steps: seq<Step>, m: int, i: nat, k: Key, e: Stored)
    requires |states| == |steps| + 1
  {
    0 <= m < |steps| && steps[m] == ReadL1(i) && k in states[m].l1 && states[m].l1[k] == e
  }

  ghost predicate Found(states: seq<State>, steps: seq<Step>, n: nat, i: nat, k: Key, e: Stored)
    requires |states| == |steps| + 1
  {
    exists m :: 0 <= m < n && ReadFromL1(states, steps, m, i, k, e)
  }

  /** Then the entry was checked, at `c`. */
  ghost predicate CheckedAt(states: seq<State>, steps: seq<Step>, c: int, i: nat, k: Key, e: Stored)
    requires |states| == |steps| + 1
  {
    0 <= c < |steps| && steps[c] == CheckL1(i) && Found(states, steps, c, i, k, e)
  }

  ghost predicate Hit1(states: seq<State>, steps: seq<Step>, n: nat, i: nat, k: Key, item: Item, at: int)
    requires |states| == |steps| + 1
  {
    exists c, e :: 0 <= c < n && CheckedAt(states, steps, c, i, k, e)
                   && item == e.item && at == states[c].now <= e.expires
  }

  ghost predicate TooOld(states: seq<State>, steps: seq<Step>, n: nat, i: nat, k: Key)
    requires |states| == |steps| + 1
  {
    exists c, e :: 0 <= c < n && CheckedAt(states, steps, c, i, k, e) && e.expires < states[c].now
  }

  ghost predicate Absent(states: seq<State>, steps: seq<Step>, n: nat, i: nat, k: Key)
    requires |states| == |steps| + 1
  {
    exists m :: 0 <= m < n && m < |steps| && steps[m] == ReadL1(i) && k !in states[m].l1
  }

  ghost predicate Miss1(states: seq<State>, steps: seq<Step>, n: nat, i: nat, k: Key)
    requires |states| == |steps| + 1
  {
    Absent(states, steps, n, i, k) || TooOld(states, steps, n, i, k)
  }

  ghost predicate Hit2(states: seq<State>, cfg: Config, steps: seq<Step>, n: nat, i: nat, k: Key, item: Item, at: int)
    requires |states| == |steps| + 1
  {
    exists m :: 0 <= m < n && m < |steps| && steps[m] == ReadL2(i, true) && LiveL2(states[m], cfg, k)
                && item == states[m].l2[k].item && at == states[m].now
  }

  ghost predicate Miss2(states: seq<State>, cfg: Config, steps: seq<Step>, n: nat, i: nat, k: Key)
    requires |states| == |steps| + 1
  {
    exists m :: 0 <= m < n && m < |steps| && steps[m].ReadL2? && steps[m].i == i
                && (steps[m].ok ==> !LiveL2(states[m], cfg, k))
  }

  /** Where call `i` is, in terms of what it read. */
  ghost predicate CallTrace(c: Call, states: seq<State>, cfg: Config, steps: seq<Step>, n: nat, i: nat)
    requires |states| == |steps| + 1
  {
    match c.phase
    case AtL1 => true
    case FoundL1(e) => Found(states, steps, n, i, c.key, e)
    case ExpiredL1 => TooOld(states, steps, n, i, c.key)
    case HitL1(item, at) => Hit1(states, steps, n, i, c.key, item, at)
    case MissedL1 => Miss1(states, steps, n, i, c.key)
    case AtL2 => Miss1(states, steps, n, i, c.key)
    case HitL2(item, at) => Miss1(states, steps, n, i, c.key) && Hit2(states, cfg, steps, n, i, c.key, item, at)
    case FillingL1(item, at) => Miss1(states, steps, n, i, c.key) && Hit2(states, cfg, steps, n, i, c.key, item, at)
    case Returning(via, o) => ServedTrace(via, o, states, cfg, steps, n, i, c.key)
    case Returned(via, o) => ServedTrace(via, o, states, cfg, steps, n, i, c.key)
    case _ => Miss1(states, steps, n, i, c.key) && Miss2(states, cfg, steps, n, i, c.key)
  }

  ghost predicate ServedTrace(via: Via, o: Outcome, states: seq<State>, cfg: Config, steps: seq<Step>, n: nat,
                              i: nat, k: Key)
    requires |states| == |steps| + 1
  {
    match via
    case ViaL1(at) => o.Got? && Hit1(states, steps, n, i, k, o.item, at)
    case ViaL2(at) => o.Got? && Miss1(states, steps, n, i, k) && Hit2(states, cfg, steps, n, i, k, o.item, at)
    case ViaFlight(_, _, _) => Miss1(states, steps, n, i, k) && Miss2(states, cfg, steps, n, i, k)
  }

  lemma TraceGrows(c: Call, states: seq<State>, cfg: Config, steps: seq<Step>, n: nat, i: nat)
    requires |states| == |steps| + 1 && CallTrace(c, states, cfg, steps, n, i)
    ensures CallTrace(c, states, cfg, steps, n + 1, i)
  {}

  lemma L1CallStep(states: seq<State>, cfg: Config, steps: seq<Step>, n: nat)
    requires IsRun(states, cfg, steps) && n < |steps| && Moves(states[n], cfg, steps[n], states[n + 1])
    requires OnL1(steps[n]) && CallTrace(states[n].calls[steps[n].i], states, cfg, steps, n, steps[n].i)
    ensures CallTrace(states[n + 1].calls[steps[n].i], states, cfg, steps, n + 1, steps[n].i)
  {
    var i := steps[n].i;
    TraceGrows(states[n].calls[i], states, cfg, steps, n, i);
    var c := states[n].calls[i];
    if steps[n].ReadL1? && c.key in states[n].l1 {
      assert ReadFromL1(states, steps, n, i, c.key, states[n].l1[c.key]);
    }
    if steps[n].CheckL1? {
      assert CheckedAt(states, steps, n, i, c.key, c.phase.found);
    }
  }

  /** From L2 on, a call goes straight ahead with what it read. */
  ghost predicate Onward(step: Step, c: Call, d: Call) {
    && d.key == c.key
    && (step.CountMiss2? ==> c.phase.MissedL2? && d.phase.AtOrigin?)
    && (step.CountHit2? ==> c.phase.HitL2? && d.phase == FillingL1(c.phase.item, c.phase.at))
    && (step.FillL1? ==> c.phase.FillingL1? && d.phase == Returning(ViaL2(c.phase.at), Got(c.phase.item)))
    && (step.Return? ==> c.phase.Returning? && d.phase == Returned(c.phase.via, c.phase.outcome))
    && (step.EnterGroup? ==> c.phase.AtOrigin? && d.phase.InFlight?)
    && (step.LeaveGroup? ==> c.phase.InFlight? && d.phase.Returning? && d.phase.via.ViaFlight?)
  }

  predicate GoesOn(step: Step) {
    step.CountMiss2? || step.CountHit2? || step.FillL1? || step.Return? || step.EnterGroup? || step.LeaveGroup?
  }

  lemma GoesOnward(s: State, cfg: Config, step: Step)
    requires Enabled(s, step) && GoesOn(step)
    ensures |Next(s, cfg, step).calls| == |s.calls|
    ensures Onward(step, s.calls[step.i], Next(s, cfg, step).calls[step.i])
  {}

  lemma OnwardTrace(step: Step, c: Call, d: Call, states: seq<State>, cfg: Config, steps: seq<Step>, n: nat, i: nat)
    requires |states| == |steps| + 1 && CallTrace(c, states, cfg, steps, n, i)
    requires GoesOn(step) && Onward(step, c, d)
    ensures CallTrace(d, states, cfg, steps, n, i)
  {}

  lemma ReadL2Step(states: seq<State>, cfg: Config, steps: seq<Step>, n: nat)
    requires IsRun(states, cfg, steps) && n < |steps| && Moves(states[n], cfg, steps[n], states[n + 1])
    requires steps[n].ReadL2? && CallTrace(states[n].calls[steps[n].i], states, cfg, steps, n, steps[n].i)
    ensures CallTrace(states[n + 1].calls[steps[n].i], states, cfg, steps, n + 1, steps[n].i)
  {
    TraceGrows(states[n].calls[steps[n].i], states, cfg, steps, n, steps[n].i);
    hide Miss1, Hit1;
  }

  lemma OnwardStep(states: seq<State>, cfg: Config, steps: seq<Step>, n: nat)
    requires IsRun(states, cfg, steps) && n < |steps| && Moves(states[n], cfg, steps[n], states[n + 1])
    requires GoesOn(steps[n]) && CallTrace(states[n].calls[steps[n].i], states, cfg, steps, n, steps[n].i)
    ensures CallTrace(states[n + 1].calls[steps[n].i], states, cfg, steps, n + 1, steps[n].i)
  {
    var i := steps[n].i;
    GoesOnward(states[n], cfg, steps[n]);
    hide CallTrace, Next, Enabled, Onward;
    TraceGrows(states[n].calls[i], states, cfg, steps, n, i);
    OnwardTrace(steps[n], states[n].calls[i], states[n + 1].calls[i], states, cfg, steps, n + 1, i);
  }

  lemma CallStep(states: seq<State>, cfg: Config, steps: seq<Step>, n: nat, i: nat)
    requires IsRun(states, cfg, steps) && n < |steps| && i < |states[n + 1].calls|
    requires i < |states[n].calls| ==> CallTrace(states[n].calls[i], states, cfg, steps, n, i)
    ensures CallTrace(states[n + 1].calls[i], states, cfg, steps, n + 1, i)
  {
    assert Moves(states[n], cfg, steps[n], states[n + 1]);
    var step := steps[n];
    CallsStay(states[n], cfg, step, i);
    hide CallTrace, Next;
    if i < |states[n].calls| && Of(step, i) {
      if OnL1(step) {
        L1CallStep(states, cfg, steps, n);
      } else if step.ReadL2? {
        ReadL2Step(states, cfg, steps, n);
      } else {
        OnwardStep(states, cfg, steps, n);
      }
    } else if i < |states[n].calls| {
      TraceGrows(states[n].calls[i], states, cfg, steps, n, i);
    } else {
      NewCallTrace(states[n + 1].calls[i], states, cfg, steps, n + 1, i);
    }
  }

  lemma NewCallTrace(c: Call, states: seq<State>, cfg: Config, steps: seq<Step>, n: nat, i: nat)
    requires |states| == |steps| + 1 && c.phase.AtL1?
    ensures CallTrace(c, states, cfg, steps, n, i)
  {}

  /** The step is one of call `i`. */
  predicate Of(step: Step, i: nat) {
    (OnL1(step) || OnL2(step) || step.EnterGroup? || step.LeaveGroup?) && step.i == i
  }

  lemma GetCallsStay(s: State, cfg: Config, step: Step)
    requires Enabled(s, step) && (OnL1(step) || OnL2(step))
    ensures |Next(s, cfg, step).calls| == |s.calls| && Next(s, cfg, step).calls[step.i].key == s.calls[step.i].key
    ensures forall i :: 0 <= i < |s.calls| && i != step.i ==> Next(s, cfg, step).calls[i] == s.calls[i]
  {
    var t := Next(s, cfg, step);
    assert t.calls == s.calls[step.i := s.calls[step.i].(phase := t.calls[step.i].phase)];
  }

  /** No step moves a call but its own; calls keep their keys, and start before the read of L1. */
  lemma CallsStay(s: State, cfg: Config, step: Step, i: nat)
    requires Enabled(s, step) && i < |Next(s, cfg, step).calls|
    ensures i < |s.calls| ==> Next(s, cfg, step).calls[i].key == s.calls[i].key
    ensures i < |s.calls| && !Of(step, i) ==> Next(s, cfg, step).calls[i] == s.calls[i]
    ensures |s.calls| <= i ==> i == |s.calls| && step == StartGet(Next(s, cfg, step).calls[i].key)
    ensures |s.calls| <= i ==> Next(s, cfg, step).calls[i].phase.AtL1?
    ensures |s.calls| <= |Next(s, cfg, step).calls|
  {
    if OnL1(step) || OnL2(step) {
      GetCallsStay(s, cfg, step);
    } else if !step.StartGet? && !step.EnterGroup? && !step.LeaveGroup? {
      assert Next(s, cfg, step).calls == s.calls;
    }
  }

  lemma {:induction false} RunTracesCalls(states: seq<State>, cfg: Config, steps: seq<Step>, n: nat, i: nat)
    requires IsRun(states, cfg, steps) && n < |states| && i < |states[n].calls|
    ensures CallTrace(states[n].calls[i], states, cfg, steps, n, i)
    decreases n
  {
    if n > 0 {
      assert Moves(states[n - 1], cfg, steps[n - 1], states[n]);
      hide CallTrace, Next, Enabled;
      if i < |states[n - 1].calls| { RunTracesCalls(states, cfg, steps, n - 1, i); }
      CallStep(states, cfg, steps, n - 1, i);
    }
  }

  /**
   A `Get` returns from L1 only what L1 held when the call read it, unexpired when it
   checked; from L2 only after a miss in L1, and only what L2 held live when it was read;
   and goes on to the origin only after a miss in both, a failed read of L2 being a miss.
   */
  lemma GetFollowsItsReads(states: seq<State>, cfg: Config, steps: seq<Step>, n: nat, i: nat)
    requires IsRun(states, cfg, steps) && n < |states| && i < |states[n].calls| && states[n].calls[i].phase.Returned?
    ensures var c := states[n].calls[i];
            match c.phase.via
            case ViaL1(at) => c.phase.outcome.Got? && Hit1(states, steps, n, i, c.key, c.phase.outcome.item, at)
            case ViaL2(at) =>
              && c.phase.outcome.Got? && Miss1(states, steps, n, i, c.key)
              && Hit2(states, cfg, steps, n, i, c.key, c.phase.outcome.item, at)
            case ViaFlight(_, _, _) => Miss1(states, steps, n, i, c.key) && Miss2(states, cfg, steps, n, i, c.key)
  {
    RunTracesCalls(states, cfg, steps, n, i);
  }
}
