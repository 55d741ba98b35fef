/**
 The cache-aside pattern: what one `Get` does when nothing else runs. The whole
 state is determined at every point of the call, so each lemma gives the only state
 it can end in, counters included.
 */
module ManagerSequential {
  import opened CacheTypes
  import opened Manager

  /** What the backends do: whether the read of L2 succeeds, the origin answers, and the background write succeeds. */
  datatype Luck = Luck(read: bool, origin: bool, write: bool)

  /** A step of the newest call, or of the flight it leads. */
  predicate Own(s: State, luck: Luck, step: Step) {
    if OnL1(step) || OnL2(step) || step.EnterGroup? || step.LeaveGroup? then
      step.i == |s.calls| && (step.ReadL2? ==> step.ok == luck.read)
    else
      && OnFlight(step) && step.f == |s.flights|
      && (step.OriginReturns? ==> luck.origin) && (step.OriginFails? ==> !luck.origin)
      && (step.Land? ==> luck.write) && (step.LoseWrite? ==> !luck.write)
  }

  /** The call can get the key from L2. */
  predicate InL2(s: State, cfg: Config, k: Key, luck: Luck) {
    luck.read && LiveL2(s, cfg, k)
  }

  /** `t` can be reached from `r` by steps that a `Get` begun in `s` takes itself. */
  ghost predicate Alone(s: State, cfg: Config, luck: Luck, r: State, steps: seq<Step>, t: State)
    decreases |steps|
  {
    if steps == [] then r == t
    else Enabled(r, steps[0]) && Own(s, luck, steps[0]) && Alone(s, cfg, luck, Next(r, cfg, steps[0]), steps[1..], t)
  }

  /** A `Get` of `k` begun in `s` and left alone has returned in `t`. */
  ghost predicate GetReturns(s: State, cfg: Config, k: Key, luck: Luck, steps: seq<Step>, t: State) {
    && Alone(s, cfg, luck, Next(s, cfg, StartGet(k)), steps, t)
    && |s.calls| < |t.calls| && t.calls[|s.calls|].phase.Returned?
  }

  // ------------------------------------------------- the state at each point of the call

  function Count(c: Counters, h1: nat, m1: nat, h2: nat, m2: nat, total: nat): Counters {
    c.(l1Hits := c.l1Hits + h1, l1Misses := c.l1Misses + m1, l2Hits := c.l2Hits + h2, l2Misses := c.l2Misses + m2,
       total := c.total + total)
  }

  /** A missed read of L2; a failed one is counted as an error. */
  function CountRead(c: Counters, luck: Luck, m2: nat, total: nat): Counters {
    Count(c, 0, 1, 0, m2, total).(originErrors := c.originErrors + (if luck.read then 0 else 1))
  }

  /** `s` with one more call, and what it has made of L1 and of the counters. */
  function Going(s: State, k: Key, p: Phase, l1: map<Key, Stored>, count: Counters): State {
    s.(calls := s.calls + [Call(k, p)], l1 := l1, count := count)
  }

  /** The value the origin answered, once it has. */
  function Answer(p: FlightPhase): Option<Item> {
    match p
    case Filling(item) => Some(item)
    case Finishing(Got(item)) => Some(item)
    case Done(Got(item)) => Some(item)
    case _ => None
  }

  function LeaderCount(c: Counters, luck: Luck, p: FlightPhase, total: nat): Counters {
    var d := CountRead(c, luck, 1, total);
    d.(originCalls := d.originCalls + (if p.Created? then 0 else 1),
       originErrors := d.originErrors + (if p == Finishing(Failed) || p == Done(Failed) then 1 else 0))
  }

  /** The leader of a flight: everything follows from where the flight and its leader are. */
  function Leading(s: State, cfg: Config, k: Key, luck: Luck, fl: Flight, p: Phase): State {
    var item := Answer(fl.phase);
    s.(calls := s.calls + [Call(k, p)],
       flights := s.flights + [fl],
       group := if cfg.useSF && !fl.phase.Done? then s.group[k := |s.flights|] else s.group,
       l1 := if item.Some? && !fl.phase.Filling? then s.l1[k := Stored(item.value, s.now + cfg.ttl1)] else s.l1 - {k},
       l2 := if item.Some? && fl.write.Landed? then s.l2[k := Stored(item.value, s.now + cfg.ttl2)] else s.l2,
       events := if item.Some? then s.events + [Fetched(k, item.value.value, s.now)] else s.events,
       count := LeaderCount(s.count, luck, fl.phase, if p.Returned? then 1 else 0))
  }

  /** The flight is led by the call, nobody joined it, and it carries the origin's answer, if there is one. */
  predicate OwnFlight(s: State, k: Key, luck: Luck, fl: Flight, departed: bool) {
    && fl == Flight(k, |s.calls|, 0, fl.phase, fl.write, departed)
    && match Answer(fl.phase)
       case None => fl.write == NotSpawned && (fl.phase.Created? || fl.phase.Calling? || !luck.origin)
       case Some(item) =>
         && luck.origin && item.src == |s.events|
         && (fl.write == Waiting(item) || fl.write == if luck.write then Landed else Lost)
  }

  ghost predicate LedBy(s: State, cfg: Config, k: Key, luck: Luck, t: State, p: Phase, departed: bool) {
    && k !in s.group && !LiveL1(s, k) && !InL2(s, cfg, k, luck)
    && |t.flights| == |s.flights| + 1
    && OwnFlight(s, k, luck, t.flights[|s.flights|], departed)
    && t == Leading(s, cfg, k, luck, t.flights[|s.flights|], p)
  }

  ghost predicate OnTrack(s: State, cfg: Config, k: Key, luck: Luck, t: State) {
    && |t.calls| == |s.calls| + 1
    && var p := t.calls[|s.calls|].phase;
    && match p
       case AtL1 => t == Going(s, k, p, s.l1, Count(s.count, 0, 0, 0, 0, 0))
       case FoundL1(e) => k in s.l1 && e == s.l1[k] && t == Going(s, k, p, s.l1, Count(s.count, 0, 0, 0, 0, 0))
       case HitL1(item, at) =>
         LiveL1(s, k) && item == s.l1[k].item && at == s.now && t == Going(s, k, p, s.l1, Count(s.count, 0, 0, 0, 0, 0))
       case ExpiredL1 => k in s.l1 && !LiveL1(s, k) && t == Going(s, k, p, s.l1, Count(s.count, 0, 0, 0, 0, 0))
       case MissedL1 => !LiveL1(s, k) && t == Going(s, k, p, s.l1 - {k}, Count(s.count, 0, 0, 0, 0, 0))
       case AtL2 => !LiveL1(s, k) && t == Going(s, k, p, s.l1 - {k}, Count(s.count, 0, 1, 0, 0, 0))
       case HitL2(item, at) =>
         FoundInL2(s, cfg, k, luck, item, at) && t == Going(s, k, p, s.l1 - {k}, Count(s.count, 0, 1, 0, 0, 0))
       case FillingL1(item, at) =>
         FoundInL2(s, cfg, k, luck, item, at) && t == Going(s, k, p, s.l1 - {k}, Count(s.count, 0, 1, 1, 0, 0))
       case MissedL2 =>
         && !LiveL1(s, k) && !InL2(s, cfg, k, luck)
         && t == Going(s, k, p, s.l1 - {k}, CountRead(s.count, luck, 0, 0))
       case AtOrigin =>
         && !LiveL1(s, k) && !InL2(s, cfg, k, luck)
         && t == Going(s, k, p, s.l1 - {k}, CountRead(s.count, luck, 1, 0))
       case InFlight(f, leader) => f == |s.flights| && leader && LedBy(s, cfg, k, luck, t, p, false)
       case Returning(via, o) => ServedTo(s, cfg, k, luck, t, p, via, o, 0)
       case Returned(via, o) => ServedTo(s, cfg, k, luck, t, p, via, o, 1)
  }

  ghost predicate FoundInL2(s: State, cfg: Config, k: Key, luck: Luck, item: Item, at: int) {
    !LiveL1(s, k) && InL2(s, cfg, k, luck) && item == s.l2[k].item && at == s.now
  }

  ghost predicate ServedTo(s: State, cfg: Config, k: Key, luck: Luck, t: State, p: Phase, via: Via, o: Outcome,
                           total: nat)
  {
    match via
    case ViaL1(at) =>
      && LiveL1(s, k) && at == s.now && o == Got(s.l1[k].item)
      && t == Going(s, k, p, s.l1, Count(s.count, 1, 0, 0, 0, total))
    case ViaL2(at) =>
      && InL2(s, cfg, k, luck) && FoundInL2(s, cfg, k, luck, s.l2[k].item, at) && o == Got(s.l2[k].item)
      && t == Going(s, k, p, s.l1[k := Stored(s.l2[k].item, s.now + cfg.ttl1)], Count(s.count, 0, 1, 1, 0, total))
    case ViaFlight(f, leads, shared) =>
      && f == |s.flights| && leads && !shared && LedBy(s, cfg, k, luck, t, p, true)
      && t.flights[f].phase == Done(o)
  }

  /** A key held by no tier has no flight under way that the `Get` would join. */
  predicate NoFlight(s: State, cfg: Config, k: Key, luck: Luck) {
    k in s.group ==> LiveL1(s, k) || InL2(s, cfg, k, luck)
  }

  // ------------------------------------------------------------------- the steps

  lemma MoveLast(s: State, k: Key, p: Phase, q: Phase)
    ensures (s.calls + [Call(k, p)])[|s.calls| := Call(k, q)] == s.calls + [Call(k, q)]
  {}

  lemma L1Track(s: State, cfg: Config, k: Key, luck: Luck, t: State, step: Step)
    requires OnTrack(s, cfg, k, luck, t) && Enabled(t, step) && Own(s, luck, step) && OnL1(step)
    ensures OnTrack(s, cfg, k, luck, Next(t, cfg, step))
  {
    MoveLast(s, k, t.calls[step.i].phase, Next(t, cfg, step).calls[step.i].phase);
    assert k !in s.l1 ==> s.l1 - {k} == s.l1;
  }

  lemma L2Track(s: State, cfg: Config, k: Key, luck: Luck, t: State, step: Step)
    requires OnTrack(s, cfg, k, luck, t) && Enabled(t, step) && Own(s, luck, step)
    requires step.ReadL2? || step.CountMiss2? || step.CountHit2?
    ensures OnTrack(s, cfg, k, luck, Next(t, cfg, step))
  {
    MoveLast(s, k, t.calls[step.i].phase, Next(t, cfg, step).calls[step.i].phase);
  }

  lemma FillTrack(s: State, cfg: Config, k: Key, luck: Luck, t: State, step: Step)
    requires OnTrack(s, cfg, k, luck, t) && Enabled(t, step) && Own(s, luck, step) && step.FillL1?
    ensures OnTrack(s, cfg, k, luck, Next(t, cfg, step))
  {
    MoveLast(s, k, t.calls[step.i].phase, Next(t, cfg, step).calls[step.i].phase);
    var e := Stored(s.l2[k].item, s.now + cfg.ttl1);
    assert (s.l1 - {k})[k := e] == s.l1[k := e];
  }

  lemma ReturnTrack(s: State, cfg: Config, k: Key, luck: Luck, t: State, step: Step)
    requires OnTrack(s, cfg, k, luck, t) && Enabled(t, step) && Own(s, luck, step) && step.Return?
    ensures OnTrack(s, cfg, k, luck, Next(t, cfg, step))
  {
    MoveLast(s, k, t.calls[step.i].phase, Next(t, cfg, step).calls[step.i].phase);
  }

  lemma GroupTrack(s: State, cfg: Config, k: Key, luck: Luck, t: State, step: Step)
    requires OnTrack(s, cfg, k, luck, t) && Enabled(t, step) && Own(s, luck, step)
    requires step.EnterGroup? || step.LeaveGroup?
    requires NoFlight(s, cfg, k, luck)
    ensures OnTrack(s, cfg, k, luck, Next(t, cfg, step))
  {
    MoveLast(s, k, t.calls[step.i].phase, Next(t, cfg, step).calls[step.i].phase);
  }

  lemma MoveLastFlight(s: State, x: Flight, y: Flight)
    ensures (s.flights + [x])[|s.flights| := y] == s.flights + [y]
  {}

  ghost predicate Led(s: State, cfg: Config, k: Key, luck: Luck, t: State) {
    |t.calls| == |s.calls| + 1 && var p := t.calls[|s.calls|].phase; LedBy(s, cfg, k, luck, t, p, !p.InFlight?)
  }

  /** Once there is a flight of its own, the call leads it. */
  lemma TrackIsLed(s: State, cfg: Config, k: Key, luck: Luck, t: State)
    requires OnTrack(s, cfg, k, luck, t) && |s.flights| < |t.flights|
    ensures Led(s, cfg, k, luck, t)
  {}

  lemma LedStaysOnTrack(s: State, cfg: Config, k: Key, luck: Luck, t: State, u: State)
    requires OnTrack(s, cfg, k, luck, t) && |s.flights| < |t.flights| && Led(s, cfg, k, luck, u) && u.calls == t.calls
    requires t.flights[|s.flights|].phase.Done? ==> u.flights[|s.flights|].phase == t.flights[|s.flights|].phase
    ensures OnTrack(s, cfg, k, luck, u)
  {}

  /** The origin is called, and answers. */
  lemma CallStep(s: State, cfg: Config, k: Key, luck: Luck, t: State, step: Step)
    requires Led(s, cfg, k, luck, t) && Enabled(t, step) && Own(s, luck, step)
    requires step.CountOrigin? || step.OriginReturns? || step.OriginFails?
    ensures Led(s, cfg, k, luck, Next(t, cfg, step))
  {
    MoveLastFlight(s, t.flights[step.f], Next(t, cfg, step).flights[step.f]);
  }

  /** The answer goes to L1. */
  lemma FillStep(s: State, cfg: Config, k: Key, luck: Luck, t: State, step: Step)
    requires Led(s, cfg, k, luck, t) && Enabled(t, step) && Own(s, luck, step) && step.FillFromOrigin?
    ensures Led(s, cfg, k, luck, Next(t, cfg, step))
  {
    MoveLastFlight(s, t.flights[step.f], Next(t, cfg, step).flights[step.f]);
    var e := Stored(t.flights[step.f].phase.item, s.now + cfg.ttl1);
    assert (s.l1 - {k})[k := e] == s.l1[k := e];
  }

  /** The flight leaves the group. */
  lemma CompleteStep(s: State, cfg: Config, k: Key, luck: Luck, t: State, step: Step)
    requires Led(s, cfg, k, luck, t) && Enabled(t, step) && Own(s, luck, step) && step.Complete?
    ensures Led(s, cfg, k, luck, Next(t, cfg, step))
  {
    MoveLastFlight(s, t.flights[step.f], Next(t, cfg, step).flights[step.f]);
    assert s.group[k := |s.flights|] - {k} == s.group && s.group - {k} == s.group;
  }

  lemma LandStep(s: State, cfg: Config, k: Key, luck: Luck, t: State, step: Step)
    requires Led(s, cfg, k, luck, t) && Enabled(t, step) && Own(s, luck, step) && (step.Land? || step.LoseWrite?)
    ensures Led(s, cfg, k, luck, Next(t, cfg, step))
  {
    MoveLastFlight(s, t.flights[step.f], Next(t, cfg, step).flights[step.f]);
  }

  lemma FlightStepIsOwn(s: State, cfg: Config, luck: Luck, t: State, step: Step)
    requires Enabled(t, step) && Own(s, luck, step) && OnFlight(step)
    ensures var u := Next(t, cfg, step);
            && u.calls == t.calls && |u.flights| == |t.flights|
            && (t.flights[step.f].phase.Done? ==> u.flights[step.f].phase == t.flights[step.f].phase)
  {}

  lemma FlightStep(s: State, cfg: Config, k: Key, luck: Luck, t: State, step: Step)
    requires Led(s, cfg, k, luck, t) && Enabled(t, step) && Own(s, luck, step) && OnFlight(step)
    ensures Led(s, cfg, k, luck, Next(t, cfg, step))
  {
    hide Led, Next, Enabled;
    match step
    case FillFromOrigin(_) => FillStep(s, cfg, k, luck, t, step);
    case Complete(_) => CompleteStep(s, cfg, k, luck, t, step);
    case Land(_) => LandStep(s, cfg, k, luck, t, step);
    case LoseWrite(_) => LandStep(s, cfg, k, luck, t, step);
    case _ => CallStep(s, cfg, k, luck, t, step);
  }

  lemma FlightTrack(s: State, cfg: Config, k: Key, luck: Luck, t: State, step: Step)
    requires OnTrack(s, cfg, k, luck, t) && Enabled(t, step) && Own(s, luck, step) && OnFlight(step)
    ensures OnTrack(s, cfg, k, luck, Next(t, cfg, step))
  {
    hide OnTrack, Led, Next;
    TrackIsLed(s, cfg, k, luck, t);
    FlightStepIsOwn(s, cfg, luck, t, step);
    FlightStep(s, cfg, k, luck, t, step);
    LedStaysOnTrack(s, cfg, k, luck, t, Next(t, cfg, step));
  }

  lemma StepTrack(s: State, cfg: Config, k: Key, luck: Luck, t: State, step: Step)
    requires OnTrack(s, cfg, k, luck, t) && Enabled(t, step) && Own(s, luck, step) && NoFlight(s, cfg, k, luck)
    ensures OnTrack(s, cfg, k, luck, Next(t, cfg, step))
  {
    hide OnTrack, Next;
    if OnL1(step) {
      L1Track(s, cfg, k, luck, t, step);
    } else if step.FillL1? {
      FillTrack(s, cfg, k, luck, t, step);
    } else if step.Return? {
      ReturnTrack(s, cfg, k, luck, t, step);
    } else if OnL2(step) {
      L2Track(s, cfg, k, luck, t, step);
    } else if step.EnterGroup? || step.LeaveGroup? {
      GroupTrack(s, cfg, k, luck, t, step);
    } else {
      FlightTrack(s, cfg, k, luck, t, step);
    }
  }

  lemma {:induction false} AloneTrack(s: State, cfg: Config, k: Key, luck: Luck, r: State, steps: seq<Step>, t: State)
    requires OnTrack(s, cfg, k, luck, r) && Alone(s, cfg, luck, r, steps, t) && NoFlight(s, cfg, k, luck)
    ensures OnTrack(s, cfg, k, luck, t)
    decreases |steps|
  {
    if steps != [] {
      StepTrack(s, cfg, k, luck, r, steps[0]);
      AloneTrack(s, cfg, k, luck, Next(r, cfg, steps[0]), steps[1..], t);
    }
  }

  // ------------------------------------------------------------- the call is never stuck

  /** The next step of the call, given the answer the origin will make. */
  function NextOwn(s: State, luck: Luck, t: State, v: Value): Step
    requires |s.calls| < |t.calls|
  {
    var i, f := |s.calls|, |s.flights|;
    match t.calls[i].phase
    case AtL1 => ReadL1(i)
    case FoundL1(_) => CheckL1(i)
    case ExpiredL1 => LazyDelete(i)
    case MissedL1 => CountMiss1(i)
    case HitL1(_, _) => CountHit1(i)
    case AtL2 => ReadL2(i, luck.read)
    case MissedL2 => CountMiss2(i)
    case HitL2(_, _) => CountHit2(i)
    case FillingL1(_, _) => FillL1(i)
    case AtOrigin => EnterGroup(i)
    case InFlight(_, _) =>
      if |t.flights| <= f || t.flights[f].phase.Done? then LeaveGroup(i)
      else if t.flights[f].phase.Created? then CountOrigin(f)
      else if t.flights[f].phase.Calling? then (if luck.origin then OriginReturns(f, v) else OriginFails(f))
      else if t.flights[f].phase.Filling? then FillFromOrigin(f)
      else Complete(f)
    case _ => Return(i)
  }

  /** Steps still to come. */
  function Left(s: State, t: State): nat
    requires |s.calls| < |t.calls|
  {
    match t.calls[|s.calls|].phase
    case AtL1 => 14
    case FoundL1(_) => 13
    case ExpiredL1 => 12
    case MissedL1 => 11
    case AtL2 => 10
    case MissedL2 => 9
    case AtOrigin => 8
    case InFlight(_, _) =>
      if |t.flights| <= |s.flights| || t.flights[|s.flights|].phase.Done? then 3
      else if t.flights[|s.flights|].phase.Created? then 7
      else if t.flights[|s.flights|].phase.Calling? then 6
      else if t.flights[|s.flights|].phase.Filling? then 5
      else 4
    case HitL2(_, _) => 3
    case FillingL1(_, _) => 2
    case HitL1(_, _) => 2
    case Returning(_, _) => 1
    case Returned(_, _) => 0
  }

  /** What progress needs to know of the state. */
  ghost predicate InStep(s: State, t: State) {
    && |t.calls| == |s.calls| + 1
    && (t.calls[|s.calls|].phase.InFlight? ==>
          && t.calls[|s.calls|].phase == InFlight(|s.flights|, true)
          && |t.flights| == |s.flights| + 1)
    && (t.calls[|s.calls|].phase.AtOrigin? ==> t.flights == s.flights && t.calls[|s.calls|].key !in t.group)
  }

  lemma TrackIsInStep(s: State, cfg: Config, k: Key, luck: Luck, t: State)
    requires OnTrack(s, cfg, k, luck, t) && NoFlight(s, cfg, k, luck)
    ensures InStep(s, t)
  {}

  ghost predicate Advances(s: State, cfg: Config, luck: Luck, t: State, step: Step)
    requires |s.calls| < |t.calls|
  {
    Enabled(t, step) && Own(s, luck, step)
    && |s.calls| < |Next(t, cfg, step).calls| && Left(s, Next(t, cfg, step)) < Left(s, t)
  }

  lemma ProgressOnL1(s: State, cfg: Config, luck: Luck, t: State, v: Value)
    requires InStep(s, t) && OnL1(NextOwn(s, luck, t, v))
    ensures Advances(s, cfg, luck, t, NextOwn(s, luck, t, v))
  {}

  lemma ProgressOnL2(s: State, cfg: Config, luck: Luck, t: State, v: Value)
    requires InStep(s, t) && OnL2(NextOwn(s, luck, t, v)) && !t.calls[|s.calls|].phase.Returned?
    ensures Advances(s, cfg, luck, t, NextOwn(s, luck, t, v))
  {}

  lemma ProgressInFlight(s: State, cfg: Config, luck: Luck, t: State, v: Value)
    requires InStep(s, t) && t.calls[|s.calls|].phase.InFlight?
    ensures Advances(s, cfg, luck, t, NextOwn(s, luck, t, v))
  {}

  lemma ProgressAtOrigin(s: State, cfg: Config, luck: Luck, t: State, v: Value)
    requires InStep(s, t) && t.calls[|s.calls|].phase.AtOrigin?
    ensures Advances(s, cfg, luck, t, NextOwn(s, luck, t, v))
  {}

  lemma Progress(s: State, cfg: Config, luck: Luck, t: State, v: Value)
    requires InStep(s, t) && !t.calls[|s.calls|].phase.Returned?
    ensures Advances(s, cfg, luck, t, NextOwn(s, luck, t, v))
  {
    hide Advances;
    if t.calls[|s.calls|].phase.InFlight? {
      ProgressInFlight(s, cfg, luck, t, v);
    } else if t.calls[|s.calls|].phase.AtOrigin? {
      ProgressAtOrigin(s, cfg, luck, t, v);
    } else if OnL1(NextOwn(s, luck, t, v)) {
      ProgressOnL1(s, cfg, luck, t, v);
    } else {
      ProgressOnL2(s, cfg, luck, t, v);
    }
  }

  lemma {:induction false} Finishes(s: State, cfg: Config, k: Key, luck: Luck, r: State, v: Value)
    returns (steps: seq<Step>, t: State)
    requires OnTrack(s, cfg, k, luck, r) && NoFlight(s, cfg, k, luck)
    ensures Alone(s, cfg, luck, r, steps, t) && OnTrack(s, cfg, k, luck, t) && t.calls[|s.calls|].phase.Returned?
    decreases Left(s, r)
  {
    if r.calls[|s.calls|].phase.Returned? {
      steps, t := [], r;
    } else {
      var step := NextOwn(s, luck, r, v);
      TrackIsInStep(s, cfg, k, luck, r);
      Progress(s, cfg, luck, r, v);
      StepTrack(s, cfg, k, luck, r, step);
      steps, t := Finishes(s, cfg, k, luck, Next(r, cfg, step), v);
      assert ([step] + steps)[1..] == steps;
      steps := [step] + steps;
    }
  }

  // ------------------------------------------------------------------- whole calls

  lemma Track(s: State, cfg: Config, k: Key, luck: Luck, steps: seq<Step>, t: State)
    requires GetReturns(s, cfg, k, luck, steps, t) && NoFlight(s, cfg, k, luck)
    ensures OnTrack(s, cfg, k, luck, t)
  {
    AloneTrack(s, cfg, k, luck, Next(s, cfg, StartGet(k)), steps, t);
  }

  /** Left alone, a `Get` can always return. */
  lemma GetCanReturn(s: State, cfg: Config, k: Key, luck: Luck, v: Value)
    requires NoFlight(s, cfg, k, luck)
    ensures exists steps, t :: GetReturns(s, cfg, k, luck, steps, t)
  {
    var steps, t := Finishes(s, cfg, k, luck, Next(s, cfg, StartGet(k)), v);
    assert GetReturns(s, cfg, k, luck, steps, t);
  }

  /** However it goes, a `Get` of a key live in L1 returns that entry, and only the counters change. */
  lemma ServedFromL1(s: State, cfg: Config, k: Key, luck: Luck, steps: seq<Step>, t: State)
    requires LiveL1(s, k) && GetReturns(s, cfg, k, luck, steps, t)
    ensures t == s.(calls := s.calls + [Call(k, Returned(ViaL1(s.now), Got(s.l1[k].item)))],
                    count := s.count.(l1Hits := s.count.l1Hits + 1, total := s.count.total + 1))
  {
    Track(s, cfg, k, luck, steps, t);
  }

  /**
   However it goes, a `Get` of a key live only in L2 returns that entry and copies it to
   L1 with a fresh lifetime; L2 is not written.
   */
  lemma ServedFromL2(s: State, cfg: Config, k: Key, luck: Luck, steps: seq<Step>, t: State)
    requires !LiveL1(s, k) && luck.read && LiveL2(s, cfg, k) && GetReturns(s, cfg, k, luck, steps, t)
    ensures t == s.(calls := s.calls + [Call(k, Returned(ViaL2(s.now), Got(s.l2[k].item)))],
                    l1 := s.l1[k := Stored(s.l2[k].item, s.now + cfg.ttl1)],
                    count := s.count.(l1Misses := s.count.l1Misses + 1, l2Hits := s.count.l2Hits + 1,
                                      total := s.count.total + 1))
  {
    Track(s, cfg, k, luck, steps, t);
  }

  /** Where the background write of an item is, after the call: still to come, or over, as luck has it. */
  function WriteOf(item: Item, luck: Luck, over: bool): Background {
    if !over then Waiting(item) else if luck.write then Landed else Lost
  }

  /** The counters after a call that got nothing from either tier. */
  function FetchCount(c: Counters, luck: Luck): Counters {
    c.(l1Misses := c.l1Misses + 1, l2Misses := c.l2Misses + 1, originCalls := c.originCalls + 1,
       originErrors := c.originErrors + (if luck.read then 0 else 1) + (if luck.origin then 0 else 1),
       total := c.total + 1)
  }

  /** The state after a `Get` answered by the origin with `v`. */
  function AfterFetch(s: State, cfg: Config, k: Key, luck: Luck, v: Value, over: bool): State {
    var item, f := Item(v, |s.events|), |s.flights|;
    s.(calls := s.calls + [Call(k, Returned(ViaFlight(f, true, false), Got(item)))],
       flights := s.flights + [Flight(k, |s.calls|, 0, Done(Got(item)), WriteOf(item, luck, over), true)],
       l1 := s.l1[k := Stored(item, s.now + cfg.ttl1)],
       l2 := if over && luck.write then s.l2[k := Stored(item, s.now + cfg.ttl2)] else s.l2,
       events := s.events + [Fetched(k, v, s.now)],
       count := FetchCount(s.count, luck))
  }

  /**
   However it goes, a `Get` that finds the key in neither tier, or cannot read L2, calls
   the origin once and returns its answer; L1 holds the answer, and L2 as soon as the
   background write has landed, each with its own lifetime. A failed read of L2 is
   counted as an error, and nobody is counted as coalesced.
   */
  lemma ServedFromOrigin(s: State, cfg: Config, k: Key, luck: Luck, steps: seq<Step>, t: State)
    requires !LiveL1(s, k) && !InL2(s, cfg, k, luck) && k !in s.group && GetReturns(s, cfg, k, luck, steps, t)
    requires luck.origin
    ensures exists v, over :: t == AfterFetch(s, cfg, k, luck, v, over)
  {
    Track(s, cfg, k, luck, steps, t);
    var fl := t.flights[|s.flights|];
    var item := fl.phase.result.item;
    assert t == AfterFetch(s, cfg, k, luck, item.value, !fl.write.Waiting?);
  }

  /**
   When the origin fails as well, the `Get` fails: nothing is stored in either tier, an
   expired entry is gone from L1, and the error is counted.
   */
  lemma FailedByOrigin(s: State, cfg: Config, k: Key, luck: Luck, steps: seq<Step>, t: State)
    requires !LiveL1(s, k) && !InL2(s, cfg, k, luck) && k !in s.group && GetReturns(s, cfg, k, luck, steps, t)
    requires !luck.origin
    ensures t == s.(calls := s.calls + [Call(k, Returned(ViaFlight(|s.flights|, true, false), Failed))],
                    flights := s.flights + [Flight(k, |s.calls|, 0, Done(Failed), NotSpawned, true)],
                    l1 := s.l1 - {k},
                    count := FetchCount(s.count, luck))
  {
    Track(s, cfg, k, luck, steps, t);
  }

  // ------------------------------------------------------- after a failed invalidation

  /** The state after an `Invalidate` whose L2 half fails. */
  function AfterFailedInvalidate(s: State, k: Key): State {
    AfterBeginInvalidate(s, k).(writers := s.writers + [Writer(k, None, true)])
  }

  lemma FailedInvalidateSteps(s: State, cfg: Config, k: Key)
    ensures Enabled(Next(s, cfg, BeginInvalidate(k)), EndWrite(|s.writers|, false))
    ensures Next(Next(s, cfg, BeginInvalidate(k)), cfg, EndWrite(|s.writers|, false)) == AfterFailedInvalidate(s, k)
  {}

  /**
   An `Invalidate` whose L2 half fails leaves the entry to be served again: a lone `Get`
   that can read L2 returns the old entry, and restores it to L1, if L2 holds it live;
   and otherwise no tier serves the key.
   */
  lemma FailedInvalidateServesAgainIff(s: State, cfg: Config, k: Key, luck: Luck, steps: seq<Step>, t: State)
    requires luck.read && GetReturns(AfterFailedInvalidate(s, k), cfg, k, luck, steps, t)
    requires k !in s.group
    ensures var c := t.calls[|s.calls|];
            && (LiveL2(s, cfg, k) ==> c.phase == Returned(ViaL2(s.now), Got(s.l2[k].item)) && k in t.l1)
            && (!LiveL2(s, cfg, k) ==> c.phase.via.ViaFlight?)
  {
    var u := AfterFailedInvalidate(s, k);
    hide GetReturns;
    if LiveL2(s, cfg, k) {
      ServedFromL2(u, cfg, k, luck, steps, t);
    } else if luck.origin {
      ServedFromOrigin(u, cfg, k, luck, steps, t);
    } else {
      FailedByOrigin(u, cfg, k, luck, steps, t);
    }
  }
}
