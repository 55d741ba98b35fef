/**
 The two-tier cache manager (internal/cache/manager.go) as a transition system.

 A state holds both tiers, every `Get` ever called, every origin fetch ("flight"),
 every `Set` and `Invalidate`, and the global counters. One step is one access to
 shared state; steps of different goroutines interleave in any order. The in-process
 tier is the lossy map that the L1 modules show the sharded cache to be: entries may
 disappear at any time. The Redis tier is a map that expires entries, may lose them,
 and whose operations may fail.

 `events` is a history variable: the moments at which a value entered the system (a
 `Set`, or a return of the origin) or was invalidated. An `Item` remembers the event
 its value came from.
 */
module Manager {
  import opened CacheTypes

  datatype Event =
    | Wrote(key: Key, value: Value, time: int)
    | Fetched(key: Key, value: Value, time: int)
    | Invalidated(key: Key, time: int)

  datatype Item = Item(value: Value, src: nat)

  datatype Stored = Stored(item: Item, expires: int)

  datatype Outcome = Got(item: Item) | Failed

  /** How a `Get` came by its outcome; `at` is when the tier was checked or read. */
  datatype Via =
    | ViaL1(at: int)
    | ViaL2(at: int)
    | ViaFlight(f: nat, leads: bool, shared: bool)

  /** Where a `Get` is. */
  datatype Phase =
    | AtL1                                    // before the read of the L1 map
    | FoundL1(found: Stored)                  // before the expiry check
    | ExpiredL1                               // before the lazy delete
    | MissedL1                                // before L1Misses is counted
    | HitL1(item: Item, at: int)              // before L1Hits is counted
    | AtL2                                    // before the read of L2
    | MissedL2                                // before L2Misses is counted
    | HitL2(item: Item, at: int)              // before L2Hits is counted
    | FillingL1(item: Item, at: int)          // before L1 is back-populated
    | AtOrigin                                // before the singleflight group is entered
    | InFlight(flight: nat, leader: bool)     // waiting for, or leading, a flight
    | Returning(via: Via, outcome: Outcome)   // before RecordLatency
    | Returned(via: Via, outcome: Outcome)

  datatype Call = Call(key: Key, phase: Phase)

  /** Where the goroutine running `doOriginFetch` is. */
  datatype FlightPhase =
    | Created                     // before OriginCalls is counted
    | Calling                     // the origin has been called
    | Filling(item: Item)         // the origin returned; before L1 is back-populated
    | Finishing(result: Outcome)  // before the key leaves the group
    | Done(result: Outcome)

  /** The fire-and-forget write of L2. */
  datatype Background = NotSpawned | Waiting(payload: Item) | Landed | Lost

  /** `departed`: the leading `Get` has left the singleflight call. */
  datatype Flight = Flight(key: Key, leader: nat, joiners: nat, phase: FlightPhase, write: Background, departed: bool)

  /** A `Set` (with an item) or an `Invalidate` (without), between its L1 half and its L2 half. */
  datatype Writer = Writer(key: Key, change: Option<Item>, finished: bool)

  datatype Counters = Counters(
    l1Hits: nat, l1Misses: nat, l2Hits: nat, l2Misses: nat,
    originCalls: nat, originErrors: nat, coalesced: nat, total: nat)

  datatype Config = Config(useSF: bool, ttl1: int, ttl2: int)

  datatype State = State(
    now: int,
    l1: map<Key, Stored>, l2: map<Key, Stored>,
    calls: seq<Call>, flights: seq<Flight>, group: map<Key, nat>, writers: seq<Writer>,
    events: seq<Event>, count: Counters, intercepted: nat)

  function Initial(now: int): State {
    State(now, map[], map[], [], [], map[], [], [], Counters(0, 0, 0, 0, 0, 0, 0, 0), 0)
  }

  datatype Step =
    // the environment: time, loss of entries in either tier, the gRPC interceptor
    | Tick(d: nat) | DropL1(key: Key) | DropL2(key: Key) | Intercept
    // Manager.Get and L1Cache.Get, L2Cache.Get inside it
    | StartGet(key: Key) | ReadL1(i: nat) | CheckL1(i: nat) | LazyDelete(i: nat)
    | CountMiss1(i: nat) | CountHit1(i: nat)
    | ReadL2(i: nat, ok: bool) | CountMiss2(i: nat) | CountHit2(i: nat) | FillL1(i: nat)
    | EnterGroup(i: nat) | LeaveGroup(i: nat) | Return(i: nat)
    // doOriginFetch, run by the leader of a flight, and its background write
    | CountOrigin(f: nat) | OriginReturns(f: nat, value: Value) | OriginFails(f: nat)
    | FillFromOrigin(f: nat) | Complete(f: nat) | Land(f: nat) | LoseWrite(f: nat)
    // Manager.Set and Manager.Invalidate
    | BeginSet(key: Key, value: Value) | BeginInvalidate(key: Key) | EndWrite(w: nat, ok: bool)

  /** The steps of a `Get` inside `L1Cache.Get`. */
  predicate OnL1(step: Step) {
    step.ReadL1? || step.CheckL1? || step.LazyDelete? || step.CountMiss1? || step.CountHit1?
  }

  /** The steps of a `Get` from L2 on that touch no flight. */
  predicate OnL2(step: Step) {
    step.ReadL2? || step.CountMiss2? || step.CountHit2? || step.FillL1? || step.Return?
  }

  /** The steps of `doOriginFetch` and of its background write. */
  predicate OnFlight(step: Step) {
    step.CountOrigin? || step.OriginReturns? || step.OriginFails? || step.FillFromOrigin? || step.Complete?
    || step.Land? || step.LoseWrite?
  }

  predicate Enabled(s: State, step: Step) {
    match step
    case ReadL1(i) => i < |s.calls| && s.calls[i].phase.AtL1?
    case CheckL1(i) => i < |s.calls| && s.calls[i].phase.FoundL1?
    case LazyDelete(i) => i < |s.calls| && s.calls[i].phase.ExpiredL1?
    case CountMiss1(i) => i < |s.calls| && s.calls[i].phase.MissedL1?
    case CountHit1(i) => i < |s.calls| && s.calls[i].phase.HitL1?
    case ReadL2(i, _) => i < |s.calls| && s.calls[i].phase.AtL2?
    case CountMiss2(i) => i < |s.calls| && s.calls[i].phase.MissedL2?
    case CountHit2(i) => i < |s.calls| && s.calls[i].phase.HitL2?
    case FillL1(i) => i < |s.calls| && s.calls[i].phase.FillingL1?
    case EnterGroup(i) => i < |s.calls| && s.calls[i].phase.AtOrigin?
    case LeaveGroup(i) =>
      && i < |s.calls| && s.calls[i].phase.InFlight?
      && s.calls[i].phase.flight < |s.flights| && s.flights[s.calls[i].phase.flight].phase.Done?
    case Return(i) => i < |s.calls| && s.calls[i].phase.Returning?
    case CountOrigin(f) => f < |s.flights| && s.flights[f].phase.Created?
    case OriginReturns(f, _) => f < |s.flights| && s.flights[f].phase.Calling?
    case OriginFails(f) => f < |s.flights| && s.flights[f].phase.Calling?
    case FillFromOrigin(f) => f < |s.flights| && s.flights[f].phase.Filling?
    case Complete(f) => f < |s.flights| && s.flights[f].phase.Finishing?
    case Land(f) => f < |s.flights| && s.flights[f].write.Waiting?
    case LoseWrite(f) => f < |s.flights| && s.flights[f].write.Waiting?
    case EndWrite(w, _) => w < |s.writers| && !s.writers[w].finished
    case _ => true
  }

  // ------------------------------------------------------------------- one step

  function Move(s: State, i: nat, p: Phase): State
    requires i < |s.calls|
  {
    s.(calls := s.calls[i := s.calls[i].(phase := p)])
  }

  function MoveFlight(s: State, f: nat, p: FlightPhase): State
    requires f < |s.flights|
  {
    s.(flights := s.flights[f := s.flights[f].(phase := p)])
  }

  function PutL1(s: State, cfg: Config, k: Key, item: Item): State {
    s.(l1 := s.l1[k := Stored(item, s.now + cfg.ttl1)])
  }

  function PutL2(s: State, cfg: Config, k: Key, item: Item): State {
    s.(l2 := s.l2[k := Stored(item, s.now + cfg.ttl2)])
  }

  /** `L1Cache.Get` up to the expiry check. */
  function ReadPhase(s: State, k: Key): Phase {
    if k in s.l1 then FoundL1(s.l1[k]) else MissedL1
  }

  function CheckPhase(s: State, found: Stored): Phase {
    if s.now > found.expires then ExpiredL1 else HitL1(found.item, s.now)
  }

  predicate LiveL1(s: State, k: Key) {
    k in s.l1 && s.now <= s.l1[k].expires
  }

  /** Redis never returns an expired entry; without a positive lifetime entries do not expire. */
  predicate LiveL2(s: State, cfg: Config, k: Key) {
    k in s.l2 && (cfg.ttl2 <= 0 || s.now <= s.l2[k].expires)
  }

  /** `L2Cache.Get`: a failed read counts an error and is a miss. */
  function AfterReadL2(s: State, cfg: Config, i: nat, ok: bool): State
    requires i < |s.calls|
  {
    var k := s.calls[i].key;
    if ok && LiveL2(s, cfg, k) then Move(s, i, HitL2(s.l2[k].item, s.now))
    else if ok then Move(s, i, MissedL2)
    else Move(s, i, MissedL2).(count := s.count.(originErrors := s.count.originErrors + 1))
  }

  /** A flight for `k` is under way in the singleflight group. */
  predicate Joins(s: State, cfg: Config, k: Key) {
    cfg.useSF && k in s.group && s.group[k] < |s.flights|
  }

  /** `singleflight.Do`, or `doOriginFetch` directly when coalescing is off. */
  function AfterEnter(s: State, cfg: Config, i: nat): State
    requires Enabled(s, EnterGroup(i))
  {
    var k := s.calls[i].key;
    if Joins(s, cfg, k) then
      var f := s.group[k];
      Move(s, i, InFlight(f, false)).(flights := s.flights[f := s.flights[f].(joiners := s.flights[f].joiners + 1)])
    else
      var f := |s.flights|;
      Move(s, i, InFlight(f, true)).(
        flights := s.flights + [Flight(k, i, 0, Created, NotSpawned, false)],
        group := if cfg.useSF then s.group[k := f] else s.group)
  }

  /** Return from `singleflight.Do`: shared for every joiner, and for a leader that had joiners. */
  function AfterLeave(s: State, cfg: Config, i: nat): State
    requires Enabled(s, LeaveGroup(i))
  {
    var f, leads := s.calls[i].phase.flight, s.calls[i].phase.leader;
    var shared := cfg.useSF && (!leads || s.flights[f].joiners > 0);
    Move(s, i, Returning(ViaFlight(f, leads, shared), s.flights[f].phase.result)).(
      flights := if leads then s.flights[f := s.flights[f].(departed := true)] else s.flights,
      count := if shared then s.count.(coalesced := s.count.coalesced + 1) else s.count)
  }

  /** The origin returns: the background write is spawned before L1 is filled. */
  function AfterOrigin(s: State, f: nat, value: Value): State
    requires f < |s.flights|
  {
    var item := Item(value, |s.events|);
    s.(flights := s.flights[f := s.flights[f].(phase := Filling(item), write := Waiting(item))],
       events := s.events + [Fetched(s.flights[f].key, value, s.now)])
  }

  function AfterLand(s: State, cfg: Config, f: nat): State
    requires Enabled(s, Land(f))
  {
    PutL2(s, cfg, s.flights[f].key, s.flights[f].write.payload).(
      flights := s.flights[f := s.flights[f].(write := Landed)])
  }

  function AfterBeginSet(s: State, cfg: Config, k: Key, value: Value): State {
    var item := Item(value, |s.events|);
    PutL1(s, cfg, k, item).(
      writers := s.writers + [Writer(k, Some(item), false)],
      events := s.events + [Wrote(k, value, s.now)])
  }

  function AfterBeginInvalidate(s: State, k: Key): State {
    s.(l1 := s.l1 - {k},
       writers := s.writers + [Writer(k, None, false)],
       events := s.events + [Invalidated(k, s.now)])
  }

  /** The L2 half of a `Set` or an `Invalidate`; on failure L2 is left as it was. */
  function AfterEndWrite(s: State, cfg: Config, w: nat, ok: bool): State
    requires w < |s.writers|
  {
    var wr := s.writers[w];
    var t := if !ok then s
             else match wr.change
                  case Some(item) => PutL2(s, cfg, wr.key, item)
                  case None => s.(l2 := s.l2 - {wr.key});
    t.(writers := s.writers[w := wr.(finished := true)])
  }

  function Next(s: State, cfg: Config, step: Step): State
    requires Enabled(s, step)
  {
    match step
    case Tick(d) => s.(now := s.now + d)
    case DropL1(k) => s.(l1 := s.l1 - {k})
    case DropL2(k) => s.(l2 := s.l2 - {k})
    case Intercept => s.(count := s.count.(total := s.count.total + 1), intercepted := s.intercepted + 1)
    case StartGet(k) => s.(calls := s.calls + [Call(k, AtL1)])
    case ReadL1(i) => Move(s, i, ReadPhase(s, s.calls[i].key))
    case CheckL1(i) => Move(s, i, CheckPhase(s, s.calls[i].phase.found))
    case LazyDelete(i) => Move(s, i, MissedL1).(l1 := s.l1 - {s.calls[i].key})
    case CountMiss1(i) => Move(s, i, AtL2).(count := s.count.(l1Misses := s.count.l1Misses + 1))
    case CountHit1(i) =>
      Move(s, i, Returning(ViaL1(s.calls[i].phase.at), Got(s.calls[i].phase.item))).(
        count := s.count.(l1Hits := s.count.l1Hits + 1))
    case ReadL2(i, ok) => AfterReadL2(s, cfg, i, ok)
    case CountMiss2(i) => Move(s, i, AtOrigin).(count := s.count.(l2Misses := s.count.l2Misses + 1))
    case CountHit2(i) =>
      Move(s, i, FillingL1(s.calls[i].phase.item, s.calls[i].phase.at)).(
        count := s.count.(l2Hits := s.count.l2Hits + 1))
    case FillL1(i) =>
      PutL1(Move(s, i, Returning(ViaL2(s.calls[i].phase.at), Got(s.calls[i].phase.item))),
            cfg, s.calls[i].key, s.calls[i].phase.item)
    case EnterGroup(i) => AfterEnter(s, cfg, i)
    case LeaveGroup(i) => AfterLeave(s, cfg, i)
    case Return(i) =>
      Move(s, i, Returned(s.calls[i].phase.via, s.calls[i].phase.outcome)).(
        count := s.count.(total := s.count.total + 1))
    case CountOrigin(f) => MoveFlight(s, f, Calling).(count := s.count.(originCalls := s.count.originCalls + 1))
    case OriginReturns(f, v) => AfterOrigin(s, f, v)
    case OriginFails(f) =>
      MoveFlight(s, f, Finishing(Failed)).(count := s.count.(originErrors := s.count.originErrors + 1))
    case FillFromOrigin(f) =>
      PutL1(MoveFlight(s, f, Finishing(Got(s.flights[f].phase.item))),
            cfg, s.flights[f].key, s.flights[f].phase.item)
    case Complete(f) =>
      MoveFlight(s, f, Done(s.flights[f].phase.result)).(
        group := if cfg.useSF then s.group - {s.flights[f].key} else s.group)
    case Land(f) => AfterLand(s, cfg, f)
    case LoseWrite(f) => s.(flights := s.flights[f := s.flights[f].(write := Lost)])
    case BeginSet(k, v) => AfterBeginSet(s, cfg, k, v)
    case BeginInvalidate(k) => AfterBeginInvalidate(s, k)
    case EndWrite(w, ok) => AfterEndWrite(s, cfg, w, ok)
  }

  // ----------------------------------------------------------------------- runs

  ghost predicate Moves(s: State, cfg: Config, step: Step, t: State) {
    Enabled(s, step) && t == Next(s, cfg, step)
  }

  /** `states` are the states of a run from the initial state; `steps` are its steps. */
  ghost predicate IsRun(states: seq<State>, cfg: Config, steps: seq<Step>) {
    && |states| == |steps| + 1
    && states[0] == Initial(states[0].now)
    && forall n :: 0 <= n < |steps| ==> Moves(states[n], cfg, steps[n], states[n + 1])
  }
}
