/**
 When the two tiers agree.

 Nothing in the manager orders a fill against a write, so unconditional agreement
 is false (see ManagerSettling). It holds in runs in which the activities on one key
 do not overlap: a `Set` or `Invalidate` from its L1 half to its L2 half, a fetch
 from the call of the origin to the L1 fill and the landing of the background write,
 and a fill from an L2 hit to its write of L1. Fills may overlap one another, and
 any number of callers may join a fetch.
 */
module ManagerCoherence {
  import opened CacheTypes
  import opened Manager

  /** The value of the last event for `k`; none before the first and after an invalidation. */
  function Current(events: seq<Event>, k: Key): Option<Item> {
    if events == [] then None
    else
      var n := |events| - 1;
      if events[n].key != k then Current(events[..n], k)
      else if events[n].Invalidated? then None
      else Some(Item(events[n].value, n))
  }

  // ------------------------------------------------------------------ activities

  predicate Writing(writers: seq<Writer>, w: int, k: Key) {
    0 <= w < |writers| && writers[w].key == k && !writers[w].finished
  }

  predicate Fetching(flights: seq<Flight>, f: int, k: Key) {
    && 0 <= f < |flights| && flights[f].key == k
    && (flights[f].phase.Created? || flights[f].phase.Calling? || flights[f].phase.Filling?
        || flights[f].write.Waiting?)
  }

  predicate FillPending(calls: seq<Call>, i: int, k: Key) {
    0 <= i < |calls| && calls[i].key == k && (calls[i].phase.HitL2? || calls[i].phase.FillingL1?)
  }

  ghost predicate NoWriter(s: State, k: Key) { forall w :: !Writing(s.writers, w, k) }
  ghost predicate NoFetch(s: State, k: Key) { forall f :: !Fetching(s.flights, f, k) }
  ghost predicate NoFill(s: State, k: Key) { forall i :: !FillPending(s.calls, i, k) }

  /**
   The step starts no activity on `k` while a conflicting one is unfinished, and no
   write of `k` to L2 fails. Steps on other keys are free.
   */
  ghost predicate Disciplined(s: State, cfg: Config, step: Step, k: Key)
    requires Enabled(s, step)
  {
    match step
    case BeginSet(o, _) => o == k ==> NoWriter(s, k) && NoFetch(s, k) && NoFill(s, k)
    case BeginInvalidate(o) => o == k ==> NoWriter(s, k) && NoFetch(s, k) && NoFill(s, k)
    case ReadL2(i, ok) => s.calls[i].key == k && ok && LiveL2(s, cfg, k) ==> NoWriter(s, k) && NoFetch(s, k)
    case EnterGroup(i) =>
      s.calls[i].key == k ==> Joins(s, cfg, k) || (NoWriter(s, k) && NoFetch(s, k) && NoFill(s, k))
    case EndWrite(w, ok) => s.writers[w].key == k ==> ok
    case LoseWrite(f) => s.flights[f].key != k
    case _ => true
  }

  // ------------------------------------------------------------------- invariant

  ghost predicate WritersCarry(writers: seq<Writer>, k: Key, cur: Option<Item>) {
    forall w :: Writing(writers, w, k) ==> writers[w].change == cur
  }

  ghost predicate FlightsCarry(flights: seq<Flight>, k: Key, cur: Option<Item>) {
    forall f :: Fetching(flights, f, k) ==>
      && (flights[f].phase.Filling? ==> cur == Some(flights[f].phase.item))
      && (flights[f].write.Waiting? ==> cur == Some(flights[f].write.payload))
  }

  ghost predicate FillsCarry(calls: seq<Call>, k: Key, cur: Option<Item>) {
    forall i :: FillPending(calls, i, k) ==> cur == Some(calls[i].phase.item)
  }

  ghost predicate Exclusive(s: State, k: Key) {
    && (forall v, w :: Writing(s.writers, v, k) && Writing(s.writers, w, k) ==> v == w)
    && (forall f, g :: Fetching(s.flights, f, k) && Fetching(s.flights, g, k) ==> f == g)
    && (NoWriter(s, k) || (NoFetch(s, k) && NoFill(s, k)))
    && (NoFetch(s, k) || NoFill(s, k))
  }

  /** L1 holds at most the current value, except between an origin's return and the L1 fill. */
  ghost predicate L1Current(s: State, k: Key) {
    k in s.l1 && (forall f :: Fetching(s.flights, f, k) ==> !s.flights[f].phase.Filling?) ==>
      Current(s.events, k) == Some(s.l1[k].item)
  }

  /** L2 holds at most the current value, except before a `Set`, `Invalidate` or background write reaches it. */
  ghost predicate L2Current(s: State, k: Key) {
    k in s.l2 && NoWriter(s, k) && (forall f :: Fetching(s.flights, f, k) ==> !s.flights[f].write.Waiting?) ==>
      Current(s.events, k) == Some(s.l2[k].item)
  }

  /** Every unfinished activity on `k` carries the current value, and so do the tiers when settled. */
  ghost predicate Coherent(s: State, k: Key) {
    var cur := Current(s.events, k);
    && WritersCarry(s.writers, k, cur)
    && FlightsCarry(s.flights, k, cur)
    && FillsCarry(s.calls, k, cur)
    && Exclusive(s, k)
    && L1Current(s, k)
    && L2Current(s, k)
  }

  lemma CurrentOfAppend(events: seq<Event>, e: Event, k: Key)
    ensures Current(events + [e], k) ==
            if e.key != k then Current(events, k)
            else if e.Invalidated? then None else Some(Item(e.value, |events|))
  {}

  // ------------------------------------------------------------------- the steps

  /** A `Get` moves between points at which it has no fill pending. */
  lemma QuietCall(s: State, t: State, k: Key, i: nat)
    requires Coherent(s, k) && i < |s.calls| == |t.calls|
    requires t == s.(calls := t.calls, count := t.count, l1 := t.l1)
    requires t.calls == s.calls[i := t.calls[i]] && t.calls[i].key == s.calls[i].key
    requires FillPending(t.calls, i, k) ==> FillPending(s.calls, i, k) && t.calls[i].phase.item == s.calls[i].phase.item
    requires k in t.l1 ==> (k in s.l1 && t.l1[k] == s.l1[k]) || Current(s.events, k) == Some(t.l1[k].item)
    ensures Coherent(t, k)
  {
    forall j | FillPending(t.calls, j, k) ensures FillPending(s.calls, j, k) {}
  }

  lemma L1Step(s: State, cfg: Config, step: Step, k: Key)
    requires Coherent(s, k) && Enabled(s, step) && OnL1(step)
    ensures Coherent(Next(s, cfg, step), k)
  {
    QuietCall(s, Next(s, cfg, step), k, step.i);
  }

  lemma ReadL2Step(s: State, cfg: Config, i: nat, ok: bool, k: Key)
    requires Coherent(s, k) && Enabled(s, ReadL2(i, ok)) && Disciplined(s, cfg, ReadL2(i, ok), k)
    ensures Coherent(AfterReadL2(s, cfg, i, ok), k)
  {
    var t := AfterReadL2(s, cfg, i, ok);
    if ok && LiveL2(s, cfg, k) && s.calls[i].key == k {
      assert NoWriter(t, k) && NoFetch(t, k);
      forall j | FillPending(t.calls, j, k) && j != i ensures FillPending(s.calls, j, k) {}
    } else {
      QuietCall(s, t, k, i);
    }
  }

  lemma L2Step(s: State, cfg: Config, step: Step, k: Key)
    requires Coherent(s, k) && Enabled(s, step) && OnL2(step) && !step.ReadL2?
    ensures Coherent(Next(s, cfg, step), k)
  {
    assert step.FillL1? && s.calls[step.i].key == k ==> FillPending(s.calls, step.i, k);
    QuietCall(s, Next(s, cfg, step), k, step.i);
  }

  lemma StartStep(s: State, k: Key, o: Key)
    requires Coherent(s, k)
    ensures Coherent(s.(calls := s.calls + [Call(o, AtL1)]), k)
  {
    var t := s.(calls := s.calls + [Call(o, AtL1)]);
    forall j | FillPending(t.calls, j, k) ensures FillPending(s.calls, j, k) {}
  }

  /** What entering and leaving a group change of the flights is nothing the invariant looks at. */
  lemma SameFetches(s: State, t: State, k: Key, i: nat)
    requires Coherent(s, k) && i < |s.calls|
    requires t == s.(calls := t.calls, flights := t.flights, group := t.group, count := t.count)
    requires |t.calls| == |s.calls| && t.calls == s.calls[i := t.calls[i]]
    requires !FillPending(t.calls, i, k)
    requires |t.flights| == |s.flights|
    requires forall f :: 0 <= f < |s.flights| ==>
               && t.flights[f].key == s.flights[f].key
               && t.flights[f].phase == s.flights[f].phase && t.flights[f].write == s.flights[f].write
    ensures Coherent(t, k)
  {
    forall f ensures Fetching(t.flights, f, k) == Fetching(s.flights, f, k) {}
    forall j | FillPending(t.calls, j, k) ensures FillPending(s.calls, j, k) {}
  }

  lemma LeadStep(s: State, cfg: Config, i: nat, k: Key)
    requires Coherent(s, k) && Enabled(s, EnterGroup(i)) && Disciplined(s, cfg, EnterGroup(i), k)
    requires !Joins(s, cfg, s.calls[i].key)
    ensures Coherent(AfterEnter(s, cfg, i), k)
  {
    var t := AfterEnter(s, cfg, i);
    forall f | Fetching(t.flights, f, k)
      ensures if f == |s.flights| then s.calls[i].key == k else Fetching(s.flights, f, k) {}
    forall f | Fetching(s.flights, f, k) ensures Fetching(t.flights, f, k) {}
    forall j | FillPending(t.calls, j, k) ensures FillPending(s.calls, j, k) {}
  }

  lemma GroupStep(s: State, cfg: Config, step: Step, k: Key)
    requires Coherent(s, k) && Enabled(s, step) && Disciplined(s, cfg, step, k)
    requires step.EnterGroup? || step.LeaveGroup?
    ensures Coherent(Next(s, cfg, step), k)
  {
    if step.EnterGroup? && !Joins(s, cfg, s.calls[step.i].key) {
      LeadStep(s, cfg, step.i, k);
    } else {
      SameFetches(s, Next(s, cfg, step), k, step.i);
    }
  }

  /** A flight of another key moves, and only the tiers' entries for that key change. */
  lemma OtherFlight(s: State, t: State, k: Key, f: nat)
    requires Coherent(s, k) && f < |s.flights| == |t.flights| && s.flights[f].key != k
    requires t == s.(flights := t.flights, l1 := t.l1, l2 := t.l2, count := t.count, group := t.group,
                     events := t.events)
    requires t.flights == s.flights[f := t.flights[f]] && t.flights[f].key == s.flights[f].key
    requires (k in t.l1 <==> k in s.l1) && (k in t.l1 ==> t.l1[k] == s.l1[k])
    requires (k in t.l2 <==> k in s.l2) && (k in t.l2 ==> t.l2[k] == s.l2[k])
    requires Current(t.events, k) == Current(s.events, k)
    ensures Coherent(t, k)
  {
    forall g ensures Fetching(t.flights, g, k) == Fetching(s.flights, g, k) {}
  }

  /** The flight of `k` itself moves. */
  lemma OwnFlight(s: State, t: State, k: Key, f: nat)
    requires Coherent(s, k) && f < |s.flights| == |t.flights| && Fetching(s.flights, f, k)
    requires t == s.(flights := t.flights, l1 := t.l1, l2 := t.l2, count := t.count, group := t.group,
                     events := t.events)
    requires t.flights == s.flights[f := t.flights[f]] && t.flights[f].key == k
    requires t.flights[f].phase.Filling? ==> Current(t.events, k) == Some(t.flights[f].phase.item)
    requires t.flights[f].write.Waiting? ==> Current(t.events, k) == Some(t.flights[f].write.payload)
    requires k in t.l1 && !t.flights[f].phase.Filling? ==> Current(t.events, k) == Some(t.l1[k].item)
    requires k in t.l2 && !t.flights[f].write.Waiting? ==> Current(t.events, k) == Some(t.l2[k].item)
    ensures Coherent(t, k)
  {
    assert NoWriter(s, k) && NoFill(s, k);
    forall g | Fetching(t.flights, g, k) ensures g == f {
      assert g != f ==> Fetching(s.flights, g, k);
    }
    assert NoWriter(t, k) && NoFill(t, k);
    if k in t.l1 && !Fetching(t.flights, f, k) { assert !t.flights[f].phase.Filling?; }
  }

  /** A flight of `k` that is over moves: only its leaving of the group is left. */
  lemma SpentFlight(s: State, cfg: Config, k: Key, f: nat)
    requires Coherent(s, k) && Enabled(s, Complete(f)) && !Fetching(s.flights, f, k)
    ensures Coherent(Next(s, cfg, Complete(f)), k)
  {
    var t := Next(s, cfg, Complete(f));
    forall g ensures Fetching(t.flights, g, k) == Fetching(s.flights, g, k) {}
  }

  lemma FlightStep(s: State, cfg: Config, step: Step, k: Key)
    requires Coherent(s, k) && Enabled(s, step) && Disciplined(s, cfg, step, k) && OnFlight(step)
    ensures Coherent(Next(s, cfg, step), k)
  {
    var t, f := Next(s, cfg, step), step.f;
    if step.OriginReturns? {
      CurrentOfAppend(s.events, Fetched(s.flights[f].key, step.value, s.now), k);
    }
    if s.flights[f].key != k {
      OtherFlight(s, t, k, f);
    } else if Fetching(s.flights, f, k) {
      SettledTiers(s, k, f);
      OwnFlight(s, t, k, f);
    } else {
      SpentFlight(s, cfg, k, f);
    }
  }

  /** What the invariant says of the tiers while `f` is the unfinished fetch of `k`. */
  lemma SettledTiers(s: State, k: Key, f: nat)
    requires Coherent(s, k) && Fetching(s.flights, f, k)
    ensures k in s.l1 && !s.flights[f].phase.Filling? ==> Current(s.events, k) == Some(s.l1[k].item)
    ensures k in s.l2 && !s.flights[f].write.Waiting? ==> Current(s.events, k) == Some(s.l2[k].item)
  {}

  /** A write of another key begins. */
  lemma OtherBegins(s: State, t: State, k: Key)
    requires Coherent(s, k) && |t.writers| == |s.writers| + 1 && t.writers[..|s.writers|] == s.writers
    requires t.writers[|s.writers|].key != k
    requires t == s.(l1 := t.l1, writers := t.writers, events := t.events)
    requires Current(t.events, k) == Current(s.events, k)
    requires (k in t.l1 <==> k in s.l1) && (k in t.l1 ==> t.l1[k] == s.l1[k])
    ensures Coherent(t, k)
  {
    forall w ensures Writing(t.writers, w, k) == Writing(s.writers, w, k) {
      if 0 <= w < |s.writers| { assert t.writers[..|s.writers|][w] == t.writers[w]; }
    }
  }

  /** A write of `k` itself begins, with nothing on `k` unfinished. */
  lemma OwnBegins(s: State, t: State, k: Key)
    requires NoWriter(s, k) && NoFetch(s, k) && NoFill(s, k)
    requires |t.writers| == |s.writers| + 1 && t.writers[..|s.writers|] == s.writers
    requires t.writers[|s.writers|].key == k && !t.writers[|s.writers|].finished
    requires t == s.(l1 := t.l1, writers := t.writers, events := t.events)
    requires Current(t.events, k) == t.writers[|s.writers|].change
    requires k in t.l1 ==> Current(t.events, k) == Some(t.l1[k].item)
    ensures Coherent(t, k)
  {
    var n := |s.writers|;
    forall w | 0 <= w < n ensures t.writers[w] == s.writers[w] {
      assert t.writers[..n][w] == t.writers[w];
    }
    assert forall w :: Writing(t.writers, w, k) && w != n ==> Writing(s.writers, w, k);
    assert Writing(t.writers, n, k);
    assert NoFetch(t, k) && NoFill(t, k);
  }

  lemma BeginStep(s: State, cfg: Config, step: Step, k: Key)
    requires Coherent(s, k) && Enabled(s, step) && Disciplined(s, cfg, step, k)
    requires step.BeginSet? || step.BeginInvalidate?
    ensures Coherent(Next(s, cfg, step), k)
  {
    hide Coherent;
    var t := Next(s, cfg, step);
    CurrentOfAppend(s.events, t.events[|s.events|], k);
    if step.key == k {
      OwnBegins(s, t, k);
    } else {
      OtherBegins(s, t, k);
    }
  }

  lemma EndStep(s: State, cfg: Config, w: nat, ok: bool, k: Key)
    requires Coherent(s, k) && Enabled(s, EndWrite(w, ok)) && Disciplined(s, cfg, EndWrite(w, ok), k)
    ensures Coherent(AfterEndWrite(s, cfg, w, ok), k)
  {
    var t := AfterEndWrite(s, cfg, w, ok);
    forall v | Writing(t.writers, v, k) ensures Writing(s.writers, v, k) {}
    if s.writers[w].key == k {
      assert Writing(s.writers, w, k);
    } else {
      forall v | Writing(s.writers, v, k) ensures Writing(t.writers, v, k) {}
    }
  }

  lemma StepKeepsCoherence(s: State, cfg: Config, step: Step, k: Key)
    requires Coherent(s, k) && Enabled(s, step) && Disciplined(s, cfg, step, k)
    ensures Coherent(Next(s, cfg, step), k)
  {
    if OnL1(step) {
      L1Step(s, cfg, step, k);
    } else if step.ReadL2? {
      ReadL2Step(s, cfg, step.i, step.ok, k);
    } else if OnL2(step) {
      L2Step(s, cfg, step, k);
    } else if OnFlight(step) {
      FlightStep(s, cfg, step, k);
    } else if step.EnterGroup? || step.LeaveGroup? {
      GroupStep(s, cfg, step, k);
    } else if step.BeginSet? || step.BeginInvalidate? {
      BeginStep(s, cfg, step, k);
    } else if step.EndWrite? {
      EndStep(s, cfg, step.w, step.ok, k);
    } else if step.StartGet? {
      StartStep(s, k, step.key);
    }
  }

  // ------------------------------------------------------------------ whole runs

  ghost predicate DisciplinedAt(s: State, cfg: Config, step: Step, k: Key) {
    Enabled(s, step) ==> Disciplined(s, cfg, step, k)
  }

  /** Any run whose activities on `k` do not overlap, whatever happens to other keys. */
  ghost predicate DisciplinedRun(states: seq<State>, cfg: Config, steps: seq<Step>, k: Key) {
    && IsRun(states, cfg, steps)
    && forall n :: 0 <= n < |steps| ==> DisciplinedAt(states[n], cfg, steps[n], k)
  }

  lemma {:induction false} RunKeepsCoherence(states: seq<State>, cfg: Config, steps: seq<Step>, n: nat, k: Key)
    requires DisciplinedRun(states, cfg, steps, k) && n < |states|
    ensures Coherent(states[n], k)
  {
    if n > 0 {
      RunKeepsCoherence(states, cfg, steps, n - 1, k);
      assert Moves(states[n - 1], cfg, steps[n - 1], states[n]);
      assert DisciplinedAt(states[n - 1], cfg, steps[n - 1], k);
      StepKeepsCoherence(states[n - 1], cfg, steps[n - 1], k);
    }
  }

  /**
   In a run disciplined for a key, at every moment when no `Set`, `Invalidate` or fetch of
   it is unfinished, each tier holds for the key either nothing or the value of
   the last event, so the tiers never hold different values.
   */
  lemma TiersAgreeWhenSettled(states: seq<State>, cfg: Config, steps: seq<Step>, n: nat, k: Key)
    requires DisciplinedRun(states, cfg, steps, k) && n < |states|
    requires NoWriter(states[n], k) && NoFetch(states[n], k)
    ensures var s := states[n];
            && (k in s.l1 ==> Current(s.events, k) == Some(s.l1[k].item))
            && (k in s.l2 ==> Current(s.events, k) == Some(s.l2[k].item))
            && (k in s.l1 && k in s.l2 ==> s.l1[k].item == s.l2[k].item)
  {
    RunKeepsCoherence(states, cfg, steps, n, k);
  }

  /**
   In a run disciplined for a key, from the completion of an `Invalidate` to the next `Set` or
   origin return for the key, neither tier holds the key, whatever is in progress.
   */
  lemma InvalidatedStaysAbsent(states: seq<State>, cfg: Config, steps: seq<Step>, n: nat, k: Key)
    requires DisciplinedRun(states, cfg, steps, k) && n < |states|
    requires Current(states[n].events, k) == None && NoWriter(states[n], k)
    ensures k !in states[n].l1 && k !in states[n].l2
  {
    RunKeepsCoherence(states, cfg, steps, n, k);
  }
}
