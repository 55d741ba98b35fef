/**
 Exactly when a `Set` or an `Invalidate` takes effect.

 Once the call has returned, each tier should hold for the key the value written
 (nothing, for an invalidation) or nothing, until another write or fetch of the key
 begins. Whether that is so is decided when the call starts, by two things: what is
 then unfinished (a background write, a fill or another writer still under way with a
 different value, or an origin call still to be answered, can overtake it), and what
 L2 then holds (a `Get` that reads it between the two halves of the call can put it
 back into L1 after them).
 */
module ManagerSettling {
  import opened CacheTypes
  import opened Manager
  import opened ManagerCoherence

  /** The item carries the wanted value; no item does when an absence is wanted. */
  predicate Fits(item: Item, want: Option<Value>) {
    want == Some(item.value)
  }

  /** Nothing unfinished on `k` can later put anything but the wanted value into a tier. */
  ghost predicate NoRival(s: State, k: Key, want: Option<Value>) {
    && (forall w :: Writing(s.writers, w, k) ==> s.writers[w].change.None? || Fits(s.writers[w].change.value, want))
    && (forall f :: Fetching(s.flights, f, k) ==> FlightFits(s.flights[f], want))
    && (forall i :: FillPending(s.calls, i, k) ==> Fits(s.calls[i].phase.item, want))
  }

  predicate FlightFits(fl: Flight, want: Option<Value>) {
    && !fl.phase.Created? && !fl.phase.Calling?
    && (fl.phase.Filling? ==> Fits(fl.phase.item, want))
    && (fl.write.Waiting? ==> Fits(fl.write.payload, want))
  }

  /** No reader can get anything but the wanted value from L2. */
  predicate L2Fits(s: State, cfg: Config, k: Key, want: Option<Value>) {
    LiveL2(s, cfg, k) ==> Fits(s.l2[k].item, want)
  }

  ghost predicate HoldsOnly(s: State, k: Key, want: Option<Value>) {
    (k in s.l1 ==> Fits(s.l1[k].item, want)) && (k in s.l2 ==> Fits(s.l2[k].item, want))
  }

  /** The state right after the L1 half of the call; its writer is the last one. */
  function Begin(s: State, cfg: Config, k: Key, want: Option<Value>): State {
    match want
    case Some(v) => AfterBeginSet(s, cfg, k, v)
    case None => AfterBeginInvalidate(s, k)
  }

  /**
   A call to follow: its key, what it writes, and its place among the writers. Unless
   `fills` is set, only those runs are looked at in which no `Get` reads from L2 another
   value for the key before the call has completed.
   */
  datatype Aim = Aim(k: Key, want: Option<Value>, w0: nat, fills: bool)

  /** The call that begins in `s`. */
  function AimOf(s: State, k: Key, want: Option<Value>, fills: bool): Aim {
    Aim(k, want, |s.writers|, fills)
  }

  predicate Finished(s: State, w: nat) {
    w < |s.writers| && s.writers[w].finished
  }

  /** The step begins no write or fetch of the key, and our write of L2 does not fail. */
  predicate Continues(s: State, cfg: Config, a: Aim, step: Step)
    requires Enabled(s, step)
  {
    match step
    case BeginSet(o, _) => o != a.k
    case BeginInvalidate(o) => o != a.k
    case ReadL2(i, ok) => a.fills || (ok && s.calls[i].key == a.k ==> L2Fits(s, cfg, a.k, a.want) || Finished(s, a.w0))
    case EnterGroup(i) => s.calls[i].key != a.k || Joins(s, cfg, a.k)
    case EndWrite(w, ok) => w != a.w0 || ok
    case _ => true
  }

  ghost predicate CanContinue(s: State, cfg: Config, a: Aim, steps: seq<Step>)
    decreases |steps|
  {
    steps == [] ||
    (&& Enabled(s, steps[0]) && Continues(s, cfg, a, steps[0])
     && CanContinue(Next(s, cfg, steps[0]), cfg, a, steps[1..]))
  }

  ghost function End(s: State, cfg: Config, a: Aim, steps: seq<Step>): State
    requires CanContinue(s, cfg, a, steps)
    decreases |steps|
  {
    if steps == [] then s else End(Next(s, cfg, steps[0]), cfg, a, steps[1..])
  }

  /** However everything interleaves, from its completion on the call is in effect. */
  ghost predicate TakesEffect(s: State, cfg: Config, k: Key, want: Option<Value>, fills: bool) {
    var b, a := Begin(s, cfg, k, want), AimOf(s, k, want, fills);
    forall steps :: CanContinue(b, cfg, a, steps) && Finished(End(b, cfg, a, steps), a.w0) ==>
      HoldsOnly(End(b, cfg, a, steps), k, want)
  }

  /** Decided before the call: nothing can overtake it and, if `fills` is set, nothing else can be read inside it. */
  ghost predicate Unrivalled(s: State, cfg: Config, k: Key, want: Option<Value>, fills: bool) {
    NoRival(s, k, want) && (fills ==> L2Fits(s, cfg, k, want))
  }

  // ------------------------------------------------------------ the condition is enough

  /** Writer `w0` is ours: no rival is left, L1 fits, and so does L2 once `w0` has finished. */
  ghost predicate Settling(s: State, cfg: Config, a: Aim) {
    && a.w0 < |s.writers| && s.writers[a.w0].key == a.k
    && (s.writers[a.w0].change.None? <==> a.want.None?)
    && (s.writers[a.w0].change.Some? ==> Fits(s.writers[a.w0].change.value, a.want))
    && Unrivalled(s, cfg, a.k, a.want, a.fills)
    && (a.k in s.l1 ==> Fits(s.l1[a.k].item, a.want))
    && (s.writers[a.w0].finished && a.k in s.l2 ==> Fits(s.l2[a.k].item, a.want))
  }

  lemma BeginSettles(s: State, cfg: Config, k: Key, want: Option<Value>, fills: bool)
    requires Unrivalled(s, cfg, k, want, fills)
    ensures Settling(Begin(s, cfg, k, want), cfg, AimOf(s, k, want, fills))
  {}

  lemma CallKeeps(s: State, t: State, cfg: Config, a: Aim, i: nat)
    requires Settling(s, cfg, a) && i < |s.calls| == |t.calls|
    requires t == s.(calls := t.calls, count := t.count, l1 := t.l1)
    requires t.calls == s.calls[i := t.calls[i]] && t.calls[i].key == s.calls[i].key
    requires FillPending(t.calls, i, a.k) ==> Fits(t.calls[i].phase.item, a.want)
    requires a.k in t.l1 ==> Fits(t.l1[a.k].item, a.want)
    ensures Settling(t, cfg, a)
  {}

  lemma GetKeeps(s: State, cfg: Config, step: Step, a: Aim)
    requires Settling(s, cfg, a) && Enabled(s, step) && Continues(s, cfg, a, step)
    requires OnL1(step) || OnL2(step)
    ensures Settling(Next(s, cfg, step), cfg, a)
  {
    assert (step.FillL1? || step.CountHit2?) && s.calls[step.i].key == a.k ==> FillPending(s.calls, step.i, a.k);
    CallKeeps(s, Next(s, cfg, step), cfg, a, step.i);
  }

  lemma FlightKeeps(s: State, cfg: Config, step: Step, a: Aim)
    requires Settling(s, cfg, a) && Enabled(s, step) && OnFlight(step)
    ensures Settling(Next(s, cfg, step), cfg, a)
  {
    var t, f := Next(s, cfg, step), step.f;
    forall g | Fetching(t.flights, g, a.k) ensures FlightFits(t.flights[g], a.want) {
      assert Fetching(s.flights, g, a.k);
    }
    if s.flights[f].key == a.k && (step.FillFromOrigin? || step.Land?) {
      assert Fetching(s.flights, f, a.k);
    }
  }

  lemma GroupKeeps(s: State, cfg: Config, step: Step, a: Aim)
    requires Settling(s, cfg, a) && Enabled(s, step) && Continues(s, cfg, a, step)
    requires step.EnterGroup? || step.LeaveGroup?
    ensures Settling(Next(s, cfg, step), cfg, a)
  {
    var t := Next(s, cfg, step);
    forall g | Fetching(t.flights, g, a.k) ensures FlightFits(t.flights[g], a.want) {
      assert Fetching(s.flights, g, a.k);
    }
    forall j | FillPending(t.calls, j, a.k) ensures FillPending(s.calls, j, a.k) {}
  }

  lemma WriteKeeps(s: State, cfg: Config, step: Step, a: Aim)
    requires Settling(s, cfg, a) && Enabled(s, step) && Continues(s, cfg, a, step)
    requires step.BeginSet? || step.BeginInvalidate? || step.EndWrite?
    ensures Settling(Next(s, cfg, step), cfg, a)
  {
    var t := Next(s, cfg, step);
    forall w | Writing(t.writers, w, a.k) ensures Writing(s.writers, w, a.k) {}
    if step.EndWrite? && s.writers[step.w].key == a.k {
      assert Writing(s.writers, step.w, a.k);
    }
  }

  lemma StartKeeps(s: State, cfg: Config, o: Key, a: Aim)
    requires Settling(s, cfg, a)
    ensures Settling(s.(calls := s.calls + [Call(o, AtL1)]), cfg, a)
  {}

  lemma StepKeepsSettling(s: State, cfg: Config, step: Step, a: Aim)
    requires Settling(s, cfg, a) && Enabled(s, step) && Continues(s, cfg, a, step)
    ensures Settling(Next(s, cfg, step), cfg, a)
  {
    if OnL1(step) || OnL2(step) {
      GetKeeps(s, cfg, step, a);
    } else if OnFlight(step) {
      FlightKeeps(s, cfg, step, a);
    } else if step.EnterGroup? || step.LeaveGroup? {
      GroupKeeps(s, cfg, step, a);
    } else if step.BeginSet? || step.BeginInvalidate? || step.EndWrite? {
      WriteKeeps(s, cfg, step, a);
    } else if step.StartGet? {
      StartKeeps(s, cfg, step.key, a);
    }
  }

  lemma {:induction false} RunKeepsSettling(s: State, cfg: Config, a: Aim, steps: seq<Step>)
    requires Settling(s, cfg, a) && CanContinue(s, cfg, a, steps)
    ensures Settling(End(s, cfg, a, steps), cfg, a)
    decreases |steps|
  {
    if steps != [] {
      StepKeepsSettling(s, cfg, steps[0], a);
      RunKeepsSettling(Next(s, cfg, steps[0]), cfg, a, steps[1..]);
    }
  }

  // ------------------------------------------------------------- the condition is needed

  /** One more step at the front of a continuation. */
  lemma Prepend(s: State, cfg: Config, a: Aim, step: Step, rest: seq<Step>)
    requires Enabled(s, step) && Continues(s, cfg, a, step) && CanContinue(Next(s, cfg, step), cfg, a, rest)
    ensures CanContinue(s, cfg, a, [step] + rest)
    ensures End(s, cfg, a, [step] + rest) == End(Next(s, cfg, step), cfg, a, rest)
  {}

  /** From `s` some continuation completes our call and then leaves something unwanted in a tier. */
  ghost predicate Undone(s: State, cfg: Config, a: Aim) {
    exists steps :: CanContinue(s, cfg, a, steps)
                    && Finished(End(s, cfg, a, steps), a.w0) && !HoldsOnly(End(s, cfg, a, steps), a.k, a.want)
  }

  lemma UndoneNow(s: State, cfg: Config, a: Aim)
    requires Finished(s, a.w0) && !HoldsOnly(s, a.k, a.want)
    ensures Undone(s, cfg, a)
  {
    assert CanContinue(s, cfg, a, []) && End(s, cfg, a, []) == s;
  }

  lemma UndoneLater(s: State, cfg: Config, a: Aim, step: Step)
    requires Enabled(s, step) && Continues(s, cfg, a, step) && Undone(Next(s, cfg, step), cfg, a)
    ensures Undone(s, cfg, a)
  {
    var t := Next(s, cfg, step);
    var steps :| CanContinue(t, cfg, a, steps)
                 && Finished(End(t, cfg, a, steps), a.w0) && !HoldsOnly(End(t, cfg, a, steps), a.k, a.want);
    Prepend(s, cfg, a, step, steps);
  }

  lemma RivalWriter(s: State, cfg: Config, a: Aim, u: nat)
    requires Finished(s, a.w0) && Writing(s.writers, u, a.k)
    requires s.writers[u].change.Some? && !Fits(s.writers[u].change.value, a.want)
    ensures Undone(s, cfg, a)
  {
    UndoneNow(Next(s, cfg, EndWrite(u, true)), cfg, a);
    UndoneLater(s, cfg, a, EndWrite(u, true));
  }

  lemma RivalLanding(s: State, cfg: Config, a: Aim, f: nat)
    requires Finished(s, a.w0) && f < |s.flights| && s.flights[f].key == a.k
    requires s.flights[f].write.Waiting? && !Fits(s.flights[f].write.payload, a.want)
    ensures Undone(s, cfg, a)
  {
    UndoneNow(Next(s, cfg, Land(f)), cfg, a);
    UndoneLater(s, cfg, a, Land(f));
  }

  lemma RivalFilling(s: State, cfg: Config, a: Aim, f: nat)
    requires Finished(s, a.w0) && f < |s.flights| && s.flights[f].key == a.k
    requires s.flights[f].phase.Filling? && !Fits(s.flights[f].phase.item, a.want)
    ensures Undone(s, cfg, a)
  {
    UndoneNow(Next(s, cfg, FillFromOrigin(f)), cfg, a);
    UndoneLater(s, cfg, a, FillFromOrigin(f));
  }

  /** An outstanding origin call may be answered with any value. */
  lemma RivalCall(s: State, cfg: Config, a: Aim, f: nat)
    requires Finished(s, a.w0) && f < |s.flights| && s.flights[f].key == a.k
    requires s.flights[f].phase.Created? || s.flights[f].phase.Calling?
    ensures Undone(s, cfg, a)
    decreases s.flights[f].phase.Created?
  {
    if s.flights[f].phase.Created? {
      RivalCall(Next(s, cfg, CountOrigin(f)), cfg, a, f);
      UndoneLater(s, cfg, a, CountOrigin(f));
    } else {
      var answer: Value := if a.want == Some([]) then [0] else [];
      RivalFilling(Next(s, cfg, OriginReturns(f, answer)), cfg, a, f);
      UndoneLater(s, cfg, a, OriginReturns(f, answer));
    }
  }

  lemma RivalFill(s: State, cfg: Config, a: Aim, i: nat)
    requires Finished(s, a.w0) && FillPending(s.calls, i, a.k) && !Fits(s.calls[i].phase.item, a.want)
    ensures Undone(s, cfg, a)
    decreases s.calls[i].phase.HitL2?
  {
    if s.calls[i].phase.HitL2? {
      RivalFill(Next(s, cfg, CountHit2(i)), cfg, a, i);
      UndoneLater(s, cfg, a, CountHit2(i));
    } else {
      UndoneNow(Next(s, cfg, FillL1(i)), cfg, a);
      UndoneLater(s, cfg, a, FillL1(i));
    }
  }

  /** The call completes at once; then the rival has its turn. */
  lemma RivalUndoes(s: State, cfg: Config, k: Key, want: Option<Value>, fills: bool)
    requires !NoRival(s, k, want)
    ensures Undone(Begin(s, cfg, k, want), cfg, AimOf(s, k, want, fills))
  {
    var a, b := AimOf(s, k, want, fills), Begin(s, cfg, k, want);
    var t := Next(b, cfg, EndWrite(a.w0, true));
    if w :| Writing(s.writers, w, k) && s.writers[w].change.Some? && !Fits(s.writers[w].change.value, want) {
      RivalWriter(t, cfg, a, w);
    } else if i :| FillPending(s.calls, i, k) && !Fits(s.calls[i].phase.item, want) {
      RivalFill(t, cfg, a, i);
    } else {
      var f :| Fetching(s.flights, f, k) && !FlightFits(s.flights[f], want);
      if s.flights[f].phase.Created? || s.flights[f].phase.Calling? {
        RivalCall(t, cfg, a, f);
      } else if s.flights[f].phase.Filling? && !Fits(s.flights[f].phase.item, want) {
        RivalFilling(t, cfg, a, f);
      } else {
        RivalLanding(t, cfg, a, f);
      }
    }
    UndoneLater(b, cfg, a, EndWrite(a.w0, true));
  }

  /** Our call is between its halves. */
  ghost predicate InsideCall(s: State, a: Aim) {
    a.fills && a.w0 < |s.writers| && !s.writers[a.w0].finished
  }

  /** A `Get` that reads another value from L2 between the halves of the call puts it back into L1 after them. */
  lemma FillInsideSet(s: State, cfg: Config, a: Aim, i: nat)
    requires InsideCall(s, a) && i < |s.calls| && s.calls[i].phase.AtL2? && s.calls[i].key == a.k
    requires !L2Fits(s, cfg, a.k, a.want)
    ensures Undone(s, cfg, a)
  {
    var t := Next(s, cfg, ReadL2(i, true));
    RivalFill(Next(t, cfg, EndWrite(a.w0, true)), cfg, a, i);
    UndoneLater(t, cfg, a, EndWrite(a.w0, true));
    UndoneLater(s, cfg, a, ReadL2(i, true));
  }

  /** Such a `Get` can always come: L1 loses its entry, and the `Get` misses there. */
  lemma RivalL2(s: State, cfg: Config, a: Aim)
    requires InsideCall(s, a) && !L2Fits(s, cfg, a.k, a.want)
    ensures Undone(s, cfg, a)
  {
    var i := |s.calls|;
    var s1 := Next(s, cfg, DropL1(a.k));
    var s2 := Next(s1, cfg, StartGet(a.k));
    var s3 := Next(s2, cfg, ReadL1(i));
    FillInsideSet(Next(s3, cfg, CountMiss1(i)), cfg, a, i);
    UndoneLater(s3, cfg, a, CountMiss1(i));
    UndoneLater(s2, cfg, a, ReadL1(i));
    UndoneLater(s1, cfg, a, StartGet(a.k));
    UndoneLater(s, cfg, a, DropL1(a.k));
  }

  // ------------------------------------------------------------------ the main result

  /** With `fills`, over all interleavings; without, over those in which L2 yields nothing else inside the call. */
  lemma TakesEffectEither(s: State, cfg: Config, k: Key, want: Option<Value>, fills: bool)
    ensures TakesEffect(s, cfg, k, want, fills) <==> Unrivalled(s, cfg, k, want, fills)
  {
    var b, a := Begin(s, cfg, k, want), AimOf(s, k, want, fills);
    if Unrivalled(s, cfg, k, want, fills) {
      forall steps | CanContinue(b, cfg, a, steps) && Finished(End(b, cfg, a, steps), a.w0)
        ensures HoldsOnly(End(b, cfg, a, steps), k, want)
      {
        BeginSettles(s, cfg, k, want, fills);
        RunKeepsSettling(b, cfg, a, steps);
      }
    } else if NoRival(s, k, want) {
      RivalL2(b, cfg, a);
    } else {
      RivalUndoes(s, cfg, k, want, fills);
    }
  }

  /**
   For every state and every `Set` (`want` is a value) or `Invalidate` (`want` is
   none) of a key: the call is in effect from its completion until another write or
   fetch of the key begins, in every interleaving, if and only if nothing unfinished
   when it starts rivals it and L2 then holds no other live value.
   */
  lemma TakesEffectIff(s: State, cfg: Config, k: Key, want: Option<Value>)
    ensures TakesEffect(s, cfg, k, want, true) <==> NoRival(s, k, want) && L2Fits(s, cfg, k, want)
  {
    TakesEffectEither(s, cfg, k, want, true);
  }

  /** So an `Invalidate` can be undone whenever its key is live in L2, and only then if nothing rivals it. */
  lemma InvalidateTakesEffectIff(s: State, cfg: Config, k: Key)
    ensures TakesEffect(s, cfg, k, None, true) <==> NoRival(s, k, None) && !LiveL2(s, cfg, k)
  {
    TakesEffectEither(s, cfg, k, None, true);
  }

  /** Where no `Get` reads another value from L2 inside the call, what L2 holds at the start does not matter. */
  lemma TakesEffectUndisturbedIff(s: State, cfg: Config, k: Key, want: Option<Value>)
    ensures TakesEffect(s, cfg, k, want, false) <==> NoRival(s, k, want)
  {
    TakesEffectEither(s, cfg, k, want, false);
  }

  // --------------------------------------------------------------- when the L2 half fails

  /** A read of L1 and a read of L2 would return different values for `k`. */
  ghost predicate Disagree(s: State, cfg: Config, k: Key) {
    LiveL1(s, k) && LiveL2(s, cfg, k) && s.l1[k].item.value != s.l2[k].item.value
  }

  /** A `Set` whose L2 half fails leaves the tiers in disagreement exactly when L2 held a live other value. */
  lemma FailedSetDisagreesIff(s: State, cfg: Config, k: Key, v: Value)
    ensures Enabled(Next(s, cfg, BeginSet(k, v)), EndWrite(|s.writers|, false))
    ensures Disagree(Next(Next(s, cfg, BeginSet(k, v)), cfg, EndWrite(|s.writers|, false)), cfg, k)
            <==> 0 <= cfg.ttl1 && LiveL2(s, cfg, k) && s.l2[k].item.value != v
  {}
}
