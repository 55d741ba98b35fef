/**
 What a `Get` returns after a `Set` or an `Invalidate` of its key has completed: from
 a tier, only the value set; after an invalidation, nothing from a tier. A `Get` that
 joins a flight may still be given that flight's older answer.
 */
module ManagerReads {
  import opened CacheTypes
  import opened Manager
  import opened ManagerCoherence
  import opened ManagerSettling

  ghost predicate ServedFits(via: Via, o: Outcome, want: Option<Value>) {
    via.ViaFlight? || (o.Got? && Fits(o.item, want))
  }

  /** Whatever the call has got from a tier is the wanted value. */
  ghost predicate CallFits(c: Call, want: Option<Value>) {
    match c.phase
    case FoundL1(found) => Fits(found.item, want)
    case HitL1(item, _) => Fits(item, want)
    case HitL2(item, _) => Fits(item, want)
    case FillingL1(item, _) => Fits(item, want)
    case Returning(via, o) => ServedFits(via, o, want)
    case Returned(via, o) => ServedFits(via, o, want)
    case _ => true
  }

  /** So it is for every call of `k` from the `n0`-th on. */
  ghost predicate LaterFit(calls: seq<Call>, k: Key, want: Option<Value>, n0: nat) {
    forall i :: n0 <= i < |calls| && calls[i].key == k ==> CallFits(calls[i], want)
  }

  lemma GetStepFits(s: State, cfg: Config, step: Step, a: Aim, n0: nat)
    requires Settling(s, cfg, a) && Finished(s, a.w0) && LaterFit(s.calls, a.k, a.want, n0)
    requires Enabled(s, step) && (OnL1(step) || OnL2(step))
    ensures LaterFit(Next(s, cfg, step).calls, a.k, a.want, n0)
  {
    var i, t := step.i, Next(s, cfg, step);
    assert t.calls == s.calls[i := t.calls[i]] && t.calls[i].key == s.calls[i].key;
    if n0 <= i && s.calls[i].key == a.k {
      assert CallFits(s.calls[i], a.want);
      assert CallFits(t.calls[i], a.want);
    }
  }

  lemma GroupStepFits(s: State, cfg: Config, step: Step, a: Aim, n0: nat)
    requires LaterFit(s.calls, a.k, a.want, n0) && Enabled(s, step) && (step.EnterGroup? || step.LeaveGroup?)
    ensures LaterFit(Next(s, cfg, step).calls, a.k, a.want, n0)
  {}

  lemma StepFits(s: State, cfg: Config, step: Step, a: Aim, n0: nat)
    requires Settling(s, cfg, a) && Finished(s, a.w0) && LaterFit(s.calls, a.k, a.want, n0)
    requires Enabled(s, step)
    ensures LaterFit(Next(s, cfg, step).calls, a.k, a.want, n0) && Finished(Next(s, cfg, step), a.w0)
  {
    if OnL1(step) || OnL2(step) {
      GetStepFits(s, cfg, step, a, n0);
    } else if step.EnterGroup? || step.LeaveGroup? {
      GroupStepFits(s, cfg, step, a, n0);
    } else if !step.StartGet? {
      assert Next(s, cfg, step).calls == s.calls;
    }
  }

  lemma MoveFits(s: State, cfg: Config, step: Step, t: State, a: Aim, n0: nat)
    requires Settling(s, cfg, a) && Finished(s, a.w0) && LaterFit(s.calls, a.k, a.want, n0) && Moves(s, cfg, step, t)
    ensures LaterFit(t.calls, a.k, a.want, n0) && Finished(t, a.w0)
  {
    StepFits(s, cfg, step, a, n0);
  }

  // ----------------------------------------------------------------- whole runs

  /** The step is the beginning of a `Set` (of a wanted value) or an `Invalidate` of `k`. */
  ghost predicate Begins(step: Step, k: Key, want: Option<Value>) {
    match want
    case Some(v) => step == BeginSet(k, v)
    case None => step == BeginInvalidate(k)
  }

  /** After step `m`, and before `n`, no other write or fetch begins (see `Continues`). */
  ghost predicate Undisturbed(states: seq<State>, cfg: Config, steps: seq<Step>, a: Aim, m: nat, n: nat)
    requires IsRun(states, cfg, steps) && m < n < |states|
  {
    forall j :: m < j < n ==> ContinuesAt(states[j], cfg, a, steps[j])
  }

  ghost predicate ContinuesAt(s: State, cfg: Config, a: Aim, step: Step) {
    Enabled(s, step) ==> Continues(s, cfg, a, step)
  }

  /** Step `m` begins the call, which nothing rivals, and nothing else disturbs it before `n`. */
  ghost predicate Followed(states: seq<State>, cfg: Config, steps: seq<Step>, a: Aim, m: nat, n: nat) {
    && IsRun(states, cfg, steps) && m < n < |states|
    && Begins(steps[m], a.k, a.want) && a.w0 == |states[m].writers|
    && Unrivalled(states[m], cfg, a.k, a.want, a.fills) && Undisturbed(states, cfg, steps, a, m, n)
  }

  lemma {:induction false} RunSettles(states: seq<State>, cfg: Config, steps: seq<Step>, a: Aim, m: nat, n: nat)
    requires Followed(states, cfg, steps, a, m, n)
    ensures Settling(states[n], cfg, a)
    decreases n
  {
    assert Moves(states[n - 1], cfg, steps[n - 1], states[n]);
    if n == m + 1 {
      BeginSettles(states[m], cfg, a.k, a.want, a.fills);
    } else {
      RunSettles(states, cfg, steps, a, m, n - 1);
      assert ContinuesAt(states[n - 1], cfg, a, steps[n - 1]);
      StepKeepsSettling(states[n - 1], cfg, steps[n - 1], a);
    }
  }

  lemma {:induction false} RunFits(states: seq<State>, cfg: Config, steps: seq<Step>, a: Aim, m: nat, c: nat, n: nat)
    requires Followed(states, cfg, steps, a, m, n) && m < c <= n && Finished(states[c], a.w0)
    ensures LaterFit(states[n].calls, a.k, a.want, |states[c].calls|) && Finished(states[n], a.w0)
    decreases n
  {
    hide Unrivalled, Begins, ContinuesAt, Settling, Moves;
    if c < n {
      hide LaterFit, Finished;
      RunFits(states, cfg, steps, a, m, c, n - 1);
      RunSettles(states, cfg, steps, a, m, n - 1);
      MoveFits(states[n - 1], cfg, steps[n - 1], states[n], a, |states[c].calls|);
    }
  }

  /**
   Read your writes. In every run: if a `Set` or `Invalidate` of `k` begins (at `m`) with
   nothing to rival it and no other value live in L2, and it has completed (by `c`), then
   every `Get` of `k` started since, and served from a tier before another write or fetch
   of `k` begins, returns the value set; after an invalidation there is no such `Get`.
   What L2 held does not matter (`fills` unset) if nothing else is read from it inside the call.
   */
  lemma LaterGetsSeeTheWrite(states: seq<State>, cfg: Config, steps: seq<Step>, a: Aim, m: nat, c: nat, n: nat, i: nat)
    requires Followed(states, cfg, steps, a, m, n) && m < c <= n && Finished(states[c], a.w0)
    requires |states[c].calls| <= i < |states[n].calls| && states[n].calls[i].key == a.k
    requires states[n].calls[i].phase.Returned? && !states[n].calls[i].phase.via.ViaFlight?
    ensures states[n].calls[i].phase.outcome.Got? && a.want == Some(states[n].calls[i].phase.outcome.item.value)
  {
    RunFits(states, cfg, steps, a, m, c, n);
    assert CallFits(states[n].calls[i], a.want);
  }

  // ------------------------------------------------------------- disciplined runs

  /** No write of `k` begins, and no fetch of it. */
  ghost predicate BeginsNothing(s: State, cfg: Config, k: Key, step: Step) {
    match step
    case BeginSet(o, _) => o != k
    case BeginInvalidate(o) => o != k
    case EnterGroup(i) => i < |s.calls| && s.calls[i].key == k ==> Joins(s, cfg, k)
    case _ => true
  }

  lemma StepKeepsWriter(s: State, cfg: Config, step: Step, w: nat)
    requires Enabled(s, step) && w < |s.writers|
    ensures w < |Next(s, cfg, step).writers| && Next(s, cfg, step).writers[w].key == s.writers[w].key
  {
    if !step.BeginSet? && !step.BeginInvalidate? && !step.EndWrite? {
      assert Next(s, cfg, step).writers == s.writers;
    }
  }

  lemma {:induction false} WriterStays(states: seq<State>, cfg: Config, steps: seq<Step>, m: nat, n: nat, w: nat)
    requires IsRun(states, cfg, steps) && m <= n < |states| && w < |states[m].writers|
    ensures w < |states[n].writers| && states[n].writers[w].key == states[m].writers[w].key
    decreases n
  {
    if m < n {
      WriterStays(states, cfg, steps, m, n - 1, w);
      assert Moves(states[n - 1], cfg, steps[n - 1], states[n]);
      hide Next, Enabled;
      StepKeepsWriter(states[n - 1], cfg, steps[n - 1], w);
    }
  }

  /** In a run disciplined for `k` nothing rivals a write, and only a later write or fetch of `k` can disturb it. */
  lemma DisciplineSuffices(states: seq<State>, cfg: Config, steps: seq<Step>, a: Aim, m: nat, n: nat)
    requires DisciplinedRun(states, cfg, steps, a.k) && m < n < |states| && Begins(steps[m], a.k, a.want)
    requires a.w0 == |states[m].writers| && !a.fills
    requires forall j :: m < j < n ==> BeginsNothing(states[j], cfg, a.k, steps[j])
    ensures Followed(states, cfg, steps, a, m, n)
  {
    assert Moves(states[m], cfg, steps[m], states[m + 1]) && DisciplinedAt(states[m], cfg, steps[m], a.k);
    forall j | m < j < n ensures ContinuesAt(states[j], cfg, a, steps[j]) {
      assert Moves(states[j], cfg, steps[j], states[j + 1]) && DisciplinedAt(states[j], cfg, steps[j], a.k);
      assert BeginsNothing(states[j], cfg, a.k, steps[j]);
      WriterStays(states, cfg, steps, m + 1, j, a.w0);
      assert !Finished(states[j], a.w0) ==> Writing(states[j].writers, a.w0, a.k);
    }
  }

  /** In runs disciplined for the key the only condition left is that no other write or fetch of it begins. */
  lemma DisciplinedGetsSeeTheWrite(states: seq<State>, cfg: Config, steps: seq<Step>, k: Key, want: Option<Value>,
                                   m: nat, c: nat, n: nat, i: nat)
    requires DisciplinedRun(states, cfg, steps, k) && m < c <= n < |states| && Begins(steps[m], k, want)
    requires forall j :: m < j < n ==> BeginsNothing(states[j], cfg, k, steps[j])
    requires Finished(states[c], |states[m].writers|)
    requires |states[c].calls| <= i < |states[n].calls| && states[n].calls[i].key == k
    requires states[n].calls[i].phase.Returned? && !states[n].calls[i].phase.via.ViaFlight?
    ensures states[n].calls[i].phase.outcome.Got? && want == Some(states[n].calls[i].phase.outcome.item.value)
  {
    var a := AimOf(states[m], k, want, false);
    DisciplineSuffices(states, cfg, steps, a, m, n);
    LaterGetsSeeTheWrite(states, cfg, steps, a, m, c, n, i);
  }
}
