/**
 Write-through, and reading back: a `Set` or an `Invalidate` left alone, then a delay in
 which only time passes and tiers may lose entries, then a `Get` left alone.
 */
module ManagerWriteRead {
  import opened CacheTypes
  import opened Manager
  import opened ManagerSequential

  /** The two halves of a call, with nothing between them; `ok` is the fate of the L2 half. */
  function AfterSet(s: State, cfg: Config, k: Key, v: Value, ok: bool): State {
    Next(Next(s, cfg, BeginSet(k, v)), cfg, EndWrite(|s.writers|, ok))
  }

  function AfterInvalidate(s: State, cfg: Config, k: Key, ok: bool): State {
    Next(Next(s, cfg, BeginInvalidate(k)), cfg, EndWrite(|s.writers|, ok))
  }

  lemma WriterFinishes(ws: seq<Writer>, k: Key, change: Option<Item>)
    ensures (ws + [Writer(k, change, false)])[|ws| := Writer(k, change, true)] == ws + [Writer(k, change, true)]
  {}

  /**
   A `Set` leaves the value in L1 until `now + ttl1`, and in L2 until `now + ttl2` unless
   its L2 half fails, which leaves L2 alone; no other key, call, flight or counter changes.
   */
  lemma SetAlone(s: State, cfg: Config, k: Key, v: Value, ok: bool)
    ensures var item := Item(v, |s.events|);
            AfterSet(s, cfg, k, v, ok) ==
            s.(l1 := s.l1[k := Stored(item, s.now + cfg.ttl1)],
               l2 := if ok then s.l2[k := Stored(item, s.now + cfg.ttl2)] else s.l2,
               writers := s.writers + [Writer(k, Some(item), true)],
               events := s.events + [Wrote(k, v, s.now)])
  {
    WriterFinishes(s.writers, k, Some(Item(v, |s.events|)));
  }

  /** An `Invalidate` takes the key out of L1, and out of L2 unless its L2 half fails; nothing else changes. */
  lemma InvalidateAlone(s: State, cfg: Config, k: Key, ok: bool)
    ensures AfterInvalidate(s, cfg, k, ok) ==
            s.(l1 := s.l1 - {k},
               l2 := if ok then s.l2 - {k} else s.l2,
               writers := s.writers + [Writer(k, None, true)],
               events := s.events + [Invalidated(k, s.now)])
  {
    WriterFinishes(s.writers, k, None);
  }

  // ------------------------------------------------------------------------ the delay

  /** Only time passes, and entries are lost: any entry of L1, and entries of other keys of L2. */
  predicate Waits(k: Key, step: Step) {
    step.Tick? || step.DropL1? || (step.DropL2? && step.key != k)
  }

  ghost predicate Delay(s: State, cfg: Config, k: Key, steps: seq<Step>, t: State)
    decreases |steps|
  {
    if steps == [] then s == t
    else Waits(k, steps[0]) && Delay(Next(s, cfg, steps[0]), cfg, k, steps[1..], t)
  }

  /** The time that passes. */
  function Passed(steps: seq<Step>): nat {
    if steps == [] then 0 else (match steps[0] case Tick(d) => d case _ => 0) + Passed(steps[1..])
  }

  lemma {:induction false} DelayKeeps(s: State, cfg: Config, k: Key, steps: seq<Step>, t: State)
    requires Delay(s, cfg, k, steps, t)
    ensures t.now == s.now + Passed(steps) && t == s.(now := t.now, l1 := t.l1, l2 := t.l2)
    ensures k in t.l1 ==> k in s.l1 && t.l1[k] == s.l1[k]
    ensures k in s.l1 && DropL1(k) !in steps ==> k in t.l1
    ensures (k in t.l2 <==> k in s.l2) && (k in t.l2 ==> t.l2[k] == s.l2[k])
    decreases |steps|
  {
    if steps != [] {
      assert steps == [steps[0]] + steps[1..];
      DelayKeeps(Next(s, cfg, steps[0]), cfg, k, steps[1..], t);
    }
  }

  // ------------------------------------------------------------------------ read back

  /** The lone `Get` begun in `s` has returned `v` from a tier in `t`, without calling the origin. */
  ghost predicate ReadsBack(s: State, t: State, v: Value) {
    && |s.calls| < |t.calls| && t.calls[|s.calls|].phase.Returned?
    && t.calls[|s.calls|].phase.outcome.Got? && t.calls[|s.calls|].phase.outcome.item.value == v
    && t.flights == s.flights && t.count.originCalls == s.count.originCalls && t.l2 == s.l2
  }

  /**
   What was `Set` is read back after a delay `d`: from L1 while `d` is at most `ttl1` and
   L1 has not lost it, and else from L2 while `d` is at most `ttl2` or entries of L2 do not
   expire. The origin is not called.
   */
  lemma SetThenGet(s: State, cfg: Config, k: Key, v: Value, wait: seq<Step>, u: State,
                   luck: Luck, steps: seq<Step>, t: State)
    requires Delay(AfterSet(s, cfg, k, v, true), cfg, k, wait, u) && GetReturns(u, cfg, k, luck, steps, t)
    ensures var d := Passed(wait);
            && u.now == s.now + d
            && (DropL1(k) !in wait ==> k in u.l1)
            && (d <= cfg.ttl1 && k in u.l1 ==> ReadsBack(u, t, v) && t.calls[|u.calls|].phase.via.ViaL1?)
            && ((d > cfg.ttl1 || k !in u.l1) && luck.read && (cfg.ttl2 <= 0 || d <= cfg.ttl2) ==>
                  && ReadsBack(u, t, v) && t.calls[|u.calls|].phase.via.ViaL2?
                  && t.l1 == u.l1[k := Stored(Item(v, |s.events|), u.now + cfg.ttl1)])
  {
    var d := Passed(wait);
    SetAlone(s, cfg, k, v, true);
    DelayKeeps(AfterSet(s, cfg, k, v, true), cfg, k, wait, u);
    hide GetReturns;
    if d <= cfg.ttl1 && k in u.l1 {
      ServedFromL1(u, cfg, k, luck, steps, t);
    } else if luck.read && (cfg.ttl2 <= 0 || d <= cfg.ttl2) {
      ServedFromL2(u, cfg, k, luck, steps, t);
    }
  }

  /** When both lifetimes are over the origin is asked again. */
  lemma SetThenLateGet(s: State, cfg: Config, k: Key, v: Value, wait: seq<Step>, u: State,
                       luck: Luck, steps: seq<Step>, t: State)
    requires Delay(AfterSet(s, cfg, k, v, true), cfg, k, wait, u) && GetReturns(u, cfg, k, luck, steps, t)
    requires k !in s.group && Passed(wait) > cfg.ttl1 && 0 < cfg.ttl2 < Passed(wait)
    ensures t.calls[|u.calls|].phase.via.ViaFlight? && t.count.originCalls == u.count.originCalls + 1
  {
    SetAlone(s, cfg, k, v, true);
    DelayKeeps(AfterSet(s, cfg, k, v, true), cfg, k, wait, u);
    AsksOrigin(u, cfg, k, luck, steps, t);
  }

  lemma AsksOrigin(s: State, cfg: Config, k: Key, luck: Luck, steps: seq<Step>, t: State)
    requires !LiveL1(s, k) && !LiveL2(s, cfg, k) && k !in s.group && GetReturns(s, cfg, k, luck, steps, t)
    ensures t.calls[|s.calls|].phase.via.ViaFlight? && t.count.originCalls == s.count.originCalls + 1
  {
    if luck.origin {
      ServedFromOrigin(s, cfg, k, luck, steps, t);
    } else {
      FailedByOrigin(s, cfg, k, luck, steps, t);
    }
  }

  /** What was invalidated is not read from a tier: the origin is called. */
  lemma InvalidateThenGet(s: State, cfg: Config, k: Key, wait: seq<Step>, u: State,
                          luck: Luck, steps: seq<Step>, t: State)
    requires Delay(AfterInvalidate(s, cfg, k, true), cfg, k, wait, u) && GetReturns(u, cfg, k, luck, steps, t)
    requires k !in s.group
    ensures t.calls[|u.calls|].phase.via.ViaFlight? && t.count.originCalls == u.count.originCalls + 1
  {
    InvalidateAlone(s, cfg, k, true);
    DelayKeeps(AfterInvalidate(s, cfg, k, true), cfg, k, wait, u);
    AsksOrigin(u, cfg, k, luck, steps, t);
  }
}
