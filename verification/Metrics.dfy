/**
 `Metrics.Snapshot` (internal/metrics/metrics.go): the counters are loaded one
 after another while the cache manager keeps running.
 */
module Metrics {
  import opened CacheTypes
  import opened Manager
  import opened Sums
  import opened ManagerCounts

  datatype Snapshot = Snapshot(
    l1Hits: nat, l1Misses: nat, l1HitRate: real,
    l2Hits: nat, l2Misses: nat, l2HitRate: real,
    originCalls: nat, originErrors: nat, coalesced: nat, total: nat,
    avgLatencyUs: real, overallHitRate: real)

  /** `Get`s that have started and are not yet recorded in the request count. */
  function Running(s: State): nat {
    Sum(s.calls, Unfinished)
  }

  ghost predicate Below(a: Counters, b: Counters) {
    && a.l1Hits <= b.l1Hits && a.l1Misses <= b.l1Misses && a.l2Hits <= b.l2Hits && a.l2Misses <= b.l2Misses
    && a.originCalls <= b.originCalls && a.originErrors <= b.originErrors
    && a.coalesced <= b.coalesced && a.total <= b.total
  }

  lemma GetCountsUp(s: State, cfg: Config, step: Step)
    requires Enabled(s, step) && (OnL1(step) || OnL2(step))
    ensures Below(s.count, Next(s, cfg, step).count)
  {}

  lemma StepCountsUp(s: State, cfg: Config, step: Step)
    requires Enabled(s, step)
    ensures Below(s.count, Next(s, cfg, step).count)
  {
    if OnL1(step) || OnL2(step) { GetCountsUp(s, cfg, step); }
  }

  lemma {:induction false} CountersGrow(states: seq<State>, cfg: Config, steps: seq<Step>, m: nat, n: nat)
    requires IsRun(states, cfg, steps) && m <= n < |states|
    ensures Below(states[m].count, states[n].count)
    decreases n - m
  {
    if m < n {
      CountersGrow(states, cfg, steps, m, n - 1);
      assert Moves(states[n - 1], cfg, steps[n - 1], states[n]);
      StepCountsUp(states[n - 1], cfg, steps[n - 1]);
    }
  }

  /** In every state, each hit counted belongs to a recorded request or to a running `Get`. */
  lemma HitsWithinRequests(s: State)
    requires Counted(s)
    ensures s.count.l1Hits + s.count.l2Hits <= s.count.total + Running(s)
  {
    var hit := (c: Call) => PastHit1(c) + PastHit2(c);
    var any := (c: Call) => Finished(c) + Unfinished(c);
    SumPlus(s.calls, hit, PastHit1, PastHit2);
    SumPlus(s.calls, any, Finished, Unfinished);
    SumAtMost(s.calls, hit, any);
  }

  /** The same when the two hit counters are loaded earlier than the request counter. */
  lemma HitsAcrossLoads(states: seq<State>, cfg: Config, steps: seq<Step>, a: nat, b: nat, c: nat)
    requires IsRun(states, cfg, steps) && a <= c && b <= c && c < |states|
    ensures states[a].count.l1Hits + states[b].count.l2Hits <= states[c].count.total + Running(states[c])
  {
    CountersGrow(states, cfg, steps, a, c);
    CountersGrow(states, cfg, steps, b, c);
    RunKeepsCounts(states, cfg, steps, c);
    HitsWithinRequests(states[c]);
  }

  // ---------------------------------------------------------------- the latencies

  /**
   How `RecordLatency` records one request: its latency, and from which state of the run
   on the latency total contains it. It is added there before the request is counted.
   */
  datatype Recording = Recording(ns: nat, added: nat)

  /** Recordings of the `Get`s, by call, and of the requests counted by the gRPC interceptor. */
  ghost predicate Recorded(states: seq<State>, gets: seq<Recording>, others: seq<Recording>) {
    && (forall n, i :: 0 <= n < |states| && 0 <= i < |states[n].calls| && states[n].calls[i].phase.Returned? ==>
          i < |gets| && gets[i].added <= n)
    && (forall n, j :: 0 <= n < |states| && 0 <= j < states[n].intercepted ==> j < |others| && others[j].added <= n)
  }

  function Chosen(recs: seq<Recording>, pick: nat -> bool, m: nat): nat
    requires m <= |recs|
  {
    if m == 0 then 0 else Chosen(recs, pick, m - 1) + if pick(m - 1) then recs[m - 1].ns else 0
  }

  /** The recordings made by state `n`. */
  function Added(recs: seq<Recording>, n: nat): nat -> bool {
    (i: nat) => i < |recs| && recs[i].added <= n
  }

  /** `TotalLatencyNs` in state `n`. */
  function TotalNs(gets: seq<Recording>, others: seq<Recording>, n: nat): nat {
    Chosen(gets, Added(gets, n), |gets|) + Chosen(others, Added(others, n), |others|)
  }

  /** The `Get`s, and the other requests, that `TotalRequests` counts in `s`. */
  function GetCounted(s: State): nat -> bool {
    (i: nat) => i < |s.calls| && s.calls[i].phase.Returned?
  }

  function OtherCounted(s: State): nat -> bool {
    (j: nat) => j < s.intercepted
  }

  /** The latencies of the requests counted. */
  function CountedNs(s: State, gets: seq<Recording>, others: seq<Recording>): nat {
    Chosen(gets, GetCounted(s), |gets|) + Chosen(others, OtherCounted(s), |others|)
  }

  lemma {:induction false} ChosenMonotone(recs: seq<Recording>, p: nat -> bool, q: nat -> bool, m: nat)
    requires m <= |recs| && forall i :: 0 <= i < m && p(i) ==> q(i)
    ensures Chosen(recs, p, m) <= Chosen(recs, q, m)
    ensures (forall i :: 0 <= i < m && q(i) ==> p(i)) ==> Chosen(recs, p, m) == Chosen(recs, q, m)
  {
    if m > 0 { ChosenMonotone(recs, p, q, m - 1); }
  }

  /** What is in the latency total at `b` was counted already at `a`: no request is being recorded around the loads. */
  ghost predicate Still(states: seq<State>, gets: seq<Recording>, others: seq<Recording>, a: nat, b: nat)
    requires a < |states|
  {
    && (forall i :: 0 <= i < |gets| && gets[i].added <= b ==> GetCounted(states[a])(i))
    && (forall j :: 0 <= j < |others| && others[j].added <= b ==> OtherCounted(states[a])(j))
  }

  /**
   A latency total loaded at `b`, after the request counter at `a`, contains the latency
   of every request counted, and nothing else if nothing is being recorded meanwhile.
   */
  lemma LatenciesAcrossLoads(states: seq<State>, gets: seq<Recording>, others: seq<Recording>, a: nat, b: nat)
    requires Recorded(states, gets, others) && a <= b && a < |states|
    ensures CountedNs(states[a], gets, others) <= TotalNs(gets, others, b)
    ensures Still(states, gets, others, a, b) ==> CountedNs(states[a], gets, others) == TotalNs(gets, others, b)
  {
    ChosenMonotone(gets, GetCounted(states[a]), Added(gets, b), |gets|);
    ChosenMonotone(others, OtherCounted(states[a]), Added(others, b), |others|);
  }

  /** The average in microseconds, 0 when there is nothing to divide by. */
  function Average(ns: nat, all: nat): (r: real)
    ensures all > 0 ==> r * 1000.0 * (all as real) == ns as real
    ensures all == 0 ==> r == 0.0
  {
    if all > 0 then (ns as real) / (all as real) / 1000.0 else 0.0
  }

  /** The share of `hits` in `all`, 0 when there is nothing to divide by. */
  function Rate(hits: nat, all: nat): (r: real)
    ensures all > 0 ==> r * (all as real) == hits as real
    ensures 0.0 <= r
    ensures all > 0 ==> (hits <= all <==> r <= 1.0)
    ensures all == 0 ==> r == 0.0
  {
    if all > 0 then
      RateBound(hits as real, all as real);
      (hits as real) / (all as real)
    else 0.0
  }

  lemma RateBound(h: real, a: real)
    requires 0.0 <= h && 0.0 < a
    ensures 0.0 <= h / a
    ensures h <= a <==> h / a <= 1.0
  {}

  /**
   `at[j]` is where in the run the j-th load happens. Although the loads see
   different moments, the hits reported never exceed the requests reported by more
   than the `Get`s running when the requests are loaded; with none running, the
   overall hit rate is at most 1. The average latency is over at least the latencies of
   the requests reported, and over exactly those if nothing is being recorded meanwhile.
   */
  method TakeSnapshot(states: seq<State>, cfg: Config, steps: seq<Step>, gets: seq<Recording>, others: seq<Recording>,
                      at: seq<nat>) returns (r: Snapshot)
    requires IsRun(states, cfg, steps) && Recorded(states, gets, others)
    requires |at| == 9 && forall j :: 0 <= j < 9 ==> at[j] < |states|
    requires forall i, j :: 0 <= i <= j < 9 ==> at[i] <= at[j]
    ensures r.l1Hits == states[at[0]].count.l1Hits && r.l1Misses == states[at[1]].count.l1Misses
    ensures r.l2Hits == states[at[2]].count.l2Hits && r.l2Misses == states[at[3]].count.l2Misses
    ensures r.originCalls == states[at[4]].count.originCalls && r.originErrors == states[at[5]].count.originErrors
    ensures r.coalesced == states[at[6]].count.coalesced && r.total == states[at[7]].count.total
    ensures r.l1Hits + r.l2Hits <= r.total + Running(states[at[7]])
    ensures 0.0 <= r.l1HitRate <= 1.0 && r.l1HitRate == Rate(r.l1Hits, r.l1Hits + r.l1Misses)
    ensures 0.0 <= r.l2HitRate <= 1.0 && r.l2HitRate == Rate(r.l2Hits, r.l2Hits + r.l2Misses)
    ensures r.overallHitRate == Rate(r.l1Hits + r.l2Hits, r.total)
    ensures r.avgLatencyUs == Average(TotalNs(gets, others, at[8]), r.total)
    ensures CountedNs(states[at[7]], gets, others) <= TotalNs(gets, others, at[8])
    ensures Still(states, gets, others, at[7], at[8]) ==>
              CountedNs(states[at[7]], gets, others) == TotalNs(gets, others, at[8])
    ensures Running(states[at[7]]) == 0 ==> r.overallHitRate <= 1.0
  {
    LatenciesAcrossLoads(states, gets, others, at[7], at[8]);
    HitsAcrossLoads(states, cfg, steps, at[0], at[2], at[7]);
    hide IsRun, Recorded, CountedNs, TotalNs, Still, Running;
    r := Snapshot(
      states[at[0]].count.l1Hits, states[at[1]].count.l1Misses, 0.0,
      states[at[2]].count.l2Hits, states[at[3]].count.l2Misses, 0.0,
      states[at[4]].count.originCalls, states[at[5]].count.originErrors,
      states[at[6]].count.coalesced, states[at[7]].count.total, 0.0, 0.0);
    var l1Total := r.l1Hits + r.l1Misses;
    if l1Total > 0 {
      r := r.(l1HitRate := Rate(r.l1Hits, l1Total));
    }
    var l2Total := r.l2Hits + r.l2Misses;
    if l2Total > 0 {
      r := r.(l2HitRate := Rate(r.l2Hits, l2Total));
    }
    if r.total > 0 {
      r := r.(avgLatencyUs := Average(TotalNs(gets, others, at[8]), r.total),
              overallHitRate := Rate(r.l1Hits + r.l2Hits, r.total));
    }
  }
}
