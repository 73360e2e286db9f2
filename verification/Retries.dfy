/** The retry budget of a job over whole runs: however often it is coalesced, recovered or run
    again, failures put it back at most four times and make it wait 2430 seconds at most. */
module Retries {
  import opened Wrappers
  import opened Reconcile
  import opened Provider
  import opened PageLoop
  import opened Lines
  import opened Lanes
  import opened LaneInvariant
  import opened LaneSteps
  import opened Fleet
  import opened FleetInvariant
  import opened Reach

  /** In action `n` a failure puts job `j` of connection `c` back into the queue. */
  ghost predicate PutBackAt(trace: seq<Fleet>, acts: seq<Action>, n: nat, c: ConnId, j: nat)
    requires |trace| == |acts| + 1
  {
    && n < |acts| && acts[n].Work? && acts[n].conn == c && acts[n].step.RecordFailure?
    && c in trace[n].lanes && PutsBack(trace[n].lanes[c], acts[n].token, j)
  }

  predicate PutsBack(lane: Lane, token: Token, j: nat) {
    && Known(lane, token) && lane.pcs[token].AtFailure? && Holds(lane, token)
    && lane.claims[token].job == j && lane.pcs[token].cls == Transient && lane.line.jobs[j].attempts <= 4
  }

  /** How often failures put the job back in the first `n` actions. */
  ghost function PutBacks(trace: seq<Fleet>, acts: seq<Action>, n: nat, c: ConnId, j: nat): nat
    requires |trace| == |acts| + 1 && n <= |acts|
  {
    if n == 0 then 0
    else PutBacks(trace, acts, n - 1, c, j) + (if PutBackAt(trace, acts, n - 1, c, j) then 1 else 0)
  }

  /** How long the job was told to wait by these failures, from the clock to its new due time. */
  ghost function Waited(trace: seq<Fleet>, acts: seq<Action>, n: nat, c: ConnId, j: nat): int
    requires |trace| == |acts| + 1 && n <= |acts|
  {
    if n == 0 then 0
    else Waited(trace, acts, n - 1, c, j) + (if PutBackAt(trace, acts, n - 1, c, j) then WaitAt(trace, n - 1, c, j) else 0)
  }

  ghost function WaitAt(trace: seq<Fleet>, n: nat, c: ConnId, j: nat): int
    requires n + 1 < |trace|
  {
    if c in trace[n + 1].lanes && j < |trace[n + 1].lanes[c].line.jobs|
    then trace[n + 1].lanes[c].line.jobs[j].runAfter - trace[n].now else 0
  }

  // ---- The attempts after which one job was put back ------------------------------------------------

  function Delays(attempts: seq<nat>): int {
    if attempts == [] then 0 else Delays(attempts[..|attempts| - 1]) + Delay(attempts[|attempts| - 1])
  }

  /** The backoff entries up to a given attempt. */
  function Allowed(attempt: nat): int {
    if attempt == 0 then 0 else Allowed(attempt - 1) + Delay(attempt)
  }

  lemma {:induction false} AllowedGrows(a: nat, b: nat)
    requires a <= b
    ensures Allowed(a) <= Allowed(b)
  {
    if a < b {
      AllowedGrows(a, b - 1);
    }
  }

  ghost predicate Increasing(attempts: seq<nat>) {
    && (forall i :: 0 <= i < |attempts| ==> 1 <= attempts[i] <= 4)
    && (forall i :: 0 < i < |attempts| ==> attempts[i - 1] < attempts[i])
  }

  /** Increasing attempt numbers use each backoff entry at most once. */
  lemma {:induction false} IncreasingDelays(attempts: seq<nat>)
    requires Increasing(attempts)
    ensures attempts != [] ==> |attempts| <= attempts[|attempts| - 1] && Delays(attempts) <= Allowed(attempts[|attempts| - 1])
  {
    if |attempts| > 1 {
      var init := attempts[..|attempts| - 1];
      IncreasingDelays(init);
      AllowedGrows(init[|init| - 1], attempts[|attempts| - 1] - 1);
    } else if |attempts| == 1 {
      AllowedGrows(0, attempts[0] - 1);
    }
  }

  lemma Budget(attempts: seq<nat>)
    requires Increasing(attempts)
    ensures |attempts| <= 4 && Delays(attempts) <= 2430
  {
    IncreasingDelays(attempts);
    if attempts != [] {
      AllowedGrows(attempts[|attempts| - 1], 4);
      assert Allowed(1) == 30 && Allowed(2) == 150 && Allowed(3) == 630 && Allowed(4) == 2430;
    }
  }

  // ---- The log and the run --------------------------------------------------------------------------

  function RetriesAt(retries: seq<seq<nat>>, j: nat): seq<nat> {
    if j < |retries| then retries[j] else []
  }

  /** One action adds to a job's retries just when a failure puts the job back. */
  ghost predicate RetryStep(lane: Lane, after: Lane, j: nat, putBack: bool, now: int) {
    if putBack then
      && j < |lane.line.jobs| && j < |after.line.jobs|
      && RetriesAt(after.hist.retries, j) == RetriesAt(lane.hist.retries, j) + [lane.line.jobs[j].attempts]
      && after.line.jobs[j].runAfter == now + Delay(lane.line.jobs[j].attempts)
    else RetriesAt(after.hist.retries, j) == RetriesAt(lane.hist.retries, j)
  }

  lemma EnqueueRetries(lane: Lane, now: int, j: nat)
    requires lane.line.active && |lane.hist.retries| == |lane.line.jobs|
    ensures RetriesAt(EnqueueStep(lane, now).hist.retries, j) == RetriesAt(lane.hist.retries, j)
  {
  }

  lemma StepRetries(pv: Provider, c: ConnId, lane: Lane, token: Token, a: LaneAction, m: Moment, j: nat)
    requires Enabled(pv, c, lane, token, a, m) && |lane.hist.retries| == |lane.line.jobs|
    ensures RetryStep(lane, Step(pv, c, lane, token, a, m).lane, j, a.RecordFailure? && PutsBack(lane, token, j), m.now)
  {
  }

  lemma LaneRetries(pv: Provider, lease: nat, f: Fleet, a: Action, c: ConnId, j: nat)
    requires CanDo(pv, lease, f, a) && c in f.lanes && |f.lanes[c].hist.retries| == |f.lanes[c].line.jobs|
    ensures RetryStep(f.lanes[c], LaneAfter(pv, lease, f, a, c), j,
                      a.Work? && a.conn == c && a.step.RecordFailure? && PutsBack(f.lanes[c], a.token, j), f.now)
  {
    match a
    case Work(conn, token, step) =>
      if conn == c {
        StepRetries(pv, c, f.lanes[c], token, step, Clock(f, lease), j);
      }
    case Create(key) =>
      if Opens(f, key, c) {
        EnqueueRetries(f.lanes[c], f.now, j);
      }
    case _ =>
  }

  ghost function JobRetries(f: Fleet, c: ConnId, j: nat): seq<nat> {
    if c in f.lanes then RetriesAt(f.lanes[c].hist.retries, j) else []
  }

  lemma RetriesMove(pv: Provider, lease: nat, trace: seq<Fleet>, acts: seq<Action>, n: nat, c: ConnId, j: nat)
    requires Sound(pv) && IsRun(pv, lease, trace, acts) && n < |acts|
    ensures var before, after := JobRetries(trace[n], c, j), JobRetries(trace[n + 1], c, j);
            if PutBackAt(trace, acts, n, c, j)
            then |after| == |before| + 1 && Delays(after) == Delays(before) + WaitAt(trace, n, c, j)
            else after == before
  {
    StepAt(pv, lease, trace, acts, n);
    if c in trace[n].lanes {
      LaneMoves(pv, lease, trace, acts, n, c);
      LaneReached(pv, lease, trace, acts, n, c);
      LaneRetries(pv, lease, trace[n], acts[n], c, j);
      var before, after := JobRetries(trace[n], c, j), JobRetries(trace[n + 1], c, j);
      if PutBackAt(trace, acts, n, c, j) {
        assert after[..|after| - 1] == before;
      }
    } else if c in trace[n + 1].lanes {
      NewcomerIsLinked(pv, lease, trace[n], acts[n], c);
    }
  }

  lemma {:induction false} LogCounts(pv: Provider, lease: nat, trace: seq<Fleet>, acts: seq<Action>, n: nat, c: ConnId, j: nat)
    requires Sound(pv) && IsRun(pv, lease, trace, acts) && n <= |acts|
    ensures PutBacks(trace, acts, n, c, j) == |JobRetries(trace[n], c, j)|
    ensures Waited(trace, acts, n, c, j) == Delays(JobRetries(trace[n], c, j))
    decreases n
  {
    if n > 0 {
      LogCounts(pv, lease, trace, acts, n - 1, c, j);
      RetriesMove(pv, lease, trace, acts, n - 1, c, j);
    }
  }

  lemma RetriesIncrease(pv: Provider, lease: nat, trace: seq<Fleet>, acts: seq<Action>, n: nat, c: ConnId, j: nat)
    requires Sound(pv) && IsRun(pv, lease, trace, acts) && n <= |acts|
    ensures Increasing(JobRetries(trace[n], c, j))
  {
    if c in trace[n].lanes {
      LaneReached(pv, lease, trace, acts, n, c);
      var lane := trace[n].lanes[c];
      if j < |lane.hist.retries| {
        assert RetriesOf(lane.hist.retries[j], lane.line.jobs[j]);
      }
    }
  }

  /** Over any run, failures put one job back at most four times, and the waits they impose,
      from the clock to the job's new due time, sum to at most 2430 seconds. */
  lemma RetryBudget(pv: Provider, lease: nat, trace: seq<Fleet>, acts: seq<Action>, c: ConnId, j: nat)
    requires Sound(pv) && IsRun(pv, lease, trace, acts)
    ensures PutBacks(trace, acts, |acts|, c, j) <= 4
    ensures Waited(trace, acts, |acts|, c, j) <= 2430
  {
    LogCounts(pv, lease, trace, acts, |acts|, c, j);
    RetriesIncrease(pv, lease, trace, acts, |acts|, c, j);
    Budget(JobRetries(trace[|acts|], c, j));
  }
}
