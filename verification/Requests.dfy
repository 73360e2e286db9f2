/** Which requests can be lost: a sync that was asked for is done, under way or queued, except
    after the two steps that end a job without covering what was asked. */
module Requests {
  import opened Wrappers
  import opened Reconcile
  import opened Provider
  import opened PageLoop
  import opened Lines
  import opened Lanes
  import opened LaneInvariant
  import opened LaneSteps
  import opened LaneEffects
  import opened Fleet
  import opened FleetInvariant
  import opened Reach
  import opened Fencing

  /** Something was requested that is neither done nor waiting nor under way. */
  predicate Lost(line: Line) {
    line.completed < line.requested && ActiveJob(line.jobs).None?
  }

  /** The holder ends its job without a sync: the refresh decided against one, or a failure is
      not transient or not among the first four attempts. */
  predicate Drops(lane: Lane, token: Token, step: LaneAction) {
    && Known(lane, token) && Holds(lane, token)
    && match lane.pcs[token]
       case AtFinish => step.Finish?
       case AtFailure(_, cls) => step.RecordFailure? && !(cls == Transient && lane.line.jobs[lane.claims[token].job].attempts <= 4)
       case _ => false
  }

  ghost predicate DropAt(trace: seq<Fleet>, acts: seq<Action>, n: nat, c: ConnId)
    requires |trace| == |acts| + 1
  {
    n < |acts| && acts[n].Work? && acts[n].conn == c && c in trace[n].lanes && Drops(trace[n].lanes[c], acts[n].token, acts[n].step)
  }

  // ---- One active job -----------------------------------------------------------------------------

  lemma LostIsIdle(line: Line)
    requires JobsOk(line.jobs, line.requested)
    ensures Lost(line) <==> line.completed < line.requested && !Busy(line.jobs)
  {
  }

  /** Never two active jobs on one connection; the active one aims at exactly what was last
      requested; and there is one whenever something requested is neither completed nor dropped. */
  lemma AtMostOneActiveJob(pv: Provider, lease: nat, trace: seq<Fleet>, acts: seq<Action>, n: nat, c: ConnId, i: nat, j: nat)
    requires Sound(pv) && IsRun(pv, lease, trace, acts) && n <= |acts| && c in trace[n].lanes
    requires i < |trace[n].lanes[c].line.jobs| && j < |trace[n].lanes[c].line.jobs|
    requires JobActive(trace[n].lanes[c].line.jobs[i]) && JobActive(trace[n].lanes[c].line.jobs[j])
    ensures i == j
    ensures trace[n].lanes[c].line.jobs[i].targetGeneration == trace[n].lanes[c].line.requested
    ensures trace[n].lanes[c].line.completed < trace[n].lanes[c].line.requested
  {
    Reached(pv, lease, trace, acts, n);
    LaneParts(pv, lease, trace[n].lanes, n, c);
  }

  // ---- When a request is lost ------------------------------------------------------------------------

  lemma ReleaseLoses(line: Line, after: Line, job: Job)
    requires JobsOk(line.jobs, line.requested) && Running(line.jobs)
    requires after.requested == line.requested
    requires after.jobs == line.jobs[|line.jobs| - 1 := job]
    ensures Lost(after) <==> after.completed < after.requested && !JobActive(job)
  {
  }

  lemma FinishLoses(lane: Lane, token: Token)
    requires WorkOk(lane) && Known(lane, token) && lane.pcs[token].AtFinish?
    ensures Lost(FinishStep(lane, token).line) <==> Lost(lane.line) || Holds(lane, token)
    ensures Holds(lane, token) ==> !Lost(lane.line)
  {
  }

  lemma FailureLoses(lane: Lane, token: Token, now: int)
    requires WorkOk(lane) && Known(lane, token) && lane.pcs[token].AtFailure?
    ensures Lost(FailureStep(lane, token, now).lane.line) <==> Lost(lane.line) || Drops(lane, token, RecordFailure)
    ensures FailureStep(lane, token, now).lane.line.requested == lane.line.requested
  {
    HoldsIsHolder(lane, token);
    LostIsIdle(lane.line);
    if Holds(lane, token) {
      var after := FailureStep(lane, token, now).lane.line;
      ReleaseLoses(lane.line, after, after.jobs[|after.jobs| - 1]);
    }
  }

  /** A commit loses nothing: it completes everything requested, or puts the job back. */
  lemma CommitLosesNothing(lane: Lane, token: Token, counts: Summary, now: int)
    requires WorkOk(lane) && Commits(lane, token, now)
    ensures var line := CommitStep(lane, token, counts, now).lane.line;
            && line.requested == lane.line.requested && !Lost(line) && !Lost(lane.line)
            && line.completed == lane.claims[token].generation
            && (if line.completed == line.requested then ActiveJob(line.jobs).None?
                else ActiveJob(line.jobs) == Some(|line.jobs| - 1) && line.jobs[|line.jobs| - 1].state.JobQueued?)
  {
  }

  lemma StillLost(line: Line, after: Line)
    requires after.requested == line.requested && after.completed == line.completed
    requires |after.jobs| == |line.jobs|
    requires forall i :: 0 <= i < |line.jobs| ==> JobActive(after.jobs[i]) == JobActive(line.jobs[i])
    ensures Lost(after) <==> Lost(line)
  {
  }

  lemma EnqueueFinds(lane: Lane, now: int)
    requires WorkOk(lane) && lane.line.active
    ensures !Lost(EnqueueStep(lane, now).line) && EnqueueStep(lane, now).line.requested == lane.line.requested + 1
  {
    EnqueueShape(lane, now);
    OnlyLastActive(EnqueueStep(lane, now).line.jobs);
  }

  /** What a worker step does to lost requests. */
  lemma StepLoses(pv: Provider, c: ConnId, lane: Lane, token: Token, a: LaneAction, m: Moment)
    requires WorkOk(lane) && RefreshOk(lane) && Enabled(pv, c, lane, token, a, m)
    ensures var after := Step(pv, c, lane, token, a, m).lane;
            Lost(after.line) <==> Drops(lane, token, a) || (Lost(lane.line) && after.line.requested == lane.line.requested)
  {
    match a
    case Enqueue => EnqueueFinds(lane, m.now);
    case Finish => FinishLoses(lane, token);
    case RecordFailure => FailureLoses(lane, token, m.now);
    case Commit(counts) =>
      if Commits(lane, token, m.now) {
        CommitLosesNothing(lane, token, counts, m.now);
      }
    case _ => QuietLoses(pv, c, lane, token, a, m);
  }

  lemma QuietLoses(pv: Provider, c: ConnId, lane: Lane, token: Token, a: LaneAction, m: Moment)
    requires Enabled(pv, c, lane, token, a, m)
    requires !a.Enqueue? && !a.Finish? && !a.RecordFailure? && !a.Commit?
    ensures var after := Step(pv, c, lane, token, a, m).lane;
            (Lost(after.line) <==> Lost(lane.line)) && after.line.requested == lane.line.requested
  {
    StillLost(lane.line, Step(pv, c, lane, token, a, m).lane.line);
  }

  lemma RecoverLoses(lane: Lane, now: int)
    requires WorkOk(lane)
    ensures Lost(RecoverStep(lane, now).line) <==> Lost(lane.line)
  {
  }

  /** Which actions make a request lost, exactly: the two drops, and nothing else. A lost
      request stays lost just until the next request. */
  lemma LosesExactly(pv: Provider, lease: nat, f: Fleet, a: Action, c: ConnId)
    requires CanDo(pv, lease, f, a) && c in f.lanes && WorkOk(f.lanes[c]) && RefreshOk(f.lanes[c])
    ensures var lane, after := f.lanes[c], LaneAfter(pv, lease, f, a, c);
            Lost(after.line) <==>
            || (a.Work? && a.conn == c && Drops(lane, a.token, a.step))
            || (Lost(lane.line) && after.line.requested == lane.line.requested)
  {
    match a
    case Work(conn, token, step) =>
      if conn == c {
        StepLoses(pv, c, f.lanes[c], token, step, Clock(f, lease));
      }
    case RecoverAll => RecoverLoses(f.lanes[c], f.now);
    case Create(key) =>
      if Opens(f, key, c) {
        EnqueueFinds(f.lanes[c], f.now);
      }
    case _ =>
  }

  /** Action `k` dropped what was requested, and nothing was requested from then until state `n`. */
  ghost predicate DroppedSince(trace: seq<Fleet>, acts: seq<Action>, k: nat, n: nat, c: ConnId)
    requires |trace| == |acts| + 1
  {
    k < n <= |acts| && DropAt(trace, acts, k, c) && c in trace[n].lanes
    && trace[k].lanes[c].line.requested == trace[n].lanes[c].line.requested
  }

  /** No lost request: in every state of every run, something requested is neither completed nor
      aimed at by an active job if and only if the run dropped it by one of the two known steps, and
      nothing was requested since. */
  lemma NoRequestLostSilently(pv: Provider, lease: nat, trace: seq<Fleet>, acts: seq<Action>, n: nat, c: ConnId)
    requires Sound(pv) && IsRun(pv, lease, trace, acts) && n <= |acts| && c in trace[n].lanes
    ensures Lost(trace[n].lanes[c].line) <==> exists k :: DroppedSince(trace, acts, k, n, c)
  {
    if Lost(trace[n].lanes[c].line) {
      LostWasDropped(pv, lease, trace, acts, n, c);
    }
    if k :| DroppedSince(trace, acts, k, n, c) {
      DroppedIsLost(pv, lease, trace, acts, k, n, c);
    }
  }

  lemma {:induction false} DroppedIsLost(pv: Provider, lease: nat, trace: seq<Fleet>, acts: seq<Action>, k: nat, n: nat, c: ConnId)
    requires Sound(pv) && IsRun(pv, lease, trace, acts) && DroppedSince(trace, acts, k, n, c)
    ensures Lost(trace[n].lanes[c].line)
    decreases n
  {
    var i := n - 1;
    LaneStays(pv, lease, trace, acts, k, i, c);
    if k < i {
      GenerationsNeverFall(pv, lease, trace, acts, k, i, c);
      GenerationsNeverFall(pv, lease, trace, acts, i, n, c);
      DroppedIsLost(pv, lease, trace, acts, k, i, c);
    }
    LossGoesOn(pv, lease, trace, acts, i, c);
  }

  lemma LossGoesOn(pv: Provider, lease: nat, trace: seq<Fleet>, acts: seq<Action>, i: nat, c: ConnId)
    requires Sound(pv) && IsRun(pv, lease, trace, acts) && i < |acts| && c in trace[i].lanes && c in trace[i + 1].lanes
    requires DropAt(trace, acts, i, c) ||
             (Lost(trace[i].lanes[c].line) && trace[i + 1].lanes[c].line.requested == trace[i].lanes[c].line.requested)
    ensures Lost(trace[i + 1].lanes[c].line)
  {
    Reached(pv, lease, trace, acts, i);
    LaneParts(pv, lease, trace[i].lanes, i, c);
    LaneMoves(pv, lease, trace, acts, i, c);
    LosesExactly(pv, lease, trace[i], acts[i], c);
  }

  lemma {:induction false} LostWasDropped(pv: Provider, lease: nat, trace: seq<Fleet>, acts: seq<Action>, n: nat, c: ConnId)
    requires Sound(pv) && IsRun(pv, lease, trace, acts) && n <= |acts| && c in trace[n].lanes
    requires Lost(trace[n].lanes[c].line)
    ensures exists k :: DroppedSince(trace, acts, k, n, c)
    decreases n
  {
    var i := n - 1;
    if n == 0 {
      assert false;
    } else {
      StepAt(pv, lease, trace, acts, i);
      if c in trace[i].lanes {
        if Lost(trace[i].lanes[c].line) {
          LostWasDropped(pv, lease, trace, acts, i, c);
        }
        LossIsRecent(pv, lease, trace, acts, i, n, c);
      } else {
        NewcomerIsLinked(pv, lease, trace[i], acts[i], c);
        assert false;
      }
    }
  }

  lemma LossIsRecent(pv: Provider, lease: nat, trace: seq<Fleet>, acts: seq<Action>, i: nat, n: nat, c: ConnId)
    requires Sound(pv) && IsRun(pv, lease, trace, acts) && i + 1 == n <= |acts| && c in trace[i].lanes && c in trace[n].lanes
    requires Lost(trace[i].lanes[c].line) ==> exists k :: DroppedSince(trace, acts, k, i, c)
    requires Lost(trace[n].lanes[c].line)
    ensures exists k :: DroppedSince(trace, acts, k, n, c)
  {
    LaneMoves(pv, lease, trace, acts, i, c);
    Reached(pv, lease, trace, acts, i);
    LaneParts(pv, lease, trace[i].lanes, i, c);
    LosesExactly(pv, lease, trace[i], acts[i], c);
    if DropAt(trace, acts, i, c) {
      DropRequestsNothing(pv, lease, trace[i], acts[i], c);
      assert DroppedSince(trace, acts, i, n, c);
    } else {
      var k :| DroppedSince(trace, acts, k, i, c);
      assert DroppedSince(trace, acts, k, n, c);
    }
  }

  lemma DropRequestsNothing(pv: Provider, lease: nat, f: Fleet, a: Action, c: ConnId)
    requires CanDo(pv, lease, f, a) && c in f.lanes && a.Work? && a.conn == c && Drops(f.lanes[c], a.token, a.step)
    ensures LaneAfter(pv, lease, f, a, c).line.requested == f.lanes[c].line.requested
  {
  }

  /** A sync that ends its job as succeeded has completed everything requested so far. */
  lemma SuccessCompletesAll(pv: Provider, lease: nat, trace: seq<Fleet>, acts: seq<Action>, n: nat, c: ConnId)
    requires Sound(pv) && IsRun(pv, lease, trace, acts) && CommitAt(trace, acts, n, c)
    ensures c in trace[n + 1].lanes
    ensures var line := trace[n + 1].lanes[c].line;
            ActiveJob(line.jobs).None? <==> line.completed == line.requested
  {
    LaneMoves(pv, lease, trace, acts, n, c);
    Reached(pv, lease, trace, acts, n);
    LaneParts(pv, lease, trace[n].lanes, n, c);
    CommitLosesNothing(trace[n].lanes[c], acts[n].token, acts[n].step.counts, trace[n].now);
  }
}
