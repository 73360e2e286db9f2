/** Refresh calls over whole runs: at most one for a target, at least the cooldown apart on one
    connection, and none once the provider said it does not support them. */
module RefreshSafety {
  import opened Wrappers
  import opened Reconcile
  import opened Provider
  import opened PageLoop
  import opened Lines
  import opened Lanes
  import opened LaneInvariant
  import opened Fleet
  import opened FleetInvariant
  import opened Reach

  /** In action `n` the target of `run` on connection `c` enters `dispatching`; the provider is
      called after this state is stored. */
  ghost predicate DispatchAt(trace: seq<Fleet>, acts: seq<Action>, n: nat, c: ConnId, run: RunId)
    requires |trace| == |acts| + 1
  {
    && n < |acts| && c in trace[n].lanes && c in trace[n + 1].lanes
    && Entering(trace[n].lanes[c].line.targets, trace[n + 1].lanes[c].line.targets, run)
  }

  ghost predicate Entering(before: map<RunId, Target>, after: map<RunId, Target>, run: RunId) {
    && run in after && after[run].outcome.Dispatching?
    && !(run in before && before[run].outcome.Dispatching?)
  }

  ghost predicate LogsDispatch(lane: Lane, after: Lane, run: RunId, now: int) {
    && after.hist.dispatches == lane.hist.dispatches + [DispatchRecord(run, now)]
    && lane.line.refreshSupported
  }

  /** What one action does to the dispatches of a connection. */
  ghost predicate DispatchStep(lane: Lane, after: Lane, now: int) {
    && (!lane.line.refreshSupported ==> !after.line.refreshSupported)
    && (after.hist.dispatches == lane.hist.dispatches || exists run :: LogsDispatch(lane, after, run, now))
    && (forall run :: Entering(lane.line.targets, after.line.targets, run) ==> LogsDispatch(lane, after, run, now))
  }

  lemma PrepareDispatches(lane: Lane, token: Token, decrypts: bool, now: int)
    requires Known(lane, token) && lane.pcs[token].AtPrepare?
    ensures DispatchStep(lane, PrepareStep(lane, token, decrypts, now).lane, now)
  {
    var after, run := PrepareStep(lane, token, decrypts, now).lane, lane.pcs[token].run;
    if PrepareKind(lane.line, run, lane.claims[token].job, token, decrypts, now).Dispatch? {
      assert LogsDispatch(lane, after, run, now);
    }
  }

  lemma RecordDispatches(lane: Lane, token: Token, now: int)
    requires Known(lane, token) && lane.pcs[token].AtRecord? && Recordable(lane.pcs[token].outcome)
    ensures DispatchStep(lane, RecordStep(lane, token).lane, now)
  {
  }

  lemma CommitDispatches(lane: Lane, token: Token, counts: Summary, now: int)
    requires Known(lane, token) && lane.pcs[token].AtCommit?
    ensures DispatchStep(lane, CommitStep(lane, token, counts, now).lane, now)
  {
  }

  lemma FailureDispatches(lane: Lane, token: Token, now: int)
    requires Known(lane, token) && lane.pcs[token].AtFailure?
    ensures DispatchStep(lane, FailureStep(lane, token, now).lane, now)
  {
  }

  lemma StepDispatches(pv: Provider, c: ConnId, lane: Lane, token: Token, a: LaneAction, m: Moment)
    requires Enabled(pv, c, lane, token, a, m) && OrderOk(lane, m.tick)
    ensures DispatchStep(lane, Step(pv, c, lane, token, a, m).lane, m.now)
  {
    match a
    case Prepare(decrypts) => PrepareDispatches(lane, token, decrypts, m.now);
    case Record =>
      assert PcOk(lane.pcs[token], lane.claims[token].claimed, m.tick);
      RecordDispatches(lane, token, m.now);
    case Commit(counts) => CommitDispatches(lane, token, counts, m.now);
    case RecordFailure => FailureDispatches(lane, token, m.now);
    case _ =>
  }

  lemma {:induction false} RecoveryEntersNothing(targets: map<RunId, Target>, jobs: seq<Job>, now: int, run: RunId)
    ensures !Entering(targets, RecoverTargets(targets, jobs, now), run)
  {
    if jobs != [] {
      RecoveryEntersNothing(targets, jobs[..|jobs| - 1], now, run);
    }
  }

  lemma RecoverDispatches(lane: Lane, now: int)
    ensures DispatchStep(lane, RecoverStep(lane, now), now)
  {
    var after := RecoverStep(lane, now);
    forall run
      ensures !Entering(lane.line.targets, after.line.targets, run)
    {
      RecoveryEntersNothing(lane.line.targets, lane.line.jobs, now, run);
    }
  }

  lemma LaneDispatches(pv: Provider, lease: nat, f: Fleet, a: Action, c: ConnId)
    requires CanDo(pv, lease, f, a) && c in f.lanes && OrderOk(f.lanes[c], f.tick)
    ensures DispatchStep(f.lanes[c], LaneAfter(pv, lease, f, a, c), f.now)
  {
    match a
    case Work(conn, token, step) =>
      if conn == c {
        StepDispatches(pv, c, f.lanes[c], token, step, Clock(f, lease));
      }
    case RecoverAll => RecoverDispatches(f.lanes[c], f.now);
    case _ =>
  }

  lemma DispatchesMove(pv: Provider, lease: nat, trace: seq<Fleet>, acts: seq<Action>, n: nat, c: ConnId)
    requires Sound(pv) && IsRun(pv, lease, trace, acts) && n < |acts| && c in trace[n].lanes
    ensures c in trace[n + 1].lanes && DispatchStep(trace[n].lanes[c], trace[n + 1].lanes[c], trace[n].now)
  {
    LaneMoves(pv, lease, trace, acts, n, c);
    LaneReached(pv, lease, trace, acts, n, c);
    Reached(pv, lease, trace, acts, n);
    LaneDispatches(pv, lease, trace[n], acts[n], c);
  }

  /** The log of a connection's dispatches only grows, and support once lost stays lost. */
  lemma {:induction false} LogGrows(pv: Provider, lease: nat, trace: seq<Fleet>, acts: seq<Action>, i: nat, j: nat, c: ConnId)
    requires Sound(pv) && IsRun(pv, lease, trace, acts) && i <= j <= |acts| && c in trace[i].lanes
    ensures c in trace[j].lanes
    ensures trace[i].lanes[c].hist.dispatches <= trace[j].lanes[c].hist.dispatches
    ensures !trace[i].lanes[c].line.refreshSupported ==> !trace[j].lanes[c].line.refreshSupported
    decreases j
  {
    if i < j {
      LogGrows(pv, lease, trace, acts, i, j - 1, c);
      DispatchesMove(pv, lease, trace, acts, j - 1, c);
    }
  }

  lemma {:induction false} SpacedApart(d: seq<DispatchRecord>, lastRefreshAt: Option<int>, p: nat, q: nat)
    requires Spaced(d, lastRefreshAt) && p < q < |d|
    ensures d[p].at + COOLDOWN_SECONDS <= d[q].at
    decreases q
  {
    if p + 1 < q {
      SpacedApart(d, lastRefreshAt, p, q - 1);
    }
  }

  lemma LogIsSafe(pv: Provider, lease: nat, trace: seq<Fleet>, acts: seq<Action>, n: nat, c: ConnId, p: nat, q: nat)
    requires Sound(pv) && IsRun(pv, lease, trace, acts) && n <= |acts| && c in trace[n].lanes
    requires p < q < |trace[n].lanes[c].hist.dispatches|
    ensures var d := trace[n].lanes[c].hist.dispatches;
            d[p].run != d[q].run && d[p].at + COOLDOWN_SECONDS <= d[q].at
  {
    LaneReached(pv, lease, trace, acts, n, c);
    SpacedApart(trace[n].lanes[c].hist.dispatches, trace[n].lanes[c].line.lastRefreshAt, p, q);
  }

  /** Over any run, with crashes and recoveries anywhere: two dispatches on one connection are
      for different runs and at least fifteen minutes apart, so a target enters `dispatching` at
      most once; and a dispatch finds refresh support not withdrawn at any time before. */
  lemma DispatchesAreSafe(pv: Provider, lease: nat, trace: seq<Fleet>, acts: seq<Action>, i: nat, k: nat,
                          c: ConnId, first: RunId, second: RunId)
    requires Sound(pv) && IsRun(pv, lease, trace, acts) && i < k
    requires DispatchAt(trace, acts, i, c, first) && DispatchAt(trace, acts, k, c, second)
    ensures first != second
    ensures trace[i].now + 900 <= trace[k].now
  {
    DispatchesMove(pv, lease, trace, acts, i, c);
    DispatchesMove(pv, lease, trace, acts, k, c);
    LogGrows(pv, lease, trace, acts, i + 1, k, c);
    var d := trace[k + 1].lanes[c].hist.dispatches;
    var p, q := |trace[i].lanes[c].hist.dispatches|, |trace[k].lanes[c].hist.dispatches|;
    assert LogsDispatch(trace[i].lanes[c], trace[i + 1].lanes[c], first, trace[i].now);
    assert LogsDispatch(trace[k].lanes[c], trace[k + 1].lanes[c], second, trace[k].now);
    LogIsSafe(pv, lease, trace, acts, k + 1, c, p, q);
  }

  // ---- The calls themselves ---------------------------------------------------------------------

  /** The worker is about to call the provider for this run. */
  predicate Waits(lane: Lane, token: Token, run: RunId) {
    Known(lane, token) && lane.pcs[token] == AtRefreshCall(run)
  }

  ghost predicate WaitsAt(f: Fleet, c: ConnId, token: Token, run: RunId) {
    c in f.lanes && Waits(f.lanes[c], token, run)
  }

  /** In action `n` a worker, stale or not, calls the provider's refresh for the target of `run`. */
  ghost predicate CallAt(trace: seq<Fleet>, acts: seq<Action>, n: nat, c: ConnId, token: Token, run: RunId)
    requires |trace| == |acts| + 1
  {
    n < |acts| && acts[n].Work? && acts[n].conn == c && acts[n].token == token && acts[n].step.Refresh? && WaitsAt(trace[n], c, token, run)
  }

  /** Action `m` is this worker's dispatch of the run, and since then it has been about to call. */
  ghost predicate DispatchedBy(trace: seq<Fleet>, acts: seq<Action>, m: nat, n: nat, c: ConnId, token: Token, run: RunId)
    requires |trace| == |acts| + 1
  {
    && m < n <= |acts| && acts[m].Work? && acts[m].token == token && DispatchAt(trace, acts, m, c, run)
    && forall x :: m < x <= n ==> WaitsAt(trace[x], c, token, run)
  }

  lemma StepEnters(pv: Provider, c: ConnId, lane: Lane, actor: Token, a: LaneAction, m: Moment, token: Token, run: RunId)
    requires Enabled(pv, c, lane, actor, a, m)
    requires !Waits(lane, token, run) && Waits(Step(pv, c, lane, actor, a, m).lane, token, run)
    ensures actor == token && Entering(lane.line.targets, Step(pv, c, lane, actor, a, m).lane.line.targets, run)
  {
  }

  lemma LaneEnters(pv: Provider, lease: nat, f: Fleet, a: Action, c: ConnId, token: Token, run: RunId)
    requires CanDo(pv, lease, f, a) && c in f.lanes
    requires !Waits(f.lanes[c], token, run) && Waits(LaneAfter(pv, lease, f, a, c), token, run)
    ensures a.Work? && a.token == token && Entering(f.lanes[c].line.targets, LaneAfter(pv, lease, f, a, c).line.targets, run)
  {
    if a.Work? && a.conn == c {
      StepEnters(pv, c, f.lanes[c], a.token, a.step, Clock(f, lease), token, run);
    }
  }

  /** Whoever is about to call has dispatched the target itself. */
  lemma {:induction false} CallWasDispatched(pv: Provider, lease: nat, trace: seq<Fleet>, acts: seq<Action>, n: nat,
                                             c: ConnId, token: Token, run: RunId) returns (m: nat)
    requires IsRun(pv, lease, trace, acts) && n <= |acts| && WaitsAt(trace[n], c, token, run)
    ensures DispatchedBy(trace, acts, m, n, c, token, run)
    decreases n
  {
    m := n - 1;
    StepAt(pv, lease, trace, acts, n - 1);
    if c !in trace[n - 1].lanes {
      NewcomerIsLinked(pv, lease, trace[n - 1], acts[n - 1], c);
      assert false;
    } else if Waits(trace[n - 1].lanes[c], token, run) {
      m := CallWasDispatched(pv, lease, trace, acts, n - 1, c, token, run);
    } else {
      LaneMoves(pv, lease, trace, acts, n - 1, c);
      LaneEnters(pv, lease, trace[n - 1], acts[n - 1], c, token, run);
    }
  }

  lemma CallMovesOn(pv: Provider, lease: nat, trace: seq<Fleet>, acts: seq<Action>, n: nat, c: ConnId, token: Token, run: RunId)
    requires IsRun(pv, lease, trace, acts) && CallAt(trace, acts, n, c, token, run)
    ensures !WaitsAt(trace[n + 1], c, token, run)
  {
    LaneMoves(pv, lease, trace, acts, n, c);
  }

  /** Over any run the provider's refresh is called at most once for a target, whatever workers
      crash, stall, lose their lease and go on as if they had it. */
  lemma OneCallPerTarget(pv: Provider, lease: nat, trace: seq<Fleet>, acts: seq<Action>, i: nat, k: nat,
                         c: ConnId, one: Token, other: Token, first: RunId, second: RunId)
    requires Sound(pv) && IsRun(pv, lease, trace, acts) && i < k
    requires CallAt(trace, acts, i, c, one, first) && CallAt(trace, acts, k, c, other, second)
    ensures first != second
  {
    if first == second {
      var m := CallWasDispatched(pv, lease, trace, acts, i, c, one, first);
      var n := CallWasDispatched(pv, lease, trace, acts, k, c, other, first);
      CallMovesOn(pv, lease, trace, acts, i, c, one, first);
      if m < n {
        DispatchesAreSafe(pv, lease, trace, acts, m, n, c, first, first);
      } else if n < m {
        DispatchesAreSafe(pv, lease, trace, acts, n, m, c, first, first);
      }
    }
  }

  // ---- After a refusal ---------------------------------------------------------------------------

  /** The holder stores that the provider does not support refreshes here. */
  predicate Refuses(lane: Lane, token: Token, a: LaneAction) {
    && a.Record? && Known(lane, token) && lane.pcs[token].AtRecord? && lane.pcs[token].outcome.Unsupported?
    && Records(lane.line, lane.pcs[token].run, lane.claims[token].job, token)
  }

  ghost predicate RefusalAt(trace: seq<Fleet>, acts: seq<Action>, n: nat, c: ConnId)
    requires |trace| == |acts| + 1
  {
    n < |acts| && acts[n].Work? && acts[n].conn == c && c in trace[n].lanes && Refuses(trace[n].lanes[c], acts[n].token, acts[n].step)
  }

  lemma StepRefuses(pv: Provider, c: ConnId, lane: Lane, token: Token, a: LaneAction, m: Moment)
    requires Enabled(pv, c, lane, token, a, m)
    ensures Step(pv, c, lane, token, a, m).lane.line.refreshSupported <==> lane.line.refreshSupported && !Refuses(lane, token, a)
  {
  }

  lemma SupportMoves(pv: Provider, lease: nat, trace: seq<Fleet>, acts: seq<Action>, n: nat, c: ConnId)
    requires IsRun(pv, lease, trace, acts) && n < |acts| && c in trace[n].lanes
    ensures c in trace[n + 1].lanes
    ensures trace[n + 1].lanes[c].line.refreshSupported <==>
            trace[n].lanes[c].line.refreshSupported && !RefusalAt(trace, acts, n, c)
  {
    LaneMoves(pv, lease, trace, acts, n, c);
    var a := acts[n];
    if a.Work? && a.conn == c {
      StepRefuses(pv, c, trace[n].lanes[c], a.token, a.step, Clock(trace[n], lease));
    }
  }

  /** A connection counts as unsupported exactly when a holder has stored the provider's refusal before. */
  lemma {:induction false} UnsupportedExactly(pv: Provider, lease: nat, trace: seq<Fleet>, acts: seq<Action>, n: nat, c: ConnId)
    requires IsRun(pv, lease, trace, acts) && n <= |acts| && c in trace[n].lanes
    ensures !trace[n].lanes[c].line.refreshSupported <==> exists i: nat :: i < n && RefusalAt(trace, acts, i, c)
    decreases n
  {
    if n > 0 {
      StepAt(pv, lease, trace, acts, n - 1);
      if c in trace[n - 1].lanes {
        UnsupportedExactly(pv, lease, trace, acts, n - 1, c);
        SupportMoves(pv, lease, trace, acts, n - 1, c);
      } else {
        NewcomerIsLinked(pv, lease, trace[n - 1], acts[n - 1], c);
        if i: nat :| i < n && RefusalAt(trace, acts, i, c) {
          LaneStays(pv, lease, trace, acts, i, n - 1, c);
        }
      }
    }
  }

  /** Once a holder has stored the provider's refusal, no dispatch follows. */
  lemma NoDispatchAfterRefusal(pv: Provider, lease: nat, trace: seq<Fleet>, acts: seq<Action>, i: nat, k: nat, c: ConnId, run: RunId)
    requires Sound(pv) && IsRun(pv, lease, trace, acts) && i < k < |acts| && RefusalAt(trace, acts, i, c)
    ensures !DispatchAt(trace, acts, k, c, run)
  {
    SupportMoves(pv, lease, trace, acts, i, c);
    LogGrows(pv, lease, trace, acts, i + 1, k, c);
    DispatchesMove(pv, lease, trace, acts, k, c);
  }

  // ---- What a target says ---------------------------------------------------------------------------

  /** In every state of every run a target's state tells what happened: "updated" and "no
      changes" only after an accepted call and exactly by whether its sync changed rows,
      "automatic updates only" only if the connection has lost its support, "cooldown" only with
      a next eligible time, which never lies beyond the real end of the cooldown. */
  lemma TargetsTellTheTruth(pv: Provider, lease: nat, trace: seq<Fleet>, acts: seq<Action>, n: nat, c: ConnId, run: RunId)
    requires Sound(pv) && IsRun(pv, lease, trace, acts) && n <= |acts| && c in trace[n].lanes
    requires run in trace[n].lanes[c].line.targets
    ensures var line := trace[n].lanes[c].line;
            var t := line.targets[run];
            var changed := t.counts.added + t.counts.modified + t.counts.removed > 0;
            && (t.state.Updated? ==> t.outcome.Accepted? && changed)
            && (t.state.NoChanges? ==> t.outcome.Accepted? && !changed)
            && (t.state.AutomaticOnly? ==> t.outcome.Unsupported? && !line.refreshSupported)
            && (t.state.InCooldown? ==> t.outcome.Cooldown? && t.nextEligible.Some?)
            && (t.nextEligible.Some? ==>
                  line.lastRefreshAt.Some? && t.nextEligible.value <= line.lastRefreshAt.value + 900)
            && (t.state.OutcomeUnknown? ==> t.outcome.Unknown?)
            && (t.state.TargetQueued? ==> t.outcome.NotAttempted?)
  {
    Reached(pv, lease, trace, acts, n);
    LaneParts(pv, lease, trace[n].lanes, n, c);
    assert Coherent(trace[n].lanes[c].line.targets[run]);
  }
}
