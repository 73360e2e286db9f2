/** A sync that completes a refresh target asked the provider for its first page after the
    target was created and, if the refresh was accepted, after the refresh call came back. */
module Freshness {
  import opened Wrappers
  import opened Reconcile
  import opened Provider
  import opened PageLoop
  import opened Lines
  import opened Lanes
  import opened LaneInvariant
  import opened LaneSteps
  import opened Fleet
  import opened FleetInvariant
  import opened Reach

  // ---- Events of a run -------------------------------------------------------------------------

  /** Action `n` created run `run` with a target on connection `c`. */
  ghost predicate CreatedAt(trace: seq<Fleet>, acts: seq<Action>, n: nat, c: ConnId, run: RunId)
    requires |trace| == |acts| + 1
  {
    n < |acts| && acts[n].Create? && trace[n].nextRun == run && Opens(trace[n], acts[n].key, c)
  }

  ghost predicate ClaimedAt(acts: seq<Action>, n: nat, c: ConnId, token: Token) {
    n < |acts| && acts[n].Work? && acts[n].conn == c && acts[n].token == token && acts[n].step.Claim?
  }

  /** Action `n` is a page request of worker `token` on connection `c`. */
  ghost predicate PagedAt(acts: seq<Action>, n: nat, c: ConnId, token: Token) {
    n < |acts| && acts[n].Work? && acts[n].conn == c && acts[n].token == token && acts[n].step.CallPage?
  }

  /** Action `n` is the refresh call for the target of `run`, and the provider accepted it. */
  ghost predicate AcceptedAt(trace: seq<Fleet>, acts: seq<Action>, n: nat, c: ConnId, run: RunId)
    requires |trace| == |acts| + 1
  {
    && n < |acts| && acts[n].Work? && acts[n].conn == c && acts[n].step == Refresh(RefreshAccepted)
    && c in trace[n].lanes && acts[n].token in trace[n].lanes[c].pcs
    && trace[n].lanes[c].pcs[acts[n].token] == AtRefreshCall(run)
  }

  // ---- What one step does to the stamps -----------------------------------------------------------

  /** Every page request of a worker so far was made at or after the first one it remembers. */
  predicate CalledBy(pc: Pc, n: nat) {
    match pc
    case AtPages(_, first) => first.Some? && first.value <= n
    case AtCommit(_, _, _, asked) => asked <= n
    case AtFailure(_, _) => true
    case Gone => true
    case _ => false
  }

  /** The step a worker takes, as far as stamps are concerned. */
  ghost predicate PcStep(before: Pc, after: Pc, a: LaneAction, tick: nat) {
    && (a.CallPage? ==>
          && (FirstCall(after) == None ==> after.AtFailure?)
          && (FirstCall(after).Some? ==> FirstCall(after).value == if FirstCall(before).Some? then FirstCall(before).value else tick))
    && (!a.CallPage? ==> FirstCall(after) == None || after == before)
    && (forall n: nat :: CalledBy(before, n) ==> CalledBy(after, n))
    && (after.AtRecord? && after.outcome.Accepted? && after != before ==>
          a == Refresh(RefreshAccepted) && before == AtRefreshCall(after.run) && after.returned == tick)
  }

  lemma CommitPc(lane: Lane, token: Token, counts: Summary, now: int)
    requires Known(lane, token) && lane.pcs[token].AtCommit?
    ensures CommitStep(lane, token, counts, now).lane.pcs == lane.pcs[token := Gone]
    ensures CommitStep(lane, token, counts, now).lane.claims == lane.claims
    ensures CommitStep(lane, token, counts, now).lane.hist.created == lane.hist.created
    ensures CommitStep(lane, token, counts, now).lane.hist.returned == lane.hist.returned
  {
  }

  /** The claim made by a step, if the step is one. */
  ghost predicate ClaimsMove(before: map<Token, JobClaim>, after: map<Token, JobClaim>, token: Token, a: LaneAction, tick: nat) {
    if a.Claim? then token !in before && after.Keys == before.Keys + {token} && after - {token} == before && after[token].claimed == tick
    else after == before
  }

  ghost predicate PcsMove(before: map<Token, Pc>, after: map<Token, Pc>, token: Token, a: LaneAction, tick: nat) {
    if a.Claim? then token !in before && after == before[token := Claimed]
    else
      (after == before && !a.CallPage?) ||
      (token in before && token in after && after == before[token := after[token]] && PcStep(before[token], after[token], a, tick))
  }

  lemma WorkerMoves(pv: Provider, c: ConnId, lane: Lane, token: Token, a: LaneAction, m: Moment)
    requires Enabled(pv, c, lane, token, a, m)
    ensures var after := Step(pv, c, lane, token, a, m).lane;
            && after.hist.created == lane.hist.created
            && ClaimsMove(lane.claims, after.claims, token, a, m.tick)
            && PcsMove(lane.pcs, after.pcs, token, a, m.tick)
            && (a.CallPage? && FirstCall(lane.pcs[token]) == None ==> CalledBy(after.pcs[token], m.tick))
  {
    if a.Commit? {
      CommitPc(lane, token, a.counts, m.now);
    } else if a.CallPage? {
      PagePcMoves(lane, token, a.page, m.tick);
    }
  }

  lemma PagePcMoves(lane: Lane, token: Token, reply: Reply, tick: nat)
    requires Known(lane, token) && lane.pcs[token].AtPages?
    ensures var after := PageStep(lane, token, reply, tick);
            && after.line == lane.line && after.claims == lane.claims && after.hist == lane.hist
            && after.pcs == lane.pcs[token := after.pcs[token]]
            && PcStep(lane.pcs[token], after.pcs[token], CallPage(reply), tick)
            && (FirstCall(lane.pcs[token]) == None ==> CalledBy(after.pcs[token], tick))
  {
  }

  // ---- Accepted targets ---------------------------------------------------------------------------

  /** A target is accepted only by recording an accepted call, and stays as it was stamped. */
  ghost predicate AcceptedMove(line: Line, returned: map<RunId, nat>, after: Line, later: map<RunId, nat>, pc: Pc) {
    forall run :: run in after.targets && after.targets[run].outcome.Accepted? ==>
      || (run in line.targets && line.targets[run].outcome.Accepted? &&
          (run in later <==> run in returned) && (run in later ==> later[run] == returned[run]))
      || (pc.AtRecord? && pc.run == run && pc.outcome.Accepted? && run in later && later[run] == pc.returned)
  }

  lemma {:induction false} RecoveryAcceptsNothing(targets: map<RunId, Target>, jobs: seq<Job>, now: int, run: RunId)
    requires run in RecoverTargets(targets, jobs, now) && RecoverTargets(targets, jobs, now)[run].outcome.Accepted?
    ensures run in targets && targets[run].outcome.Accepted?
  {
    if jobs != [] {
      RecoveryAcceptsNothing(targets, jobs[..|jobs| - 1], now, run);
    }
  }

  lemma CommitAccepts(lane: Lane, token: Token, counts: Summary, now: int)
    requires Known(lane, token) && lane.pcs[token].AtCommit?
    ensures var after := CommitStep(lane, token, counts, now).lane;
            AcceptedMove(lane.line, lane.hist.returned, after.line, after.hist.returned, Gone)
  {
  }

  lemma FailureAccepts(lane: Lane, token: Token, now: int)
    requires Known(lane, token) && lane.pcs[token].AtFailure?
    ensures var after := FailureStep(lane, token, now).lane;
            AcceptedMove(lane.line, lane.hist.returned, after.line, after.hist.returned, Gone)
  {
  }

  lemma RecordAccepts(lane: Lane, token: Token)
    requires Known(lane, token) && lane.pcs[token].AtRecord?
    ensures var after := RecordStep(lane, token).lane;
            AcceptedMove(lane.line, lane.hist.returned, after.line, after.hist.returned, lane.pcs[token])
  {
  }

  lemma StepAccepts(pv: Provider, c: ConnId, lane: Lane, token: Token, a: LaneAction, m: Moment)
    requires Enabled(pv, c, lane, token, a, m)
    ensures var after := Step(pv, c, lane, token, a, m).lane;
            AcceptedMove(lane.line, lane.hist.returned, after.line, after.hist.returned,
                         if token in lane.pcs then lane.pcs[token] else Gone)
  {
    match a
    case Commit(counts) => CommitAccepts(lane, token, counts, m.now);
    case RecordFailure => FailureAccepts(lane, token, m.now);
    case Record => RecordAccepts(lane, token);
    case _ =>
  }

  // ---- Stamps name the actions they stand for ------------------------------------------------------

  ghost predicate CreatedOk(trace: seq<Fleet>, acts: seq<Action>, n: nat, c: ConnId, created: map<RunId, nat>)
    requires |trace| == |acts| + 1
  {
    forall run :: run in created ==> created[run] < n && CreatedAt(trace, acts, created[run], c, run)
  }

  ghost predicate ClaimedOk(acts: seq<Action>, n: nat, c: ConnId, claims: map<Token, JobClaim>) {
    forall token :: token in claims ==> claims[token].claimed < n && ClaimedAt(acts, claims[token].claimed, c, token)
  }

  ghost predicate PagedBy(acts: seq<Action>, n: nat, c: ConnId, token: Token, pc: Pc) {
    forall j: nat :: j < n && PagedAt(acts, j, c, token) ==> CalledBy(pc, j)
  }

  ghost predicate WorkerOk(trace: seq<Fleet>, acts: seq<Action>, n: nat, c: ConnId, token: Token, pc: Pc)
    requires |trace| == |acts| + 1
  {
    && (pc.AtRecord? && pc.outcome.Accepted? ==> pc.returned < n && AcceptedAt(trace, acts, pc.returned, c, pc.run))
    && (FirstCall(pc).Some? ==> FirstCall(pc).value < n && PagedAt(acts, FirstCall(pc).value, c, token))
    && PagedBy(acts, n, c, token, pc)
  }

  /** A worker nobody has heard of made no page request. */
  ghost predicate Silent(acts: seq<Action>, n: nat, c: ConnId, token: Token) {
    forall j: nat :: j < n ==> !PagedAt(acts, j, c, token)
  }

  ghost predicate WorkerAt(trace: seq<Fleet>, acts: seq<Action>, n: nat, c: ConnId, pcs: map<Token, Pc>, token: Token)
    requires |trace| == |acts| + 1
  {
    if token in pcs then WorkerOk(trace, acts, n, c, token, pcs[token]) else Silent(acts, n, c, token)
  }

  ghost predicate WorkersOk(trace: seq<Fleet>, acts: seq<Action>, n: nat, c: ConnId, pcs: map<Token, Pc>)
    requires |trace| == |acts| + 1
  {
    forall token :: WorkerAt(trace, acts, n, c, pcs, token)
  }

  ghost predicate ReturnedOk(trace: seq<Fleet>, acts: seq<Action>, n: nat, c: ConnId, targets: map<RunId, Target>, returned: map<RunId, nat>)
    requires |trace| == |acts| + 1
  {
    forall run :: run in targets && targets[run].outcome.Accepted? && run in returned ==>
      returned[run] < n && AcceptedAt(trace, acts, returned[run], c, run)
  }

  ghost predicate StampsOk(trace: seq<Fleet>, acts: seq<Action>, n: nat, c: ConnId, lane: Lane)
    requires |trace| == |acts| + 1
  {
    && CreatedOk(trace, acts, n, c, lane.hist.created) && ClaimedOk(acts, n, c, lane.claims)
    && WorkersOk(trace, acts, n, c, lane.pcs)
    && ReturnedOk(trace, acts, n, c, lane.line.targets, lane.hist.returned)
  }

  /** A step that is no page request on this connection leaves its workers' stamps right. */
  lemma WorkersRest(trace: seq<Fleet>, acts: seq<Action>, n: nat, c: ConnId, pcs: map<Token, Pc>)
    requires |trace| == |acts| + 1 && n < |acts| && WorkersOk(trace, acts, n, c, pcs)
    requires !(acts[n].Work? && acts[n].conn == c)
    ensures WorkersOk(trace, acts, n + 1, c, pcs)
  {
    var next := n + 1;
    forall token
      ensures WorkerAt(trace, acts, next, c, pcs, token)
    {
      assert WorkerAt(trace, acts, n, c, pcs, token);
    }
  }

  lemma WorkersMove(trace: seq<Fleet>, acts: seq<Action>, n: nat, c: ConnId, lane: Lane, after: map<Token, Pc>)
    requires |trace| == |acts| + 1 && n < |acts| && WorkersOk(trace, acts, n, c, lane.pcs)
    requires c in trace[n].lanes && trace[n].lanes[c] == lane && acts[n].Work? && acts[n].conn == c
    requires PcsMove(lane.pcs, after, acts[n].token, acts[n].step, n)
    requires acts[n].step.CallPage? && FirstCall(lane.pcs[acts[n].token]) == None ==> CalledBy(after[acts[n].token], n)
    ensures WorkersOk(trace, acts, n + 1, c, after)
  {
    var next, worker := n + 1, acts[n].token;
    forall token
      ensures WorkerAt(trace, acts, next, c, after, token)
    {
      assert WorkerAt(trace, acts, n, c, lane.pcs, token);
      if token == worker && token in lane.pcs && token in after {
        WorkerMoved(trace, acts, n, c, lane, token, after[token]);
      }
    }
  }

  lemma WorkerMoved(trace: seq<Fleet>, acts: seq<Action>, n: nat, c: ConnId, lane: Lane, token: Token, pc: Pc)
    requires |trace| == |acts| + 1 && n < |acts| && c in trace[n].lanes && trace[n].lanes[c] == lane
    requires acts[n].Work? && acts[n].conn == c && acts[n].token == token && token in lane.pcs
    requires WorkerOk(trace, acts, n, c, token, lane.pcs[token])
    requires (pc == lane.pcs[token] && !acts[n].step.CallPage?) || PcStep(lane.pcs[token], pc, acts[n].step, n)
    requires acts[n].step.CallPage? && FirstCall(lane.pcs[token]) == None ==> CalledBy(pc, n)
    ensures WorkerOk(trace, acts, n + 1, c, token, pc)
  {
  }

  lemma WorkStamps(pv: Provider, lease: nat, trace: seq<Fleet>, acts: seq<Action>, n: nat, c: ConnId)
    requires |trace| == |acts| + 1 && n < |acts| && CanDo(pv, lease, trace[n], acts[n]) && trace[n].tick == n
    requires acts[n].Work? && acts[n].conn == c && StampsOk(trace, acts, n, c, trace[n].lanes[c])
    ensures StampsOk(trace, acts, n + 1, c, LaneAfter(pv, lease, trace[n], acts[n], c))
  {
    var lane, m := trace[n].lanes[c], Clock(trace[n], lease);
    var token, step := acts[n].token, acts[n].step;
    var after := Step(pv, c, lane, token, step, m).lane;
    WorkerMoves(pv, c, lane, token, step, m);
    WorkersMove(trace, acts, n, c, lane, after.pcs);
    StepAccepts(pv, c, lane, token, step, m);
    assert WorkerAt(trace, acts, n, c, lane.pcs, token);
  }

  lemma QuietStamps(pv: Provider, lease: nat, trace: seq<Fleet>, acts: seq<Action>, n: nat, c: ConnId)
    requires |trace| == |acts| + 1 && n < |acts| && CanDo(pv, lease, trace[n], acts[n]) && trace[n].tick == n
    requires !(acts[n].Work? && acts[n].conn == c) && c in trace[n].lanes && StampsOk(trace, acts, n, c, trace[n].lanes[c])
    ensures StampsOk(trace, acts, n + 1, c, LaneAfter(pv, lease, trace[n], acts[n], c))
  {
    var lane := trace[n].lanes[c];
    WorkersRest(trace, acts, n, c, lane.pcs);
    if acts[n].RecoverAll? {
      forall run | run in RecoverStep(lane, trace[n].now).line.targets && RecoverStep(lane, trace[n].now).line.targets[run].outcome.Accepted?
        ensures run in lane.line.targets && lane.line.targets[run].outcome.Accepted?
      {
        RecoveryAcceptsNothing(lane.line.targets, lane.line.jobs, trace[n].now, run);
      }
    }
  }

  lemma NewcomerStamps(pv: Provider, lease: nat, trace: seq<Fleet>, acts: seq<Action>, n: nat, c: ConnId)
    requires IsRun(pv, lease, trace, acts) && n < |acts| && c !in trace[n].lanes && c in trace[n + 1].lanes
    ensures StampsOk(trace, acts, n + 1, c, trace[n + 1].lanes[c])
  {
    StepAt(pv, lease, trace, acts, n);
    NewcomerIsLinked(pv, lease, trace[n], acts[n], c);
    var next, pcs := n + 1, trace[n + 1].lanes[c].pcs;
    forall token
      ensures WorkerAt(trace, acts, next, c, pcs, token)
    {
      forall j: nat | j < next
        ensures !PagedAt(acts, j, c, token)
      {
        if PagedAt(acts, j, c, token) {
          StepAt(pv, lease, trace, acts, j);
          if j < n {
            LaneStays(pv, lease, trace, acts, j, n, c);
          }
        }
      }
    }
  }

  lemma {:induction false} Stamped(pv: Provider, lease: nat, trace: seq<Fleet>, acts: seq<Action>, n: nat, c: ConnId)
    requires Sound(pv) && IsRun(pv, lease, trace, acts) && n <= |acts| && c in trace[n].lanes
    ensures StampsOk(trace, acts, n, c, trace[n].lanes[c])
  {
    if n > 0 {
      var i := n - 1;
      StepAt(pv, lease, trace, acts, i);
      if c in trace[i].lanes {
        Stamped(pv, lease, trace, acts, i, c);
        Reached(pv, lease, trace, acts, i);
        LaneMoves(pv, lease, trace, acts, i, c);
        if acts[i].Work? && acts[i].conn == c {
          WorkStamps(pv, lease, trace, acts, i, c);
        } else {
          QuietStamps(pv, lease, trace, acts, i, c);
        }
      } else {
        NewcomerStamps(pv, lease, trace, acts, i, c);
      }
    }
  }

  // ---- The theorem -------------------------------------------------------------------------------------

  /** Action `n` is a commit of the worker `token` that ends the target of `run`. */
  ghost predicate CompletesAt(trace: seq<Fleet>, acts: seq<Action>, n: nat, c: ConnId, token: Token, run: RunId)
    requires |trace| == |acts| + 1
  {
    && n < |acts| && acts[n].Work? && acts[n].conn == c && acts[n].token == token && acts[n].step.Commit?
    && c in trace[n].lanes && c in trace[n + 1].lanes
    && run in trace[n].lanes[c].line.targets && TargetActive(trace[n].lanes[c].line.targets[run])
    && run in trace[n + 1].lanes[c].line.targets && !TargetActive(trace[n + 1].lanes[c].line.targets[run])
  }

  /** Event `i` came before the first page request of the worker, which came before `n`. */
  ghost predicate BeforePaging(acts: seq<Action>, i: nat, n: nat, c: ConnId, token: Token) {
    && (exists first: nat :: first < n && PagedAt(acts, first, c, token))
    && (forall j: nat :: j < n && PagedAt(acts, j, c, token) ==> i < j)
  }

  lemma CommitEnds(lane: Lane, token: Token, counts: Summary, now: int, run: RunId)
    requires Known(lane, token) && lane.pcs[token].AtCommit?
    requires run in lane.line.targets && TargetActive(lane.line.targets[run])
    requires var targets := CommitStep(lane, token, counts, now).lane.line.targets;
             run in targets && !TargetActive(targets[run])
    ensures Commits(lane, token, now) && lane.line.targets[run].required <= lane.claims[token].generation
  {
  }

  lemma PagingAfter(trace: seq<Fleet>, acts: seq<Action>, n: nat, c: ConnId, lane: Lane, token: Token, i: nat)
    requires |trace| == |acts| + 1 && WorkersOk(trace, acts, n, c, lane.pcs)
    requires token in lane.pcs && lane.pcs[token].AtCommit? && i < lane.pcs[token].asked
    ensures BeforePaging(acts, i, n, c, token)
  {
    assert WorkerAt(trace, acts, n, c, lane.pcs, token);
    assert PagedAt(acts, lane.pcs[token].asked, c, token);
  }

  /** Freshness. Whatever coalescing, lost leases, recoveries and stale workers came before:
      when a commit ends a target, the target was created by an action earlier than every page
      request behind that commit; and if the refresh was accepted, the accepted call itself
      came back earlier than every one of those requests. */
  lemma SyncIsFresh(pv: Provider, lease: nat, trace: seq<Fleet>, acts: seq<Action>, n: nat, c: ConnId, token: Token, run: RunId)
    requires Sound(pv) && IsRun(pv, lease, trace, acts) && CompletesAt(trace, acts, n, c, token, run)
    ensures exists i: nat :: CreatedAt(trace, acts, i, c, run) && BeforePaging(acts, i, n, c, token)
    ensures trace[n].lanes[c].line.targets[run].outcome.Accepted? ==>
              exists i: nat :: AcceptedAt(trace, acts, i, c, run) && BeforePaging(acts, i, n, c, token)
  {
    var lane := trace[n].lanes[c];
    LaneMoves(pv, lease, trace, acts, n, c);
    CommitEnds(lane, token, acts[n].step.counts, trace[n].now, run);
    HeldCommit(pv, lease, trace, acts, n, c, token, run);
    Stamped(pv, lease, trace, acts, n, c);
    PagingAfter(trace, acts, n, c, lane, token, lane.hist.created[run]);
    if lane.line.targets[run].outcome.Accepted? {
      PagingAfter(trace, acts, n, c, lane, token, lane.hist.returned[run]);
    }
  }

  lemma HeldCommit(pv: Provider, lease: nat, trace: seq<Fleet>, acts: seq<Action>, n: nat, c: ConnId, token: Token, run: RunId)
    requires Sound(pv) && IsRun(pv, lease, trace, acts) && n <= |acts| && c in trace[n].lanes
    requires var lane := trace[n].lanes[c];
             && Commits(lane, token, trace[n].now)
             && run in lane.line.targets && lane.line.targets[run].required <= lane.claims[token].generation
    ensures var lane := trace[n].lanes[c];
            && run in lane.hist.created && lane.hist.created[run] < lane.pcs[token].asked
            && (lane.line.targets[run].outcome.Accepted? ==>
                  run in lane.hist.returned && lane.hist.returned[run] < lane.pcs[token].asked)
  {
    LaneReached(pv, lease, trace, acts, n, c);
    HoldsIsHolder(trace[n].lanes[c], token);
    CompletionIsFresh(trace[n].lanes[c], n, token, run);
  }
}
