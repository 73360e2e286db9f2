/** What the actions of a run write, in plain values: from one state of any run to the next, with every
    interleaving, crash and recovery before it (backend/app/services/sync_worker.py,
    transaction_refresh_service.py). */
module Effects {
  import opened Wrappers
  import opened Reconcile
  import opened Provider
  import opened PageLoop
  import opened Lines
  import opened Lanes
  import opened LaneInvariant
  import opened Fleet
  import opened FleetInvariant
  import opened Reach
  import opened Spelled

  /** In action `n` this worker takes this step on connection `c`. */
  ghost predicate WorkAt(trace: seq<Fleet>, acts: seq<Action>, n: nat, c: ConnId, token: Token, step: LaneAction)
    requires |trace| == |acts| + 1
  {
    n < |acts| && acts[n] == Work(c, token, step) && c in trace[n].lanes && c in trace[n + 1].lanes
  }

  /** The worker still has its job in state `n`. */
  predicate HasJob(lane: Lane, token: Token) {
    token in lane.claims && RunsUnder(lane.line, lane.claims[token].job, token)
  }

  lemma StepTaken(pv: Provider, lease: nat, trace: seq<Fleet>, acts: seq<Action>, n: nat, c: ConnId, token: Token, step: LaneAction)
    requires Sound(pv) && IsRun(pv, lease, trace, acts) && WorkAt(trace, acts, n, c, token, step)
    ensures Enabled(pv, c, trace[n].lanes[c], token, step, Clock(trace[n], lease))
    ensures trace[n + 1].lanes[c] == Step(pv, c, trace[n].lanes[c], token, step, Clock(trace[n], lease)).lane
    ensures LaneInv(pv, c, trace[n].lanes[c], n, lease)
  {
    LaneMoves(pv, lease, trace, acts, n, c);
    LaneReached(pv, lease, trace, acts, n, c);
  }

  // ---- Failures -------------------------------------------------------------------------------------

  /** A failure of a worker that has its job puts the job back if and only if it is transient and one of
      the first four attempts, for 30, 120, 480 or 1800 seconds. Otherwise the job fails, and the target
      under way with it; a worker without its job writes nothing. */
  lemma FailureWrites(pv: Provider, lease: nat, trace: seq<Fleet>, acts: seq<Action>, n: nat, c: ConnId, token: Token)
    requires Sound(pv) && IsRun(pv, lease, trace, acts) && WorkAt(trace, acts, n, c, token, RecordFailure)
    ensures Known(trace[n].lanes[c], token) && trace[n].lanes[c].pcs[token].AtFailure?
    ensures var lane, after := trace[n].lanes[c], trace[n + 1].lanes[c].line;
            var j, pc := lane.claims[token].job, lane.pcs[token];
            if HasJob(lane, token) then
              && FailureSays(lane.line, after, j, pc.failure, pc.cls, trace[n].now)
              && 1 <= lane.line.jobs[j].attempts
              && (after.jobs[j].state == JobQueued <==> pc.cls == Transient && lane.line.jobs[j].attempts <= 4)
            else after == lane.line
  {
    StepTaken(pv, lease, trace, acts, n, c, token, RecordFailure);
    var lane := trace[n].lanes[c];
    if HasJob(lane, token) {
      HoldsIsHolder(lane, token);
      FailureIsSpelled(lane.line, lane.claims[token].job, token, lane.pcs[token].failure, lane.pcs[token].cls, trace[n].now);
    }
  }

  // ---- Commits ----------------------------------------------------------------------------------------

  /** A commit goes through if and only if the worker has its job and its lease, and the connection is
      active and where the attempt began. Then cursor, generation, job and covered target move together,
      and the target ends by the refresh outcome and by whether anything changed. */
  lemma CommitWrites(pv: Provider, lease: nat, trace: seq<Fleet>, acts: seq<Action>, n: nat, c: ConnId, token: Token, counts: Summary)
    requires Sound(pv) && IsRun(pv, lease, trace, acts) && WorkAt(trace, acts, n, c, token, Commit(counts))
    ensures Known(trace[n].lanes[c], token) && trace[n].lanes[c].pcs[token].AtCommit?
    ensures var lane, after := trace[n].lanes[c], trace[n + 1].lanes[c].line;
            var claim, pc := lane.claims[token], lane.pcs[token];
            if MayCommit(lane.line, claim.job, token, pc.attempt, trace[n].now)
            then CommitSays(lane.line, after, claim.job, pc.ending, claim.generation, counts, trace[n].now)
            else after == lane.line
  {
    StepTaken(pv, lease, trace, acts, n, c, token, Commit(counts));
    var lane := trace[n].lanes[c];
    var claim, pc := lane.claims[token], lane.pcs[token];
    CommitIsSpelled(lane.line, claim.job, token, pc.attempt, pc.ending, claim.generation, counts, trace[n].now);
  }

  /** The ends of a target that a sync completes, each exactly. */
  predicate EndsExactlyAs(outcome: Outcome, counts: Summary, state: TargetState) {
    var changed := counts.added + counts.modified + counts.removed > 0;
    && (state == Updated <==> outcome == Accepted && changed)
    && (state == NoChanges <==> outcome == Accepted && !changed)
    && (state == InCooldown <==> outcome == Cooldown)
    && (state == AutomaticOnly <==> outcome == Unsupported)
    && (state == OutcomeUnknown <==> outcome == Unknown)
    && (state == TargetFailed <==> outcome == RefreshFailed)
    && (state == Updated || state == NoChanges || state == InCooldown || state == AutomaticOnly || state == OutcomeUnknown || state == TargetFailed)
  }

  /** Over any run: the target that a commit ends is a syncing one that the claim covers, and ends as
      updated, with no changes, in cooldown, with automatic updates only, unknown or failed, each if and
      only if its outcome and the counts say so. */
  lemma CommitEnds(pv: Provider, lease: nat, trace: seq<Fleet>, acts: seq<Action>, n: nat, c: ConnId, token: Token,
                   counts: Summary, run: RunId)
    requires Sound(pv) && IsRun(pv, lease, trace, acts) && WorkAt(trace, acts, n, c, token, Commit(counts))
    requires run in trace[n].lanes[c].line.targets
    ensures Known(trace[n].lanes[c], token) && trace[n].lanes[c].pcs[token].AtCommit? && run in trace[n + 1].lanes[c].line.targets
    ensures var lane, before, after := trace[n].lanes[c], trace[n].lanes[c].line.targets[run], trace[n + 1].lanes[c].line.targets[run];
            var claim := lane.claims[token];
            if MayCommit(lane.line, claim.job, token, lane.pcs[token].attempt, trace[n].now) && CoveredSyncing(before, claim.generation)
            then after == before.(counts := counts, state := after.state) && EndsExactlyAs(before.outcome, counts, after.state)
            else after == before
  {
    CommitWrites(pv, lease, trace, acts, n, c, token, counts);
    StepTaken(pv, lease, trace, acts, n, c, token, Commit(counts));
    assert Coherent(trace[n].lanes[c].line.targets[run]);
  }

  // ---- Requests, claims, ends without a sync --------------------------------------------------------------

  lemma RequestWrites(pv: Provider, lease: nat, trace: seq<Fleet>, acts: seq<Action>, n: nat, c: ConnId, token: Token)
    requires Sound(pv) && IsRun(pv, lease, trace, acts) && WorkAt(trace, acts, n, c, token, Enqueue)
    ensures RequestSays(trace[n].lanes[c].line, trace[n + 1].lanes[c].line, trace[n].now)
  {
    StepTaken(pv, lease, trace, acts, n, c, token, Enqueue);
    RequestIsSpelled(trace[n].lanes[c].line, trace[n].now);
  }

  /** A claim takes a queued job that is due, for one lease length, and remembers its generation. */
  lemma ClaimWrites(pv: Provider, lease: nat, trace: seq<Fleet>, acts: seq<Action>, n: nat, c: ConnId, token: Token, j: nat)
    requires Sound(pv) && IsRun(pv, lease, trace, acts) && WorkAt(trace, acts, n, c, token, Claim(j))
    ensures var line, after := trace[n].lanes[c].line, trace[n + 1].lanes[c];
            && j < |line.jobs| && line.jobs[j].state == JobQueued && line.jobs[j].runAfter <= trace[n].now
            && ClaimSays(line, after.line, j, token, trace[n].now, lease)
            && HasJob(after, token) && after.claims[token].job == j && after.claims[token].generation == line.jobs[j].targetGeneration
  {
    StepTaken(pv, lease, trace, acts, n, c, token, Claim(j));
    ClaimIsSpelled(trace[n].lanes[c].line, j, token, trace[n].now, lease);
  }

  lemma FinishWrites(pv: Provider, lease: nat, trace: seq<Fleet>, acts: seq<Action>, n: nat, c: ConnId, token: Token)
    requires Sound(pv) && IsRun(pv, lease, trace, acts) && WorkAt(trace, acts, n, c, token, Finish)
    ensures var lane, after := trace[n].lanes[c], trace[n + 1].lanes[c].line;
            if HasJob(lane, token) then FinishSays(lane.line, after, lane.claims[token].job) else after == lane.line
  {
    StepTaken(pv, lease, trace, acts, n, c, token, Finish);
    if HasJob(trace[n].lanes[c], token) {
      FinishIsSpelled(trace[n].lanes[c].line, trace[n].lanes[c].claims[token].job, token);
    }
  }

  lemma HeartbeatWrites(pv: Provider, lease: nat, trace: seq<Fleet>, acts: seq<Action>, n: nat, c: ConnId, token: Token)
    requires Sound(pv) && IsRun(pv, lease, trace, acts) && WorkAt(trace, acts, n, c, token, Heartbeat)
    ensures Known(trace[n].lanes[c], token)
    ensures var lane := trace[n].lanes[c];
            HeartbeatSays(lane.line, trace[n + 1].lanes[c].line, lane.claims[token].job, token, trace[n].now, lease)
  {
    StepTaken(pv, lease, trace, acts, n, c, token, Heartbeat);
    HeartbeatIsSpelled(trace[n].lanes[c].line, trace[n].lanes[c].claims[token].job, token, trace[n].now, lease);
  }

  // ---- Between the transactions -----------------------------------------------------------------------------

  /** Where a worker goes from reading its connection. */
  predicate SyncLeads(lane: Lane, token: Token, decrypts: bool, next: Pc) {
    if !HasJob(lane, token) then next == Gone
    else if !lane.line.active then next == AtFailure("CONNECTION_NOT_ACTIVE", Permanent)
    else if !decrypts then next == AtFailure("CONNECTION_TOKEN_MISSING", Permanent)
    else
      var cursor := if lane.line.cursor == None then "" else lane.line.cursor.value;
      next == AtPages(Loop(cursor, cursor, [], 0), None)
  }

  /** Where a worker goes from a page call: on, to the commit, or to a failure with its class; a mutation
      sends it back to where its attempt began, and it makes no more than two hundred calls. */
  predicate PageLeads(loop: Loop, reply: Reply, next: Pc) {
    if loop.guard >= 200 then next == AtFailure("TRANSACTIONS_SYNC_LIMIT", Transient)
    else
      match reply
      case Mutation => next.AtPages? && next.loop == Loop(loop.attempt, loop.attempt, [], loop.guard + 1)
      case NoAnswer => next == AtFailure("PROVIDER_TIMEOUT", Transient)
      case Refused(code, cls) => next == AtFailure(code, cls)
      case Page(page) =>
        if page.hasMore then next.AtPages? && next.loop == Loop(loop.attempt, page.next, loop.pages + [page], loop.guard + 1)
        else next.AtCommit? && next.attempt == loop.attempt && next.pages == loop.pages + [page] && next.ending == page.next
  }

  /** The steps that are no transaction write nothing, and lead on as spelled out: an unexpected error
      counts as transient, and a worker that crashed is gone. */
  lemma StepsLead(pv: Provider, lease: nat, trace: seq<Fleet>, acts: seq<Action>, n: nat, c: ConnId, token: Token, step: LaneAction)
    requires Sound(pv) && IsRun(pv, lease, trace, acts) && WorkAt(trace, acts, n, c, token, step)
    requires step.BeginSync? || step.CallPage? || step.Exception? || step.Crash? || step.Refresh?
    ensures Known(trace[n].lanes[c], token) && Known(trace[n + 1].lanes[c], token)
    ensures var lane, after := trace[n].lanes[c], trace[n + 1].lanes[c];
            var pc, next := lane.pcs[token], after.pcs[token];
            && after.line == lane.line && after.pcs == lane.pcs[token := next]
            && (step.BeginSync? ==> SyncLeads(lane, token, step.decrypts, next))
            && (step.CallPage? ==> pc.AtPages? && PageLeads(pc.loop, step.page, next))
            && (step.Exception? ==> next == if pc == Gone then Gone else AtFailure("WORKER_ERROR", Transient))
            && (step.Crash? ==> next == Gone)
  {
    StepTaken(pv, lease, trace, acts, n, c, token, step);
    match step
    case BeginSync(decrypts) => SyncIsSpelled(trace[n].lanes[c], token, decrypts);
    case CallPage(reply) => PageIsSpelled(trace[n].lanes[c], token, reply, trace[n].tick);
    case _ =>
  }

  lemma SyncIsSpelled(lane: Lane, token: Token, decrypts: bool)
    requires Known(lane, token) && lane.pcs[token].AtSync?
    ensures var after := SyncStep(lane, token, decrypts);
            token in after.pcs && after == lane.(pcs := lane.pcs[token := after.pcs[token]]) && SyncLeads(lane, token, decrypts, after.pcs[token])
  {
  }

  lemma PageIsSpelled(lane: Lane, token: Token, reply: Reply, tick: nat)
    requires Known(lane, token) && lane.pcs[token].AtPages?
    ensures var after := PageStep(lane, token, reply, tick);
            token in after.pcs && after == lane.(pcs := lane.pcs[token := after.pcs[token]]) && PageLeads(lane.pcs[token].loop, reply, after.pcs[token])
  {
  }

  // ---- The refresh ---------------------------------------------------------------------------------------------

  /** Before its sync, a worker reserves the queued target that its job covers, if it still has the job and
      there is one, and the run of the target is running; otherwise it goes on to the sync. */
  lemma ReserveWrites(pv: Provider, lease: nat, trace: seq<Fleet>, acts: seq<Action>, n: nat, c: ConnId, token: Token)
    returns (reserved: Option<RunId>)
    requires Sound(pv) && IsRun(pv, lease, trace, acts) && WorkAt(trace, acts, n, c, token, Reserve)
    ensures Known(trace[n].lanes[c], token) && Known(trace[n + 1].lanes[c], token)
    ensures var lane, after := trace[n].lanes[c], trace[n + 1].lanes[c];
            && ReserveSays(lane.line, after.line, lane.claims[token].job, token, reserved)
            && after.pcs[token] == (if reserved.Some? then AtPrepare(reserved.value) else AtSync)
    ensures reserved.None? ==> trace[n + 1].runs == trace[n].runs
    ensures reserved.Some? ==>
              reserved.value in trace[n].runs && trace[n + 1].runs == trace[n].runs[reserved.value := trace[n].runs[reserved.value].(state := RunRunning)]
  {
    StepTaken(pv, lease, trace, acts, n, c, token, Reserve);
    StepAt(pv, lease, trace, acts, n);
    var lane := trace[n].lanes[c];
    ReserveIsSpelled(lane.line, lane.claims[token].job, token);
    var change := ReserveTarget(lane.line, lane.claims[token].job, token);
    reserved := if change.note.Started? then Some(change.note.run) else None;
    Reached(pv, lease, trace, acts, n);
    assert FiledAt(trace[n].lanes, trace[n].runs, c);
  }

  /** The holder that prepares its target goes by the first check that applies: gone, unsupported, less
      than 900 seconds after the last call, unreadable token; only then is the provider called. */
  lemma PrepareWrites(pv: Provider, lease: nat, trace: seq<Fleet>, acts: seq<Action>, n: nat, c: ConnId, token: Token, decrypts: bool)
    requires Sound(pv) && IsRun(pv, lease, trace, acts) && WorkAt(trace, acts, n, c, token, Prepare(decrypts))
    requires HasJob(trace[n].lanes[c], token)
    ensures Known(trace[n].lanes[c], token) && trace[n].lanes[c].pcs[token].AtPrepare?
    ensures var lane, after := trace[n].lanes[c], trace[n + 1].lanes[c];
            var line, run := lane.line, lane.pcs[token].run;
            && run in line.targets && PrepareSays(line, after.line, run, decrypts, trace[n].now) && Known(after, token)
            && (after.pcs[token] == AtRefreshCall(run) <==>
                  line.active && line.refreshSupported && decrypts && (line.lastRefreshAt == None || line.lastRefreshAt.value + 900 <= trace[n].now))
            && (after.pcs[token] == AtFinish <==> !line.active || (after.line.targets[run].state == ReconnectRequired))
  {
    StepTaken(pv, lease, trace, acts, n, c, token, Prepare(decrypts));
    PrepareLeads(trace[n].lanes[c], token, decrypts, trace[n].now);
  }

  lemma PrepareLeads(lane: Lane, token: Token, decrypts: bool, now: int)
    requires WorkOk(lane) && RefreshOk(lane) && Known(lane, token) && HasJob(lane, token) && lane.pcs[token].AtPrepare?
    ensures var line, run, after := lane.line, lane.pcs[token].run, PrepareStep(lane, token, decrypts, now).lane;
            && run in line.targets && PrepareSays(line, after.line, run, decrypts, now) && Known(after, token)
            && (after.pcs[token] == AtRefreshCall(run) <==>
                  line.active && line.refreshSupported && decrypts && (line.lastRefreshAt == None || line.lastRefreshAt.value + 900 <= now))
            && (after.pcs[token] == AtFinish <==> !line.active || (after.line.targets[run].state == ReconnectRequired))
  {
    HoldsIsHolder(lane, token);
    PrepareIsSpelled(lane.line, lane.pcs[token].run, lane.claims[token].job, token, decrypts, now);
  }

  ghost predicate AtRecordIn(f: Fleet, c: ConnId, token: Token, pc: Pc) {
    c in f.lanes && Known(f.lanes[c], token) && f.lanes[c].pcs[token] == pc && pc.AtRecord?
  }

  lemma StepAnswers(pv: Provider, c: ConnId, lane: Lane, actor: Token, a: LaneAction, m: Moment, token: Token)
    requires Enabled(pv, c, lane, actor, a, m)
    requires var after := Step(pv, c, lane, actor, a, m).lane; Known(after, token) && after.pcs[token].AtRecord?
    requires !(Known(lane, token) && lane.pcs[token] == Step(pv, c, lane, actor, a, m).lane.pcs[token])
    ensures actor == token && a.Refresh? && Known(lane, token) && lane.pcs[token].AtRefreshCall?
    ensures Step(pv, c, lane, actor, a, m).lane.pcs[token] == RefreshStep(lane, token, a.reply, m.tick).pcs[token]
  {
  }

  lemma LaneAnswers(pv: Provider, lease: nat, f: Fleet, a: Action, c: ConnId, token: Token, pc: Pc)
    requires CanDo(pv, lease, f, a) && c in f.lanes && !AtRecordIn(f, c, token, pc)
    requires var after := LaneAfter(pv, lease, f, a, c); Known(after, token) && after.pcs[token] == pc && pc.AtRecord?
    ensures a.Work? && a.conn == c && a.token == token && a.step.Refresh?
    ensures Known(f.lanes[c], token) && f.lanes[c].pcs[token].AtRefreshCall?
    ensures pc == RefreshStep(f.lanes[c], token, a.step.reply, f.tick).pcs[token]
  {
    if a.Work? && a.conn == c {
      StepAnswers(pv, c, f.lanes[c], a.token, a.step, Clock(f, lease), token);
    }
  }

  /** A worker about to record carries what the provider answered to its own call. */
  lemma {:induction false} CarriesTheAnswer(pv: Provider, lease: nat, trace: seq<Fleet>, acts: seq<Action>, n: nat, c: ConnId, token: Token, pc: Pc)
    returns (i: nat, reply: RefreshReply)
    requires IsRun(pv, lease, trace, acts) && n <= |acts| && AtRecordIn(trace[n], c, token, pc)
    ensures i < n && acts[i] == Work(c, token, Refresh(reply)) && c in trace[i].lanes
    ensures Known(trace[i].lanes[c], token) && trace[i].lanes[c].pcs[token] == AtRefreshCall(pc.run)
    ensures pc == RefreshStep(trace[i].lanes[c], token, reply, trace[i].tick).pcs[token]
    decreases n
  {
    i, reply := n - 1, RefreshAccepted;
    StepAt(pv, lease, trace, acts, n - 1);
    if c !in trace[n - 1].lanes {
      NewcomerIsLinked(pv, lease, trace[n - 1], acts[n - 1], c);
      assert false;
    } else if AtRecordIn(trace[n - 1], c, token, pc) {
      i, reply := CarriesTheAnswer(pv, lease, trace, acts, n - 1, c, token, pc);
    } else {
      LaneMoves(pv, lease, trace, acts, n - 1, c);
      LaneAnswers(pv, lease, trace[n - 1], acts[n - 1], c, token, pc);
      reply := acts[n - 1].step.reply;
    }
  }

  /** What the holder records of its call is what the provider answered to it, and a sync follows unless
      the refusal asks its owner to act. */
  lemma RecordWrites(pv: Provider, lease: nat, trace: seq<Fleet>, acts: seq<Action>, n: nat, c: ConnId, token: Token)
    returns (i: nat, reply: RefreshReply)
    requires Sound(pv) && IsRun(pv, lease, trace, acts) && WorkAt(trace, acts, n, c, token, Record)
    requires HasJob(trace[n].lanes[c], token)
    ensures i < n && acts[i] == Work(c, token, Refresh(reply))
    ensures Known(trace[n].lanes[c], token) && trace[n].lanes[c].pcs[token].AtRecord?
    ensures var lane, after := trace[n].lanes[c], trace[n + 1].lanes[c];
            var run := lane.pcs[token].run;
            && run in lane.line.targets && AnswerSays(lane.line, after.line, run, reply) && Known(after, token)
            && after.pcs[token] == (if reply.RefreshRefused? && reply.cls == OwnerAction then AtFinish else AtSync)
  {
    StepTaken(pv, lease, trace, acts, n, c, token, Record);
    var lane := trace[n].lanes[c];
    HoldsIsHolder(lane, token);
    i, reply := CarriesTheAnswer(pv, lease, trace, acts, n, c, token, lane.pcs[token]);
    AnswerIsSpelled(trace[i].lanes[c], token, reply, trace[i].tick, lane.line, lane.claims[token].job);
  }

  // ---- Actions on all connections ----------------------------------------------------------------------------------

  lemma RecoveryWrites(pv: Provider, lease: nat, trace: seq<Fleet>, acts: seq<Action>, n: nat, c: ConnId)
    requires Sound(pv) && IsRun(pv, lease, trace, acts) && n < |acts| && acts[n] == RecoverAll && c in trace[n].lanes
    ensures c in trace[n + 1].lanes && RecoverySays(trace[n].lanes[c].line, trace[n + 1].lanes[c].line, trace[n].now)
  {
    LaneMoves(pv, lease, trace, acts, n, c);
    LaneReached(pv, lease, trace, acts, n, c);
    RecoveryIsSpelled(trace[n].lanes[c].line, trace[n].now);
  }

  /** A disconnect clears the cards and the cursor of its connection, and the cached rows on these cards; a
      new connection starts with its cards, no cursor, refreshes allowed and a first job due now. */
  lemma ConnectionsComeAndGo(pv: Provider, lease: nat, trace: seq<Fleet>, acts: seq<Action>, n: nat, c: ConnId)
    requires Sound(pv) && IsRun(pv, lease, trace, acts) && n < |acts|
    ensures acts[n] == DisconnectConn(c) ==>
              && c in trace[n].lanes && c in trace[n + 1].lanes && trace[n].lanes[c].line.active
              && var line, rows, left := trace[n].lanes[c].line, trace[n].rows, trace[n + 1].rows;
                 && trace[n + 1].lanes[c].line == line.(active := false, cards := {}, cursor := None)
                 && (forall t :: t in left <==> t in rows && rows[t].account !in line.cards)
                 && (forall t :: t in left ==> t in rows && left[t] == rows[t])
    ensures acts[n].Link? && acts[n].conn == c ==>
              && c !in trace[n].lanes && c in trace[n + 1].lanes && trace[n + 1].rows == trace[n].rows
              && trace[n + 1].lanes[c].line ==
                 Line(acts[n].owner, true, acts[n].cards, None, 1, 0, None, true, [Job(JobQueued, 0, 1, trace[n].now, None, 0)], map[])
  {
    StepAt(pv, lease, trace, acts, n);
  }

  /** The run that a request creates: queued, kept for seven days, with a target on every active connection
      of its owner. */
  lemma CreationWrites(pv: Provider, lease: nat, trace: seq<Fleet>, acts: seq<Action>, n: nat, key: RequestKey)
    requires Sound(pv) && IsRun(pv, lease, trace, acts) && n < |acts| && acts[n] == Create(key) && Answer(trace[n], key).Created?
    ensures var f, g, run := trace[n], trace[n + 1], Answer(trace[n], key).run;
            && run !in f.runs && g.runs == f.runs[run := Run(key.owner, RunQueued, f.now + 604800)]
            && g.requests == f.requests[key := Mapping(run, f.now + 604800)]
            && g.lanes.Keys == f.lanes.Keys
            && forall c :: c in f.lanes && c in g.lanes ==>
                 if f.lanes[c].line.owner == key.owner && f.lanes[c].line.active
                 then TargetSays(f.lanes[c].line, g.lanes[c].line, run, f.now) else g.lanes[c].line == f.lanes[c].line
  {
    StepAt(pv, lease, trace, acts, n);
    Reached(pv, lease, trace, acts, n);
    var f := trace[n];
    assert trace[n + 1].lanes == OpenRun(f, key).lanes;
    forall c | c in f.lanes && f.lanes[c].line.active
      ensures TargetSays(f.lanes[c].line, AddTarget(f.lanes[c].line, f.nextRun, f.now), f.nextRun, f.now)
    {
      TargetIsSpelled(f.lanes[c].line, f.nextRun, f.now);
    }
  }

  /** A request that creates no run writes at most its own mapping: to the run under way it joins, for seven
      days. */
  lemma OtherAnswersWrite(pv: Provider, lease: nat, trace: seq<Fleet>, acts: seq<Action>, n: nat, key: RequestKey)
    requires Sound(pv) && IsRun(pv, lease, trace, acts) && n < |acts| && acts[n] == Create(key) && !Answer(trace[n], key).Created?
    ensures var f, g, answer := trace[n], trace[n + 1], Answer(trace[n], key);
            && g.lanes == f.lanes && g.runs == f.runs && g.rows == f.rows
            && (answer.Coalesced? ==> g.requests == f.requests[key := Mapping(answer.run, f.now + 604800)])
            && (!answer.Coalesced? ==> g.requests == f.requests)
  {
    StepAt(pv, lease, trace, acts, n);
  }

  /** A cleanup takes only runs that are over and expired, the earliest expired first, and all of them
      unless there are more than a hundred; with a run go its mappings and targets, and nothing else does. */
  lemma CleanupWrites(pv: Provider, lease: nat, trace: seq<Fleet>, acts: seq<Action>, n: nat, gone: set<RunId>)
    requires Sound(pv) && IsRun(pv, lease, trace, acts) && n < |acts| && acts[n] == Cleanup(gone)
    ensures var f, g := trace[n], trace[n + 1];
            && |gone| <= 100 && gone <= f.runs.Keys && g.runs == f.runs - gone
            && (forall run :: run in gone ==> Over(f.runs[run], f.now))
            && (forall run :: run in f.runs && Over(f.runs[run], f.now) && run !in gone ==>
                  |gone| == 100 && forall other :: other in gone ==> f.runs[other].expires <= f.runs[run].expires)
            && (forall k :: k in g.requests <==> k in f.requests && f.requests[k].run !in gone)
            && (forall k :: k in g.requests ==> k in f.requests && g.requests[k] == f.requests[k])
            && g.lanes.Keys == f.lanes.Keys
            && forall c :: c in f.lanes && c in g.lanes ==>
                 g.lanes[c].line == f.lanes[c].line.(targets := f.lanes[c].line.targets - gone)
  {
    StepAt(pv, lease, trace, acts, n);
    var f := trace[n];
    forall run | run in f.runs
      ensures Over(f.runs[run], f.now) <==> Removable(f.runs, f.now, run)
    {
    }
  }

  predicate Over(run: Run, now: int) {
    run.expires <= now && (run.state == RunSucceeded || run.state == RunPartial || run.state == RunFailed)
  }
}
