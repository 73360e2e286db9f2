/** Every step of a lane keeps the lane's invariant. First what a step leaves alone, subject
    by subject; then the steps, each of which only has to argue for what it changes. */
module LaneSteps {
  import opened Wrappers
  import opened Reconcile
  import opened Provider
  import opened PageLoop
  import opened Lines
  import opened Lanes
  import opened LaneInvariant

  // ---- What a step leaves alone ---------------------------------------------------------------

  lemma TickMove(pv: Provider, c: ConnId, lane: Lane, tick: nat, lease: nat)
    requires LaneInv(pv, c, lane, tick, lease)
    ensures LaneInv(pv, c, lane, tick + 1, lease)
  {
  }

  /** The same jobs, claims and generations. */
  lemma SameWork(lane: Lane, after: Lane)
    requires WorkOk(lane)
    requires after.line.jobs == lane.line.jobs && after.line.requested == lane.line.requested
    requires after.line.completed == lane.line.completed && after.hist.dropped == lane.hist.dropped
    requires after.claims == lane.claims && after.pcs.Keys == lane.pcs.Keys
    ensures WorkOk(after)
  {
  }

  /** The same logs; one worker may have moved. */
  lemma SameLog(pv: Provider, c: ConnId, lane: Lane, after: Lane, lease: nat, token: Token)
    requires LogOk(pv, c, lane, lease)
    requires after.line.jobs == lane.line.jobs && after.line.completed == lane.line.completed
    requires after.line.active == lane.line.active && after.line.cursor == lane.line.cursor
    requires after.hist.commits == lane.hist.commits && after.hist.retries == lane.hist.retries
    requires after.hist.renewed == lane.hist.renewed
    requires token in after.pcs && after.pcs == lane.pcs[token := after.pcs[token]]
    requires PagesOf(pv, c, after.pcs[token])
    ensures LogOk(pv, c, after, lease)
  {
  }

  /** The same targets; jobs and workers may have moved, but whoever holds the job now does
      not wait on a target it did not wait on before. */
  lemma SameTargets(lane: Lane, after: Lane, tick: nat)
    requires RefreshOk(lane) && OrderOk(lane, tick)
    requires after.line.targets == lane.line.targets && lane.line.requested <= after.line.requested
    requires after.line.lastRefreshAt == lane.line.lastRefreshAt && after.line.refreshSupported == lane.line.refreshSupported
    requires after.hist.created == lane.hist.created && after.hist.returned == lane.hist.returned
    requires after.hist.dispatches == lane.hist.dispatches && after.hist.refusedAfter == lane.hist.refusedAfter
    requires after.claims == lane.claims && PcsOk(after.pcs, after.claims, tick)
    requires var now := HolderPc(after.line.jobs, after.pcs);
             now == HolderPc(lane.line.jobs, lane.pcs) ||
             (HolderOk(now, lane.line.targets) && AskedLater(FirstCall(now), lane.line.targets, lane.hist.returned))
    ensures RefreshOk(after) && OrderOk(after, tick)
  {
  }

  /** What a target may become. */
  ghost predicate Evolves(t: Target, after: Target) {
    && after.required == t.required && Coherent(after)
    && (TargetActive(after) ==> TargetActive(t))
    && (Undispatched(after) ==> Undispatched(t))
  }

  /** One target moves, and the holder afterwards is not asking for pages. */
  lemma OneTarget(lane: Lane, after: Lane, tick: nat, run: RunId, t: Target)
    requires RefreshOk(lane) && OrderOk(lane, tick)
    requires run in lane.line.targets && Evolves(lane.line.targets[run], t)
    requires after.line.targets == lane.line.targets[run := t] && after.line.requested == lane.line.requested
    requires after.line.lastRefreshAt == lane.line.lastRefreshAt && after.line.refreshSupported == lane.line.refreshSupported
    requires after.hist.created == lane.hist.created && after.hist.returned == lane.hist.returned
    requires after.hist.dispatches == lane.hist.dispatches && after.hist.refusedAfter == lane.hist.refusedAfter
    requires after.claims == lane.claims && PcsOk(after.pcs, after.claims, tick)
    requires var now := HolderPc(after.line.jobs, after.pcs);
             FirstCall(now) == None && HolderOk(now, after.line.targets)
    requires t.outcome.Accepted? ==> run in lane.hist.returned
    requires t.nextEligible == lane.line.targets[run].nextEligible ||
             (CoolingUntil(lane.line, t.nextEligible))
    requires t.outcome.Unsupported? ==> lane.line.targets[run].outcome.Unsupported? || !lane.line.refreshSupported
    ensures RefreshOk(after) && OrderOk(after, tick)
  {
  }

  predicate CoolingUntil(line: Line, at: Option<int>) {
    at.Some? && line.lastRefreshAt.Some? && at.value <= line.lastRefreshAt.value + COOLDOWN_SECONDS
  }

  // ---- The newest job is let go -----------------------------------------------------------------

  predicate Released(job: Job, after: Job) {
    !after.state.JobRunning? && after.leaseToken == None
    && after.attempts == job.attempts && after.targetGeneration == job.targetGeneration
  }

  lemma ReleaseWork(lane: Lane, after: Lane, job: Job)
    requires WorkOk(lane) && Running(lane.line.jobs)
    requires Released(lane.line.jobs[|lane.line.jobs| - 1], job)
    requires after.line.jobs == lane.line.jobs[|lane.line.jobs| - 1 := job]
    requires after.line.requested == lane.line.requested && after.claims == lane.claims
    requires GenerationsOk(after.line.requested, after.line.completed, after.hist.dropped, job.state.JobQueued?)
    ensures WorkOk(after) && Holder(after.line.jobs) == None && HolderPc(after.line.jobs, after.pcs) == Gone
  {
  }

  lemma ReleaseLog(pv: Provider, c: ConnId, lane: Lane, after: Lane, lease: nat, job: Job)
    requires LogOk(pv, c, lane, lease) && Running(lane.line.jobs)
    requires Released(lane.line.jobs[|lane.line.jobs| - 1], job)
    requires after.line.jobs == lane.line.jobs[|lane.line.jobs| - 1 := job]
    requires CommitsOk(after.hist.commits, after.line.completed)
    requires CursorOk(after.hist.commits, after.line.active, CursorText(after.line))
    requires after.hist.retries == lane.hist.retries || RetriesOk(after.hist.retries, after.line.jobs)
    requires PagesOk(pv, c, after.pcs)
    ensures LogOk(pv, c, after, lease)
  {
  }

  // ---- Steps without a worker ----------------------------------------------------------------------

  lemma EnqueueShape(lane: Lane, now: int)
    requires WorkOk(lane) && lane.line.active
    ensures var jobs, after := lane.line.jobs, EnqueueStep(lane, now);
            var generation := lane.line.requested + 1;
            && after == lane.(line := lane.line.(jobs := after.line.jobs, requested := generation),
                              hist := lane.hist.(retries := after.hist.retries))
            && (if Busy(jobs)
                then after.line.jobs == jobs[|jobs| - 1 := jobs[|jobs| - 1].(targetGeneration := generation)] &&
                     after.hist.retries == lane.hist.retries
                else after.line.jobs == jobs + [Job(JobQueued, 0, generation, now, None, 0)] &&
                     after.hist.retries == lane.hist.retries + [[]])
  {
  }

  lemma EnqueueWork(lane: Lane, now: int)
    requires WorkOk(lane) && lane.line.active
    ensures WorkOk(EnqueueStep(lane, now))
    ensures Holder(EnqueueStep(lane, now).line.jobs) == Holder(lane.line.jobs)
  {
    EnqueueShape(lane, now);
    var after := EnqueueStep(lane, now);
    forall token | token in after.claims
      ensures ClaimOk(after.claims[token], |after.line.jobs|, after.line.requested)
    {
      assert ClaimOk(lane.claims[token], |lane.line.jobs|, lane.line.requested);
    }
  }

  lemma EnqueueLog(pv: Provider, c: ConnId, lane: Lane, lease: nat, now: int)
    requires WorkOk(lane) && LogOk(pv, c, lane, lease) && lane.line.active
    ensures LogOk(pv, c, EnqueueStep(lane, now), lease)
  {
    EnqueueShape(lane, now);
    var last := |lane.line.jobs| - 1;
    if Busy(lane.line.jobs) {
      assert RetriesOf(lane.hist.retries[last], lane.line.jobs[last]);
    }
  }

  lemma EnqueueKeeps(pv: Provider, c: ConnId, lane: Lane, tick: nat, lease: nat, now: int)
    requires LaneInv(pv, c, lane, tick, lease) && lane.line.active
    ensures LaneInv(pv, c, EnqueueStep(lane, now), tick, lease)
  {
    EnqueueShape(lane, now);
    EnqueueWork(lane, now);
    SameTargets(lane, EnqueueStep(lane, now), tick);
    EnqueueLog(pv, c, lane, lease, now);
  }

  lemma NewTarget(queued: Lane, before: nat, after: Lane, run: RunId, t: Target, tick: nat)
    requires RefreshOk(queued) && OrderOk(queued, tick) && run !in queued.hist.created
    requires ClaimsOk(queued.claims, |queued.line.jobs|, before)
    requires forall r :: r in queued.line.targets ==> !TargetActive(queued.line.targets[r])
    requires t.required == before + 1 == queued.line.requested && t.nextEligible == None
    requires t.outcome.NotAttempted? && t.state.TargetQueued?
    requires after == queued.(line := SetTarget(queued.line, run, t), hist := queued.hist.(created := queued.hist.created[run := tick]))
    ensures RefreshOk(after) && OrderOk(after, tick + 1)
  {
    NewTargetOrder(queued, before, after, run, t, tick);
  }

  lemma NewTargetOrder(queued: Lane, before: nat, after: Lane, run: RunId, t: Target, tick: nat)
    requires OrderOk(queued, tick) && run !in queued.hist.created
    requires ClaimsOk(queued.claims, |queued.line.jobs|, before)
    requires t.required == before + 1 && t.outcome.NotAttempted?
    requires after == queued.(line := SetTarget(queued.line, run, t), hist := queued.hist.(created := queued.hist.created[run := tick]))
    ensures OrderOk(after, tick + 1)
  {
    forall token, r | token in after.claims && r in after.line.targets && r in after.hist.created
      ensures after.line.targets[r].required <= after.claims[token].generation ==> after.hist.created[r] < after.claims[token].claimed
    {
      assert ClaimOk(queued.claims[token], |queued.line.jobs|, before);
    }
  }

  lemma TargetKeeps(pv: Provider, c: ConnId, lane: Lane, tick: nat, lease: nat, now: int, run: RunId)
    requires LaneInv(pv, c, lane, tick, lease) && lane.line.active
    requires run !in lane.hist.created && FindActive(lane.line.targets).None?
    ensures LaneInv(pv, c, TargetStep(lane, run, now, tick), tick + 1, lease)
  {
    EnqueueShape(lane, now);
    EnqueueKeeps(pv, c, lane, tick, lease, now);
    var queued, after := EnqueueStep(lane, now), TargetStep(lane, run, now, tick);
    assert ClaimsOk(queued.claims, |queued.line.jobs|, lane.line.requested) by {
      forall token | token in queued.claims
        ensures ClaimOk(queued.claims[token], |queued.line.jobs|, lane.line.requested)
      {
        assert ClaimOk(lane.claims[token], |lane.line.jobs|, lane.line.requested);
      }
    }
    NewTarget(queued, lane.line.requested, after, run, after.line.targets[run], tick);
  }

  lemma {:induction false} NoExpired(targets: map<RunId, Target>, jobs: seq<Job>, now: int)
    requires forall i :: 0 <= i < |jobs| ==> !JobActive(jobs[i])
    ensures RecoverTargets(targets, jobs, now) == targets
  {
    if jobs != [] {
      NoExpired(targets, jobs[..|jobs| - 1], now);
    }
  }

  /** With one active job, recovery is about the newest job and at most one target. */
  lemma RecoverShape(line: Line, now: int)
    requires JobsOk(line.jobs, line.requested)
    ensures var after, last := RecoverExpired(line, now), |line.jobs| - 1;
            if line.jobs != [] && Expired(line.jobs[last], now)
            then after == line.(targets := RecoverTarget(line.targets),
                                jobs := line.jobs[last := Release(line.jobs[last], JobQueued).(runAfter := now)])
            else after == line
  {
    var last := |line.jobs| - 1;
    if line.jobs != [] {
      NoExpired(line.targets, line.jobs[..last], now);
      assert RecoverExpired(line, now).jobs == line.jobs[last := RecoverJob(line.jobs[last], now)];
    } else {
      assert RecoverExpired(line, now).jobs == line.jobs;
    }
  }

  lemma RecoverRefresh(lane: Lane, after: Lane, tick: nat)
    requires RefreshOk(lane) && OrderOk(lane, tick) && HolderPc(after.line.jobs, after.pcs) == Gone
    requires after == lane.(line := lane.line.(jobs := after.line.jobs, targets := RecoverTarget(lane.line.targets)))
    ensures RefreshOk(after) && OrderOk(after, tick)
  {
    var found := FindRecoverable(lane.line.targets);
    if found.Some? && after.line.targets != lane.line.targets {
      OneTarget(lane, after, tick, found.value, after.line.targets[found.value]);
    } else {
      SameTargets(lane, after, tick);
    }
  }

  lemma RecoverKeeps(pv: Provider, c: ConnId, lane: Lane, tick: nat, lease: nat, now: int)
    requires LaneInv(pv, c, lane, tick, lease)
    ensures LaneInv(pv, c, RecoverStep(lane, now), tick, lease)
  {
    RecoverShape(lane.line, now);
    var after := RecoverStep(lane, now);
    var last := |lane.line.jobs| - 1;
    if lane.line.jobs != [] && Expired(lane.line.jobs[last], now) {
      ReleaseWork(lane, after, after.line.jobs[last]);
      ReleaseLog(pv, c, lane, after, lease, after.line.jobs[last]);
      RecoverRefresh(lane, after, tick);
    }
  }

  lemma DisconnectKeeps(pv: Provider, c: ConnId, lane: Lane, tick: nat, lease: nat)
    requires LaneInv(pv, c, lane, tick, lease)
    ensures LaneInv(pv, c, DisconnectStep(lane), tick, lease)
  {
  }

  lemma DropKeeps(pv: Provider, c: ConnId, lane: Lane, tick: nat, lease: nat, runs: set<RunId>)
    requires LaneInv(pv, c, lane, tick, lease)
    requires forall run :: run in runs && run in lane.line.targets ==> !TargetActive(lane.line.targets[run])
    ensures LaneInv(pv, c, DropStep(lane, runs), tick, lease)
  {
  }

  // ---- Claims and leases ------------------------------------------------------------------------------

  lemma ClaimWork(lane: Lane, now: int, lease: nat, j: nat, token: Token, tick: nat)
    requires WorkOk(lane) && Claimable(lane, j, token, now)
    ensures j == |lane.line.jobs| - 1
    ensures WorkOk(ClaimStep(lane, j, token, now, lease, tick))
  {
  }

  lemma ClaimOrder(lane: Lane, after: Lane, token: Token, claim: JobClaim, tick: nat)
    requires RefreshOk(lane) && OrderOk(lane, tick) && token !in lane.claims && token !in lane.pcs
    requires after.claims == lane.claims[token := claim] && claim.claimed == tick
    requires after.pcs == lane.pcs[token := Claimed] && HolderPc(after.line.jobs, after.pcs) == Claimed
    requires after.line == lane.line.(jobs := after.line.jobs) && after.hist == lane.hist.(renewed := after.hist.renewed)
    ensures RefreshOk(after) && OrderOk(after, tick + 1)
  {
  }

  lemma ClaimKeeps(pv: Provider, c: ConnId, lane: Lane, tick: nat, lease: nat, now: int, j: nat, token: Token)
    requires LaneInv(pv, c, lane, tick, lease) && Claimable(lane, j, token, now)
    ensures LaneInv(pv, c, ClaimStep(lane, j, token, now, lease, tick), tick + 1, lease)
  {
    var after := ClaimStep(lane, j, token, now, lease, tick);
    ClaimWork(lane, now, lease, j, token, tick);
    ClaimOrder(lane, after, token, after.claims[token], tick);
    assert RetriesOf(lane.hist.retries[j], lane.line.jobs[j]);
    assert RetriesOf(lane.hist.retries[j], after.line.jobs[j]);
  }

  lemma HeartbeatKeeps(pv: Provider, c: ConnId, lane: Lane, tick: nat, lease: nat, now: int, token: Token)
    requires LaneInv(pv, c, lane, tick, lease) && Known(lane, token)
    ensures LaneInv(pv, c, HeartbeatStep(lane, token, now, lease), tick, lease)
  {
    HoldsIsHolder(lane, token);
    var after := HeartbeatStep(lane, token, now, lease);
    if after.line != lane.line {
      RenewWork(lane, after, now + lease);
      RenewLog(pv, c, lane, after, lease, now + lease);
      SameTargets(lane, after, tick);
    }
  }

  predicate Renewed(jobs: seq<Job>, after: seq<Job>, expires: int) {
    Running(jobs) && after == jobs[|jobs| - 1 := jobs[|jobs| - 1].(leaseExpires := expires)]
  }

  lemma RenewWork(lane: Lane, after: Lane, expires: int)
    requires WorkOk(lane) && Renewed(lane.line.jobs, after.line.jobs, expires)
    requires after == lane.(line := lane.line.(jobs := after.line.jobs), hist := lane.hist.(renewed := after.hist.renewed))
    ensures WorkOk(after) && Holder(after.line.jobs) == Holder(lane.line.jobs)
  {
  }

  lemma RenewLog(pv: Provider, c: ConnId, lane: Lane, after: Lane, lease: nat, expires: int)
    requires LogOk(pv, c, lane, lease) && Renewed(lane.line.jobs, after.line.jobs, expires)
    requires after == lane.(line := lane.line.(jobs := after.line.jobs), hist := lane.hist.(renewed := after.hist.renewed))
    requires expires == after.hist.renewed + lease
    ensures LogOk(pv, c, after, lease)
  {
  }

  // ---- A worker moves on alone -------------------------------------------------------------------------

  /** Only the program counter of one worker moves. */
  lemma PcMove(pv: Provider, c: ConnId, lane: Lane, tick: nat, lease: nat, token: Token, pc: Pc)
    requires LaneInv(pv, c, lane, tick, lease) && Known(lane, token)
    requires PcOk(pc, lane.claims[token].claimed, tick) && PagesOf(pv, c, pc)
    requires Holder(lane.line.jobs) == Some(token) ==>
               HolderOk(pc, lane.line.targets) && AskedLater(FirstCall(pc), lane.line.targets, lane.hist.returned)
    ensures LaneInv(pv, c, At(lane, token, pc), tick, lease)
  {
    var after := At(lane, token, pc);
    assert HolderPc(after.line.jobs, after.pcs) ==
           if Holder(lane.line.jobs) == Some(token) then pc else HolderPc(lane.line.jobs, lane.pcs);
  }

  lemma RefreshKeeps(pv: Provider, c: ConnId, lane: Lane, tick: nat, lease: nat, token: Token, reply: RefreshReply)
    requires LaneInv(pv, c, lane, tick, lease) && Known(lane, token) && lane.pcs[token].AtRefreshCall?
    ensures LaneInv(pv, c, RefreshStep(lane, token, reply, tick), tick + 1, lease)
  {
    TickMove(pv, c, lane, tick, lease);
    PcMove(pv, c, lane, tick + 1, lease, token, RefreshStep(lane, token, reply, tick).pcs[token]);
  }

  lemma SyncKeeps(pv: Provider, c: ConnId, lane: Lane, tick: nat, lease: nat, token: Token, decrypts: bool)
    requires LaneInv(pv, c, lane, tick, lease) && Known(lane, token) && lane.pcs[token].AtSync?
    ensures LaneInv(pv, c, SyncStep(lane, token, decrypts), tick, lease)
  {
    PcMove(pv, c, lane, tick, lease, token, SyncStep(lane, token, decrypts).pcs[token]);
  }

  /** Where a page call leaves its worker: with an unbroken chain of pages, first asked for after the claim. */
  lemma PagePc(pv: Provider, c: ConnId, lane: Lane, tick: nat, token: Token, reply: Reply)
    requires Known(lane, token) && lane.pcs[token].AtPages?
    requires PcOk(lane.pcs[token], lane.claims[token].claimed, tick) && PagesOf(pv, c, lane.pcs[token])
    requires lane.claims[token].claimed < tick
    requires reply.Page? ==> PageOk(pv, c, lane.pcs[token].loop.request, reply.page)
    ensures var first, pc := lane.pcs[token].firstCall, PageStep(lane, token, reply, tick).pcs[token];
            && PcOk(pc, lane.claims[token].claimed, tick + 1) && PagesOf(pv, c, pc)
            && (pc.AtPages? || pc.AtCommit? || pc.AtFailure?)
            && (FirstCall(pc).Some? ==> FirstCall(pc) == Some(if first.Some? then first.value else tick))
  {
    var pc := lane.pcs[token];
    if reply.Page? {
      ChainExtend(pv, c, pc.loop.attempt, pc.loop.pages, reply.page);
    }
  }

  lemma PageKeeps(pv: Provider, c: ConnId, lane: Lane, tick: nat, lease: nat, token: Token, reply: Reply)
    requires LaneInv(pv, c, lane, tick, lease) && Known(lane, token) && lane.pcs[token].AtPages?
    requires reply.Page? ==> PageOk(pv, c, lane.pcs[token].loop.request, reply.page)
    ensures LaneInv(pv, c, PageStep(lane, token, reply, tick), tick + 1, lease)
  {
    TickMove(pv, c, lane, tick, lease);
    PagePc(pv, c, lane, tick, token, reply);
    PcMove(pv, c, lane, tick + 1, lease, token, PageStep(lane, token, reply, tick).pcs[token]);
  }

  lemma ExceptionKeeps(pv: Provider, c: ConnId, lane: Lane, tick: nat, lease: nat, token: Token)
    requires LaneInv(pv, c, lane, tick, lease) && Known(lane, token)
    ensures LaneInv(pv, c, ExceptionStep(lane, token), tick, lease)
    ensures LaneInv(pv, c, CrashStep(lane, token), tick, lease)
  {
    PcMove(pv, c, lane, tick, lease, token, AtFailure("WORKER_ERROR", Transient));
    PcMove(pv, c, lane, tick, lease, token, Gone);
  }

  // ---- Steps on a refresh target ------------------------------------------------------------------------

  /** One target and one worker move together, the worker to a place before any page request. */
  lemma TargetAndPc(pv: Provider, c: ConnId, lane: Lane, after: Lane, tick: nat, lease: nat, token: Token, run: RunId)
    requires LaneInv(pv, c, lane, tick, lease) && Known(lane, token) && Holder(lane.line.jobs) == Some(token)
    requires run in lane.line.targets && run in after.line.targets && token in after.pcs
    requires after == lane.(line := SetTarget(lane.line, run, after.line.targets[run]), pcs := lane.pcs[token := after.pcs[token]])
    requires Evolves(lane.line.targets[run], after.line.targets[run]) && !after.line.targets[run].outcome.Accepted?
    requires after.line.targets[run].nextEligible == lane.line.targets[run].nextEligible ||
             CoolingUntil(lane.line, after.line.targets[run].nextEligible)
    requires after.line.targets[run].outcome.Unsupported? ==> !lane.line.refreshSupported
    requires HolderOk(after.pcs[token], after.line.targets)
    requires after.pcs[token].AtPrepare? || after.pcs[token].AtSync? || after.pcs[token].AtFinish?
    ensures LaneInv(pv, c, after, tick, lease)
  {
    SameWork(lane, after);
    SameLog(pv, c, lane, after, lease, token);
    OneTarget(lane, after, tick, run, after.line.targets[run]);
  }

  lemma ReserveKeeps(pv: Provider, c: ConnId, lane: Lane, tick: nat, lease: nat, token: Token)
    requires LaneInv(pv, c, lane, tick, lease) && Known(lane, token) && lane.pcs[token].Claimed?
    ensures LaneInv(pv, c, ReserveStep(lane, token).lane, tick, lease)
  {
    HoldsIsHolder(lane, token);
    var change := ReserveTarget(lane.line, lane.claims[token].job, token);
    if change.note.Started? {
      TargetAndPc(pv, c, lane, ReserveStep(lane, token).lane, tick, lease, token, change.note.run);
    } else {
      PcMove(pv, c, lane, tick, lease, token, AtSync);
    }
  }

  lemma DispatchKeeps(pv: Provider, c: ConnId, lane: Lane, tick: nat, lease: nat, now: int, token: Token)
    requires LaneInv(pv, c, lane, tick, lease) && Known(lane, token) && lane.pcs[token].AtPrepare?
    requires PrepareKind(lane.line, lane.pcs[token].run, lane.claims[token].job, token, true, now).Dispatch?
    ensures LaneInv(pv, c, PrepareStep(lane, token, true, now).lane, tick, lease)
  {
    HoldsIsHolder(lane, token);
    var after, run := PrepareStep(lane, token, true, now).lane, lane.pcs[token].run;
    SameWork(lane, after);
    SameLog(pv, c, lane, after, lease, token);
    DispatchRefresh(lane, after, token, run, now);
    assert OrderOk(after, tick);
  }

  /** A dispatch is committed: the target, the time on the connection and the log together. */
  lemma DispatchRefresh(lane: Lane, after: Lane, token: Token, run: RunId, now: int)
    requires RefreshOk(lane) && Holder(lane.line.jobs) == Some(token)
    requires Waiting(lane.line.targets, run, Reserved) && run in lane.hist.created
    requires lane.line.refreshSupported && !CoolingDown(lane.line, now)
    requires after.line == SetTarget(lane.line, run, lane.line.targets[run].(outcome := Dispatching, nextEligible := Some(now + COOLDOWN_SECONDS)))
                           .(lastRefreshAt := Some(now))
    requires after.hist == lane.hist.(dispatches := lane.hist.dispatches + [DispatchRecord(run, now)])
    requires HolderPc(after.line.jobs, after.pcs) == AtRefreshCall(run)
    ensures RefreshOk(after)
  {
    var d := after.hist.dispatches;
    assert DispatchedOnce(d, after.hist.created);
    assert NotYetDispatched(d, after.line.targets);
    assert Spaced(d, after.line.lastRefreshAt);
    assert EligibleOk(after.line.targets, after.line.lastRefreshAt);
  }

  lemma SkipKeeps(pv: Provider, c: ConnId, lane: Lane, tick: nat, lease: nat, now: int, token: Token, decrypts: bool)
    requires LaneInv(pv, c, lane, tick, lease) && Known(lane, token) && lane.pcs[token].AtPrepare?
    requires var kind := PrepareKind(lane.line, lane.pcs[token].run, lane.claims[token].job, token, decrypts, now);
             kind.SkipSync? || kind.SyncOnly?
    ensures LaneInv(pv, c, PrepareStep(lane, token, decrypts, now).lane, tick, lease)
  {
    HoldsIsHolder(lane, token);
    SkipShape(lane, token, decrypts, now);
    TargetAndPc(pv, c, lane, PrepareStep(lane, token, decrypts, now).lane, tick, lease, token, lane.pcs[token].run);
  }

  /** The new fields of a preparation that does not lead to a call, spelled out. */
  lemma SkipShape(lane: Lane, token: Token, decrypts: bool, now: int)
    requires Known(lane, token) && lane.pcs[token].AtPrepare?
    requires var kind := PrepareKind(lane.line, lane.pcs[token].run, lane.claims[token].job, token, decrypts, now);
             kind.SkipSync? || kind.SyncOnly?
    requires Waiting(lane.line.targets, lane.pcs[token].run, Reserved)
    ensures var run, after := lane.pcs[token].run, PrepareStep(lane, token, decrypts, now).lane;
            && Holds(lane, token) && run in after.line.targets && token in after.pcs
            && after == lane.(line := SetTarget(lane.line, run, after.line.targets[run]), pcs := lane.pcs[token := after.pcs[token]])
            && Evolves(lane.line.targets[run], after.line.targets[run]) && !after.line.targets[run].outcome.Accepted?
            && (after.line.targets[run].nextEligible == lane.line.targets[run].nextEligible ||
                CoolingUntil(lane.line, after.line.targets[run].nextEligible))
            && (after.line.targets[run].outcome.Unsupported? ==> !lane.line.refreshSupported)
            && (after.pcs[token].AtSync? || after.pcs[token].AtFinish?)
  {
  }

  lemma PrepareKeeps(pv: Provider, c: ConnId, lane: Lane, tick: nat, lease: nat, now: int, token: Token, decrypts: bool)
    requires LaneInv(pv, c, lane, tick, lease) && Known(lane, token) && lane.pcs[token].AtPrepare?
    ensures LaneInv(pv, c, PrepareStep(lane, token, decrypts, now).lane, tick, lease)
  {
    var run, j := lane.pcs[token].run, lane.claims[token].job;
    match PrepareKind(lane.line, run, j, token, decrypts, now)
    case NotOurs =>
      HoldsIsHolder(lane, token);
      PcMove(pv, c, lane, tick, lease, token, AtSync);
    case Dispatch => DispatchKeeps(pv, c, lane, tick, lease, now, token);
    case _ => SkipKeeps(pv, c, lane, tick, lease, now, token, decrypts);
  }

  lemma RecordRefresh(lane: Lane, after: Lane, run: RunId, t: Target, refused: bool)
    requires RefreshOk(lane) && Waiting(lane.line.targets, run, Dispatching)
    requires Evolves(lane.line.targets[run], t) && t.nextEligible == lane.line.targets[run].nextEligible
    requires after.line == SetTarget(lane.line, run, t).(refreshSupported := if refused then false else lane.line.refreshSupported)
    requires after.hist.created == lane.hist.created && after.hist.dispatches == lane.hist.dispatches
    requires after.hist.refusedAfter == if refused then Some(|lane.hist.dispatches|) else lane.hist.refusedAfter
    requires HolderOk(HolderPc(after.line.jobs, after.pcs), after.line.targets) && (t.outcome.Unsupported? ==> refused)
    ensures RefreshOk(after)
  {
  }

  lemma RecordOrder(lane: Lane, after: Lane, tick: nat, run: RunId, t: Target, returned: nat)
    requires OrderOk(lane, tick) && run in lane.line.targets && t.required == lane.line.targets[run].required && returned < tick
    requires after.line.targets == lane.line.targets[run := t]
    requires after.hist.created == lane.hist.created
    requires after.hist.returned == lane.hist.returned[run := returned]
    requires after.claims == lane.claims && PcsOk(after.pcs, after.claims, tick)
    requires FirstCall(HolderPc(after.line.jobs, after.pcs)) == None
    ensures OrderOk(after, tick)
  {
  }

  lemma RecordShape(lane: Lane, token: Token)
    requires Known(lane, token) && lane.pcs[token].AtRecord?
    requires Records(lane.line, lane.pcs[token].run, lane.claims[token].job, token)
    requires Recordable(lane.pcs[token].outcome) && Waiting(lane.line.targets, lane.pcs[token].run, Dispatching)
    ensures Recorded(lane, RecordStep(lane, token).lane, token, lane.pcs[token].run, lane.pcs[token].returned)
  {
  }

  lemma RecordKeeps(pv: Provider, c: ConnId, lane: Lane, tick: nat, lease: nat, token: Token)
    requires LaneInv(pv, c, lane, tick, lease) && Known(lane, token) && lane.pcs[token].AtRecord?
    ensures LaneInv(pv, c, RecordStep(lane, token).lane, tick, lease)
  {
    HoldsIsHolder(lane, token);
    var pc, j := lane.pcs[token], lane.claims[token].job;
    assert PcOk(pc, lane.claims[token].claimed, tick);
    if Records(lane.line, pc.run, j, token) {
      RecordShape(lane, token);
      RecordedKeeps(pv, c, lane, RecordStep(lane, token).lane, tick, lease, token, pc.run, pc.returned);
    } else {
      PcMove(pv, c, lane, tick, lease, token, Gone);
    }
  }

  lemma RecordedKeeps(pv: Provider, c: ConnId, lane: Lane, after: Lane, tick: nat, lease: nat, token: Token, run: RunId, returned: nat)
    requires LaneInv(pv, c, lane, tick, lease) && Known(lane, token) && Holder(lane.line.jobs) == Some(token)
    requires Recorded(lane, after, token, run, returned) && returned < tick
    ensures LaneInv(pv, c, after, tick, lease)
  {
    SameWork(lane, after);
    SameLog(pv, c, lane, after, lease, token);
    RecordedTarget(lane, after, tick, token, run, returned);
  }

  /** A dispatch outcome is stored, and the worker goes on to sync or to finish. */
  ghost predicate Recorded(lane: Lane, after: Lane, token: Token, run: RunId, returned: nat) {
    && Waiting(lane.line.targets, run, Dispatching) && run in after.line.targets && token in after.pcs
    && (var t := after.line.targets[run];
        var refused := t.outcome.Unsupported?;
        && after.line == SetTarget(lane.line, run, t).(refreshSupported := if refused then false else lane.line.refreshSupported)
        && t.required == lane.line.targets[run].required && t.nextEligible == lane.line.targets[run].nextEligible
        && (t.state.Syncing? || t.state.ReconnectRequired?) && Recordable(t.outcome)
        && after.hist == lane.hist.(returned := lane.hist.returned[run := returned],
                                    refusedAfter := if refused then Some(|lane.hist.dispatches|) else lane.hist.refusedAfter))
    && after.claims == lane.claims && after.pcs == lane.pcs[token := after.pcs[token]]
    && (after.pcs[token].AtSync? || after.pcs[token].AtFinish?)
  }

  lemma RecordedTarget(lane: Lane, after: Lane, tick: nat, token: Token, run: RunId, returned: nat)
    requires RefreshOk(lane) && OrderOk(lane, tick) && Known(lane, token) && Holder(lane.line.jobs) == Some(token)
    requires Recorded(lane, after, token, run, returned) && returned < tick
    ensures RefreshOk(after) && OrderOk(after, tick)
  {
    RecordRefresh(lane, after, run, after.line.targets[run], after.line.targets[run].outcome.Unsupported?);
    RecordOrder(lane, after, tick, run, after.line.targets[run], returned);
  }

  // ---- The end of a claim -----------------------------------------------------------------------------------

  lemma FinishKeeps(pv: Provider, c: ConnId, lane: Lane, tick: nat, lease: nat, token: Token)
    requires LaneInv(pv, c, lane, tick, lease) && Known(lane, token) && lane.pcs[token].AtFinish?
    ensures LaneInv(pv, c, FinishStep(lane, token), tick, lease)
  {
    HoldsIsHolder(lane, token);
    if Holds(lane, token) {
      var after, last := FinishStep(lane, token), |lane.line.jobs| - 1;
      ReleaseWork(lane, after, after.line.jobs[last]);
      ReleaseLog(pv, c, lane, after, lease, after.line.jobs[last]);
      SameTargets(lane, after, tick);
    } else {
      PcMove(pv, c, lane, tick, lease, token, Gone);
    }
  }

  /** A failure puts the job back and notes the attempt it used up. */
  lemma RetryMove(retries: seq<seq<nat>>, jobs: seq<Job>, job: Job)
    requires RetriesOk(retries, jobs) && Running(jobs) && Released(jobs[|jobs| - 1], job)
    requires 1 <= jobs[|jobs| - 1].attempts <= |BACKOFF_SECONDS|
    ensures var last := |jobs| - 1;
            RetriesOk(retries[last := retries[last] + [jobs[last].attempts]], jobs[last := job])
  {
  }

  lemma RetryKeeps(pv: Provider, c: ConnId, lane: Lane, tick: nat, lease: nat, now: int, token: Token)
    requires LaneInv(pv, c, lane, tick, lease) && Known(lane, token) && lane.pcs[token].AtFailure?
    requires Holds(lane, token) && Retryable(lane.line.jobs[lane.claims[token].job], lane.pcs[token].cls)
    ensures LaneInv(pv, c, FailureStep(lane, token, now).lane, tick, lease)
  {
    HoldsIsHolder(lane, token);
    var after, last := FailureStep(lane, token, now).lane, |lane.line.jobs| - 1;
    RetryMove(lane.hist.retries, lane.line.jobs, after.line.jobs[last]);
    ReleaseWork(lane, after, after.line.jobs[last]);
    ReleaseLog(pv, c, lane, after, lease, after.line.jobs[last]);
    SameTargets(lane, after, tick);
  }

  lemma GiveUpKeeps(pv: Provider, c: ConnId, lane: Lane, tick: nat, lease: nat, now: int, token: Token)
    requires LaneInv(pv, c, lane, tick, lease) && Known(lane, token) && lane.pcs[token].AtFailure?
    requires Holds(lane, token) && !Retryable(lane.line.jobs[lane.claims[token].job], lane.pcs[token].cls)
    ensures LaneInv(pv, c, FailureStep(lane, token, now).lane, tick, lease)
  {
    GiveUpWork(pv, c, lane, lease, now, token);
    GiveUpShape(lane, now, token);
    GiveUpRefresh(lane, FailureStep(lane, token, now).lane, tick, lane.pcs[token].failure, lane.pcs[token].cls.OwnerAction?);
  }

  lemma GiveUpShape(lane: Lane, now: int, token: Token)
    requires WorkOk(lane) && Known(lane, token) && lane.pcs[token].AtFailure?
    requires Holds(lane, token) && !Retryable(lane.line.jobs[lane.claims[token].job], lane.pcs[token].cls)
    ensures var pc, after := lane.pcs[token], FailureStep(lane, token, now).lane;
            && after.line == lane.line.(jobs := after.line.jobs, targets := after.line.targets)
            && after.line.targets == MarkTargetFailed(lane.line, pc.failure, pc.cls.OwnerAction?).line.targets
            && after.hist == lane.hist.(dropped := after.hist.dropped) && after.claims == lane.claims
            && after.pcs == lane.pcs[token := Gone] && HolderPc(after.line.jobs, after.pcs) == Gone
  {
    HoldsIsHolder(lane, token);
  }

  lemma GiveUpWork(pv: Provider, c: ConnId, lane: Lane, lease: nat, now: int, token: Token)
    requires WorkOk(lane) && LogOk(pv, c, lane, lease) && Known(lane, token) && lane.pcs[token].AtFailure?
    requires Holds(lane, token) && !Retryable(lane.line.jobs[lane.claims[token].job], lane.pcs[token].cls)
    ensures WorkOk(FailureStep(lane, token, now).lane) && LogOk(pv, c, FailureStep(lane, token, now).lane, lease)
  {
    HoldsIsHolder(lane, token);
    var after, last := FailureStep(lane, token, now).lane, |lane.line.jobs| - 1;
    ReleaseWork(lane, after, after.line.jobs[last]);
    ReleaseLog(pv, c, lane, after, lease, after.line.jobs[last]);
  }

  /** The one active target of a job that failed for good ends with it. */
  lemma GiveUpRefresh(lane: Lane, after: Lane, tick: nat, code: string, reconnect: bool)
    requires RefreshOk(lane) && OrderOk(lane, tick) && HolderPc(after.line.jobs, after.pcs) == Gone
    requires after.line.targets == MarkTargetFailed(lane.line, code, reconnect).line.targets
    requires after.line == lane.line.(jobs := after.line.jobs, targets := after.line.targets)
    requires after.hist == lane.hist.(dropped := after.hist.dropped)
    requires after.claims == lane.claims && PcsOk(after.pcs, after.claims, tick)
    ensures RefreshOk(after) && OrderOk(after, tick)
  {
    var found := FindActive(lane.line.targets);
    if found.Some? {
      OneTarget(lane, after, tick, found.value, after.line.targets[found.value]);
    } else {
      SameTargets(lane, after, tick);
    }
  }

  lemma FailureKeeps(pv: Provider, c: ConnId, lane: Lane, tick: nat, lease: nat, now: int, token: Token)
    requires LaneInv(pv, c, lane, tick, lease) && Known(lane, token) && lane.pcs[token].AtFailure?
    ensures LaneInv(pv, c, FailureStep(lane, token, now).lane, tick, lease)
  {
    if !Holds(lane, token) {
      HoldsIsHolder(lane, token);
      PcMove(pv, c, lane, tick, lease, token, Gone);
    } else if Retryable(lane.line.jobs[lane.claims[token].job], lane.pcs[token].cls) {
      RetryKeeps(pv, c, lane, tick, lease, now, token);
    } else {
      GiveUpKeeps(pv, c, lane, tick, lease, now, token);
    }
  }

  // ---- The commit ---------------------------------------------------------------------------------------------

  /** The target a holder completes was created, and its accepted refresh came back, before
      the holder asked for its first page. */
  lemma CompletionIsFresh(lane: Lane, tick: nat, token: Token, run: RunId)
    requires OrderOk(lane, tick) && Known(lane, token) && lane.pcs[token].AtCommit?
    requires Holder(lane.line.jobs) == Some(token)
    requires run in lane.line.targets && lane.line.targets[run].required <= lane.claims[token].generation
    ensures run in lane.hist.created && lane.hist.created[run] < lane.pcs[token].asked
    ensures lane.line.targets[run].outcome.Accepted? ==>
              run in lane.hist.returned && lane.hist.returned[run] < lane.pcs[token].asked
  {
  }

  /** The new fields of a commit, spelled out. */
  lemma CommitShape(lane: Lane, token: Token, counts: Summary, now: int)
    requires WorkOk(lane) && Commits(lane, token, now)
    ensures Holder(lane.line.jobs) == Some(token) && lane.claims[token].job == |lane.line.jobs| - 1
    ensures var after, last := CommitStep(lane, token, counts, now).lane, |lane.line.jobs| - 1;
            var generation, pc := lane.claims[token].generation, lane.pcs[token];
            && 1 <= generation <= lane.line.requested
            && after.line.jobs == lane.line.jobs[last := Release(lane.line.jobs[last],
                 if lane.line.requested > generation then JobQueued else JobSucceeded).(runAfter := now)]
            && after.line == lane.line.(jobs := after.line.jobs, targets := after.line.targets,
                                        cursor := Some(pc.ending), completed := generation)
            && after.claims == lane.claims && after.pcs == lane.pcs[token := Gone]
            && after.hist == lane.hist.(
                 commits := lane.hist.commits + [CommitRecord(token, pc.attempt, pc.ending, generation)])
            && (match FindCompletable(lane.line.targets, generation)
                case None => after.line.targets == lane.line.targets
                case Some(run) =>
                  var t := lane.line.targets[run];
                  after.line.targets == lane.line.targets[run := t.(counts := counts, state := FinalState(t.outcome, counts))])
  {
  }

  lemma CommitLog(pv: Provider, c: ConnId, lane: Lane, lease: nat, now: int, token: Token, counts: Summary)
    requires WorkOk(lane) && LogOk(pv, c, lane, lease) && Commits(lane, token, now)
    ensures LogOk(pv, c, CommitStep(lane, token, counts, now).lane, lease)
  {
    CommitShape(lane, token, counts, now);
    var after, last := CommitStep(lane, token, counts, now).lane, |lane.line.jobs| - 1;
    assert CommitsOk(after.hist.commits, after.line.completed);
    ReleaseLog(pv, c, lane, after, lease, after.line.jobs[last]);
  }

  lemma CommitRefresh(lane: Lane, tick: nat, now: int, token: Token, counts: Summary)
    requires WorkOk(lane) && RefreshOk(lane) && OrderOk(lane, tick) && Commits(lane, token, now)
    requires HolderPc(CommitStep(lane, token, counts, now).lane.line.jobs, CommitStep(lane, token, counts, now).lane.pcs) == Gone
    ensures RefreshOk(CommitStep(lane, token, counts, now).lane) && OrderOk(CommitStep(lane, token, counts, now).lane, tick)
  {
    if FindCompletable(lane.line.targets, lane.claims[token].generation).Some? {
      CommitEndsTarget(lane, tick, now, token, counts);
    } else {
      CommitShape(lane, token, counts, now);
      SameTargets(lane, CommitStep(lane, token, counts, now).lane, tick);
    }
  }

  lemma CommitEndsTarget(lane: Lane, tick: nat, now: int, token: Token, counts: Summary)
    requires WorkOk(lane) && RefreshOk(lane) && OrderOk(lane, tick) && Commits(lane, token, now)
    requires FindCompletable(lane.line.targets, lane.claims[token].generation).Some?
    requires HolderPc(CommitStep(lane, token, counts, now).lane.line.jobs, CommitStep(lane, token, counts, now).lane.pcs) == Gone
    ensures RefreshOk(CommitStep(lane, token, counts, now).lane) && OrderOk(CommitStep(lane, token, counts, now).lane, tick)
  {
    CommitShape(lane, token, counts, now);
    var after, run := CommitStep(lane, token, counts, now).lane, FindCompletable(lane.line.targets, lane.claims[token].generation).value;
    OneTarget(lane, after, tick, run, after.line.targets[run]);
  }

  lemma CommitKeeps(pv: Provider, c: ConnId, lane: Lane, tick: nat, lease: nat, now: int, token: Token, counts: Summary)
    requires LaneInv(pv, c, lane, tick, lease) && Known(lane, token) && lane.pcs[token].AtCommit?
    ensures LaneInv(pv, c, CommitStep(lane, token, counts, now).lane, tick, lease)
  {
    if Commits(lane, token, now) {
      CommitShape(lane, token, counts, now);
      var after, last := CommitStep(lane, token, counts, now).lane, |lane.line.jobs| - 1;
      ReleaseWork(lane, after, after.line.jobs[last]);
      CommitLog(pv, c, lane, lease, now, token, counts);
      CommitRefresh(lane, tick, now, token, counts);
    } else {
      PcMove(pv, c, lane, tick, lease, token, Gone);
    }
  }

  // ---- All steps ------------------------------------------------------------------------------------------------

  lemma EnqueueStepKeeps(pv: Provider, c: ConnId, lane: Lane, token: Token, a: LaneAction, m: Moment)
    requires LaneInv(pv, c, lane, m.tick, m.lease) && Enabled(pv, c, lane, token, a, m) && a.Enqueue?
    ensures LaneInv(pv, c, Step(pv, c, lane, token, a, m).lane, m.tick + 1, m.lease)
  {
    TickMove(pv, c, lane, m.tick, m.lease);
    EnqueueKeeps(pv, c, lane, m.tick + 1, m.lease, m.now);
  }

  lemma ClaimStepKeeps(pv: Provider, c: ConnId, lane: Lane, token: Token, a: LaneAction, m: Moment)
    requires LaneInv(pv, c, lane, m.tick, m.lease) && Enabled(pv, c, lane, token, a, m) && a.Claim?
    ensures LaneInv(pv, c, Step(pv, c, lane, token, a, m).lane, m.tick + 1, m.lease)
  {
    ClaimKeeps(pv, c, lane, m.tick, m.lease, m.now, a.job, token);
  }

  lemma HeartbeatStepKeeps(pv: Provider, c: ConnId, lane: Lane, token: Token, a: LaneAction, m: Moment)
    requires LaneInv(pv, c, lane, m.tick, m.lease) && Enabled(pv, c, lane, token, a, m) && a.Heartbeat?
    ensures LaneInv(pv, c, Step(pv, c, lane, token, a, m).lane, m.tick + 1, m.lease)
  {
    TickMove(pv, c, lane, m.tick, m.lease);
    HeartbeatKeeps(pv, c, lane, m.tick + 1, m.lease, m.now, token);
  }

  lemma ReserveStepKeeps(pv: Provider, c: ConnId, lane: Lane, token: Token, a: LaneAction, m: Moment)
    requires LaneInv(pv, c, lane, m.tick, m.lease) && Enabled(pv, c, lane, token, a, m) && a.Reserve?
    ensures LaneInv(pv, c, Step(pv, c, lane, token, a, m).lane, m.tick + 1, m.lease)
  {
    TickMove(pv, c, lane, m.tick, m.lease);
    ReserveKeeps(pv, c, lane, m.tick + 1, m.lease, token);
  }

  lemma PrepareStepKeeps(pv: Provider, c: ConnId, lane: Lane, token: Token, a: LaneAction, m: Moment)
    requires LaneInv(pv, c, lane, m.tick, m.lease) && Enabled(pv, c, lane, token, a, m) && a.Prepare?
    ensures LaneInv(pv, c, Step(pv, c, lane, token, a, m).lane, m.tick + 1, m.lease)
  {
    TickMove(pv, c, lane, m.tick, m.lease);
    PrepareKeeps(pv, c, lane, m.tick + 1, m.lease, m.now, token, a.decrypts);
  }

  lemma RefreshStepKeeps(pv: Provider, c: ConnId, lane: Lane, token: Token, a: LaneAction, m: Moment)
    requires LaneInv(pv, c, lane, m.tick, m.lease) && Enabled(pv, c, lane, token, a, m) && a.Refresh?
    ensures LaneInv(pv, c, Step(pv, c, lane, token, a, m).lane, m.tick + 1, m.lease)
  {
    RefreshKeeps(pv, c, lane, m.tick, m.lease, token, a.reply);
  }

  lemma RecordStepKeeps(pv: Provider, c: ConnId, lane: Lane, token: Token, a: LaneAction, m: Moment)
    requires LaneInv(pv, c, lane, m.tick, m.lease) && Enabled(pv, c, lane, token, a, m) && a.Record?
    ensures LaneInv(pv, c, Step(pv, c, lane, token, a, m).lane, m.tick + 1, m.lease)
  {
    TickMove(pv, c, lane, m.tick, m.lease);
    RecordKeeps(pv, c, lane, m.tick + 1, m.lease, token);
  }

  lemma FinishStepKeeps(pv: Provider, c: ConnId, lane: Lane, token: Token, a: LaneAction, m: Moment)
    requires LaneInv(pv, c, lane, m.tick, m.lease) && Enabled(pv, c, lane, token, a, m) && a.Finish?
    ensures LaneInv(pv, c, Step(pv, c, lane, token, a, m).lane, m.tick + 1, m.lease)
  {
    TickMove(pv, c, lane, m.tick, m.lease);
    FinishKeeps(pv, c, lane, m.tick + 1, m.lease, token);
  }

  lemma BeginSyncStepKeeps(pv: Provider, c: ConnId, lane: Lane, token: Token, a: LaneAction, m: Moment)
    requires LaneInv(pv, c, lane, m.tick, m.lease) && Enabled(pv, c, lane, token, a, m) && a.BeginSync?
    ensures LaneInv(pv, c, Step(pv, c, lane, token, a, m).lane, m.tick + 1, m.lease)
  {
    TickMove(pv, c, lane, m.tick, m.lease);
    SyncKeeps(pv, c, lane, m.tick + 1, m.lease, token, a.decrypts);
  }

  lemma CallPageStepKeeps(pv: Provider, c: ConnId, lane: Lane, token: Token, a: LaneAction, m: Moment)
    requires LaneInv(pv, c, lane, m.tick, m.lease) && Enabled(pv, c, lane, token, a, m) && a.CallPage?
    ensures LaneInv(pv, c, Step(pv, c, lane, token, a, m).lane, m.tick + 1, m.lease)
  {
    PageKeeps(pv, c, lane, m.tick, m.lease, token, a.page);
  }

  lemma CommitStepKeeps(pv: Provider, c: ConnId, lane: Lane, token: Token, a: LaneAction, m: Moment)
    requires LaneInv(pv, c, lane, m.tick, m.lease) && Enabled(pv, c, lane, token, a, m) && a.Commit?
    ensures LaneInv(pv, c, Step(pv, c, lane, token, a, m).lane, m.tick + 1, m.lease)
  {
    TickMove(pv, c, lane, m.tick, m.lease);
    CommitKeeps(pv, c, lane, m.tick + 1, m.lease, m.now, token, a.counts);
  }

  lemma RecordFailureStepKeeps(pv: Provider, c: ConnId, lane: Lane, token: Token, a: LaneAction, m: Moment)
    requires LaneInv(pv, c, lane, m.tick, m.lease) && Enabled(pv, c, lane, token, a, m) && a.RecordFailure?
    ensures LaneInv(pv, c, Step(pv, c, lane, token, a, m).lane, m.tick + 1, m.lease)
  {
    TickMove(pv, c, lane, m.tick, m.lease);
    FailureKeeps(pv, c, lane, m.tick + 1, m.lease, m.now, token);
  }

  lemma EndStepKeeps(pv: Provider, c: ConnId, lane: Lane, token: Token, a: LaneAction, m: Moment)
    requires LaneInv(pv, c, lane, m.tick, m.lease) && Enabled(pv, c, lane, token, a, m) && (a.Exception? || a.Crash?)
    ensures LaneInv(pv, c, Step(pv, c, lane, token, a, m).lane, m.tick + 1, m.lease)
  {
    TickMove(pv, c, lane, m.tick, m.lease);
    ExceptionKeeps(pv, c, lane, m.tick + 1, m.lease, token);
  }

  /** Whatever a worker, a stale worker or a request does to a connection keeps its invariant. */
  lemma StepKeeps(pv: Provider, c: ConnId, lane: Lane, token: Token, a: LaneAction, m: Moment)
    requires LaneInv(pv, c, lane, m.tick, m.lease) && Enabled(pv, c, lane, token, a, m)
    ensures LaneInv(pv, c, Step(pv, c, lane, token, a, m).lane, m.tick + 1, m.lease)
  {
    match a
    case Enqueue => EnqueueStepKeeps(pv, c, lane, token, a, m);
    case Claim(_) => ClaimStepKeeps(pv, c, lane, token, a, m);
    case Heartbeat => HeartbeatStepKeeps(pv, c, lane, token, a, m);
    case Reserve => ReserveStepKeeps(pv, c, lane, token, a, m);
    case Prepare(_) => PrepareStepKeeps(pv, c, lane, token, a, m);
    case Refresh(_) => RefreshStepKeeps(pv, c, lane, token, a, m);
    case Record => RecordStepKeeps(pv, c, lane, token, a, m);
    case _ => LateStepKeeps(pv, c, lane, token, a, m);
  }

  lemma LateStepKeeps(pv: Provider, c: ConnId, lane: Lane, token: Token, a: LaneAction, m: Moment)
    requires LaneInv(pv, c, lane, m.tick, m.lease) && Enabled(pv, c, lane, token, a, m)
    requires a.Finish? || a.BeginSync? || a.CallPage? || a.Commit? || a.RecordFailure? || a.Exception? || a.Crash?
    ensures LaneInv(pv, c, Step(pv, c, lane, token, a, m).lane, m.tick + 1, m.lease)
  {
    match a
    case Finish => FinishStepKeeps(pv, c, lane, token, a, m);
    case BeginSync(_) => BeginSyncStepKeeps(pv, c, lane, token, a, m);
    case CallPage(_) => CallPageStepKeeps(pv, c, lane, token, a, m);
    case Commit(_) => CommitStepKeeps(pv, c, lane, token, a, m);
    case RecordFailure => RecordFailureStepKeeps(pv, c, lane, token, a, m);
    case _ => EndStepKeeps(pv, c, lane, token, a, m);
  }
}
