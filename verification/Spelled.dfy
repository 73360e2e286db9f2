/** What each transaction writes into the rows of its connection, in plain values: states by name,
    delays and cooldowns in seconds. Nothing here is said in terms of the functions that compute it
    (backend/app/services/sync_worker.py, sync_service.py, transaction_refresh_service.py). */
module Spelled {
  import opened Wrappers
  import opened Reconcile
  import opened PageLoop
  import opened Lines
  import opened Lanes
  import opened LaneInvariant

  predicate UnderWay(t: Target) {
    t.state == TargetQueued || t.state == Refreshing || t.state == Syncing
  }

  /** The worker's fence: the job runs under this token. */
  predicate RunsUnder(line: Line, j: nat, token: Token) {
    j < |line.jobs| && line.jobs[j].state == JobRunning && line.jobs[j].leaseToken == Some(token)
  }

  predicate Waits(job: Job) {
    job.state == JobQueued || job.state == JobRunning
  }

  // ---- Requests, claims and leases ---------------------------------------------------------------

  /** One more request: the job under way aims at it, or a new one is queued for it, due now. */
  ghost predicate RequestSays(line: Line, after: Line, now: int) {
    var generation := line.requested + 1;
    && after == line.(requested := generation, jobs := after.jobs)
    && (if exists j :: 0 <= j < |line.jobs| && Waits(line.jobs[j])
        then exists j :: 0 <= j < |line.jobs| && Raised(line.jobs, after.jobs, j, generation)
        else after.jobs == line.jobs + [Job(JobQueued, 0, generation, now, None, 0)])
  }

  predicate Raised(jobs: seq<Job>, after: seq<Job>, j: nat, generation: nat) {
    j < |jobs| && Waits(jobs[j]) && after == jobs[j := jobs[j].(targetGeneration := generation)]
  }

  ghost predicate TargetSays(line: Line, after: Line, run: RunId, now: int) {
    && RequestSays(line, after.(targets := line.targets), now)
    && after.targets == line.targets[run := Target(TargetQueued, NotAttempted, line.requested + 1, Summary(0, 0, 0), None, None)]
  }

  predicate ClaimSays(line: Line, after: Line, j: nat, token: Token, now: int, lease: nat) {
    && j < |line.jobs|
    && var job := line.jobs[j];
       after == line.(jobs := line.jobs[j := Job(JobRunning, job.attempts + 1, job.targetGeneration, job.runAfter, Some(token), now + lease)])
  }

  predicate HeartbeatSays(line: Line, after: Line, j: nat, token: Token, now: int, lease: nat) {
    if RunsUnder(line, j, token) && line.jobs[j].leaseExpires > now
    then after == line.(jobs := line.jobs[j := line.jobs[j].(leaseExpires := now + lease)])
    else after == line
  }

  predicate HasExpired(jobs: seq<Job>, now: int) {
    exists i :: 0 <= i < |jobs| && jobs[i].state == JobRunning && jobs[i].leaseExpires <= now
  }

  /** Jobs whose lease ran out are due again now; the target they worked on, if any of them did, is
      queued again unless the provider may have been called. */
  ghost predicate RecoverySays(line: Line, after: Line, now: int) {
    && after == line.(jobs := after.jobs, targets := after.targets)
    && |after.jobs| == |line.jobs|
    && (forall i :: 0 <= i < |line.jobs| ==> after.jobs[i] == JobAfterRecovery(line.jobs[i], now))
    && after.targets.Keys == line.targets.Keys
    && (forall run :: run in line.targets && run in after.targets ==>
          after.targets[run] == if HasExpired(line.jobs, now) then TargetAfterRecovery(line.targets[run]) else line.targets[run])
  }

  function JobAfterRecovery(job: Job, now: int): Job {
    if job.state == JobRunning && job.leaseExpires <= now then job.(state := JobQueued, runAfter := now, leaseToken := None) else job
  }

  function TargetAfterRecovery(t: Target): Target {
    if t.state != Refreshing && t.state != Syncing then t
    else if t.outcome == Dispatching then t.(state := Syncing, outcome := Unknown, errorCode := Some("REFRESH_OUTCOME_UNKNOWN"))
    else if t.outcome == Reserved then t.(state := TargetQueued, outcome := NotAttempted)
    else t
  }

  // ---- The refresh ----------------------------------------------------------------------------------

  predicate CoveredQueued(line: Line, j: nat, run: RunId) {
    j < |line.jobs| && run in line.targets && line.targets[run].state == TargetQueued &&
    line.targets[run].required <= line.jobs[j].targetGeneration
  }

  /** The holder reserves the queued target that its job covers, if there is one. */
  ghost predicate ReserveSays(line: Line, after: Line, j: nat, token: Token, reserved: Option<RunId>) {
    match reserved
    case None => after == line && (RunsUnder(line, j, token) ==> forall run :: !CoveredQueued(line, j, run))
    case Some(run) =>
      && RunsUnder(line, j, token) && CoveredQueued(line, j, run)
      && after == line.(targets := line.targets[run := line.targets[run].(state := Refreshing, outcome := Reserved)])
  }

  /** What the checks of a reserved target lead to, the first that applies. */
  predicate PrepareSays(line: Line, after: Line, run: RunId, decrypts: bool, now: int)
    requires run in line.targets
  {
    var t := line.targets[run];
    if !line.active then
      after == line.(targets := line.targets[run := t.(state := Disconnected, outcome := RefreshFailed, errorCode := Some("CONNECTION_DISCONNECTED"))])
    else if !line.refreshSupported then
      after == line.(targets := line.targets[run := t.(state := Syncing, outcome := Unsupported)])
    else if line.lastRefreshAt.Some? && now < line.lastRefreshAt.value + 900 then
      after == line.(targets := line.targets[run := t.(state := Syncing, outcome := Cooldown, nextEligible := Some(line.lastRefreshAt.value + 900))])
    else if !decrypts then
      after == line.(targets := line.targets[run := t.(state := ReconnectRequired, outcome := RefreshFailed, errorCode := Some("CONNECTION_TOKEN_MISSING"))])
    else
      after == line.(targets := line.targets[run := t.(outcome := Dispatching, nextEligible := Some(now + 900))], lastRefreshAt := Some(now))
  }

  /** What the provider's answer leads to. */
  predicate AnswerSays(line: Line, after: Line, run: RunId, reply: RefreshReply)
    requires run in line.targets
  {
    var t := line.targets[run];
    match reply
    case RefreshAccepted =>
      after == line.(targets := line.targets[run := t.(state := Syncing, outcome := Accepted, errorCode := None)])
    case RefreshUnsupported =>
      after == line.(refreshSupported := false,
                     targets := line.targets[run := t.(state := Syncing, outcome := Unsupported, errorCode := Some("PRODUCTS_NOT_SUPPORTED"))])
    case RefreshTimeout =>
      after == line.(targets := line.targets[run := t.(state := Syncing, outcome := Unknown, errorCode := Some("REFRESH_OUTCOME_UNKNOWN"))])
    case RefreshRefused(code, _) =>
      after == line.(targets := line.targets[run := t.(state := if OwnerMustAct(code) then ReconnectRequired else Syncing,
                                                       outcome := RefreshFailed, errorCode := Some(code))])
  }

  /** What recording an outcome stores. */
  predicate OutcomeSays(line: Line, after: Line, run: RunId, outcome: Outcome, code: Option<string>)
    requires run in line.targets
  {
    var state := if outcome == RefreshFailed && code.Some? && OwnerMustAct(code.value) then ReconnectRequired else Syncing;
    after == line.(refreshSupported := line.refreshSupported && outcome != Unsupported,
                   targets := line.targets[run := line.targets[run].(state := state, outcome := outcome, errorCode := code)])
  }

  predicate OwnerMustAct(code: string) {
    || code == "ITEM_LOGIN_REQUIRED" || code == "PENDING_EXPIRATION" || code == "PENDING_DISCONNECT"
    || code == "USER_PERMISSION_REVOKED" || code == "ACCESS_NOT_GRANTED"
  }

  predicate FinishSays(line: Line, after: Line, j: nat) {
    j < |line.jobs| && after == line.(jobs := line.jobs[j := line.jobs[j].(state := JobSucceeded, leaseToken := None)])
  }

  // ---- The sync --------------------------------------------------------------------------------------

  /** How a target ends that a sync completes: by what the refresh came to and by what the sync brought. */
  predicate EndsAs(outcome: Outcome, counts: Summary, state: TargetState) {
    && (outcome == Accepted && counts.added + counts.modified + counts.removed > 0 ==> state == Updated)
    && (outcome == Accepted && counts.added + counts.modified + counts.removed == 0 ==> state == NoChanges)
    && (outcome == Cooldown ==> state == InCooldown)
    && (outcome == Unsupported ==> state == AutomaticOnly)
    && (outcome == Unknown ==> state == OutcomeUnknown)
    && (outcome == RefreshFailed ==> state == TargetFailed)
    && state != TargetQueued && state != Refreshing && state != Syncing
  }

  predicate CoveredSyncing(t: Target, generation: nat) {
    t.state == Syncing && t.required <= generation
  }

  /** The covered syncing target gets its counts and ends; every other target stays. */
  ghost predicate TargetsEnd(before: map<RunId, Target>, after: map<RunId, Target>, generation: nat, counts: Summary) {
    && after.Keys == before.Keys
    && forall run :: run in before && run in after ==>
         if CoveredSyncing(before[run], generation)
         then after[run] == before[run].(counts := counts, state := after[run].state) && EndsAs(before[run].outcome, counts, after[run].state)
         else after[run] == before[run]
  }

  predicate MayCommit(line: Line, j: nat, token: Token, attempt: Cursor, now: int) {
    && RunsUnder(line, j, token) && now < line.jobs[j].leaseExpires && line.active
    && (line.cursor == Some(attempt) || (line.cursor == None && attempt == ""))
  }

  /** The commit: cursor, generation, target and job together. */
  ghost predicate CommitSays(line: Line, after: Line, j: nat, ending: Cursor, generation: nat, counts: Summary, now: int) {
    && j < |line.jobs|
    && after == line.(cursor := Some(ending), completed := after.completed, jobs := after.jobs, targets := after.targets)
    && after.completed == (if generation == 0 then line.completed else generation)
    && after.jobs == line.jobs[j := line.jobs[j].(state := if line.requested > generation then JobQueued else JobSucceeded,
                                                  leaseToken := None, runAfter := now)]
    && TargetsEnd(line.targets, after.targets, generation, counts)
  }

  // ---- Failures ----------------------------------------------------------------------------------------

  /** The job is tried again just after transient failures of its first four attempts, 30, 120, 480 and
      1800 seconds later. Otherwise it fails, and with it the target under way. */
  ghost predicate FailureSays(line: Line, after: Line, j: nat, code: string, cls: RetryClass, now: int) {
    && j < |line.jobs| && |after.jobs| == |line.jobs|
    && after == line.(jobs := line.jobs[j := after.jobs[j]], targets := after.targets)
    && var job, again := line.jobs[j], after.jobs[j];
       if cls == Transient && job.attempts <= 4 then
         && again == job.(state := JobQueued, leaseToken := None, runAfter := again.runAfter)
         && (job.attempts == 1 ==> again.runAfter == now + 30)
         && (job.attempts == 2 ==> again.runAfter == now + 120)
         && (job.attempts == 3 ==> again.runAfter == now + 480)
         && (job.attempts == 4 ==> again.runAfter == now + 1800)
         && after.targets == line.targets
       else
         again == job.(state := JobFailed, leaseToken := None) && TargetsFail(line.targets, after.targets, code, cls)
  }

  ghost predicate TargetsFail(before: map<RunId, Target>, after: map<RunId, Target>, code: string, cls: RetryClass) {
    && after.Keys == before.Keys
    && forall run :: run in before && run in after ==>
         after[run] == if UnderWay(before[run])
                       then before[run].(state := if cls == OwnerAction then ReconnectRequired else TargetFailed, errorCode := Some(code))
                       else before[run]
  }

  // ---- The functions do what is spelled out ---------------------------------------------------------------

  lemma RequestIsSpelled(line: Line, now: int)
    requires line.active
    ensures RequestSays(line, EnqueueSync(line, now), now)
  {
    var found := ActiveJob(line.jobs);
    if found.Some? {
      assert Raised(line.jobs, EnqueueSync(line, now).jobs, found.value, line.requested + 1);
    }
  }

  lemma TargetIsSpelled(line: Line, run: RunId, now: int)
    requires line.active
    ensures TargetSays(line, AddTarget(line, run, now), run, now)
  {
    RequestIsSpelled(line, now);
    assert AddTarget(line, run, now).(targets := line.targets) == EnqueueSync(line, now);
  }

  lemma ClaimIsSpelled(line: Line, j: nat, token: Token, now: int, lease: nat)
    requires j < |line.jobs|
    ensures ClaimSays(line, ClaimJob(line, j, token, now, lease), j, token, now, lease)
  {
  }

  lemma HeartbeatIsSpelled(line: Line, j: nat, token: Token, now: int, lease: nat)
    ensures HeartbeatSays(line, RenewLease(line, j, token, now, lease), j, token, now, lease)
  {
  }

  /** Recovering the target once: what is spelled out for the one target it can be, nothing for the others. */
  lemma TargetRecovers(targets: map<RunId, Target>)
    requires OneActive(targets)
    ensures RecoverTarget(targets).Keys == targets.Keys && OneActive(RecoverTarget(targets))
    ensures forall run :: run in targets ==> RecoverTarget(targets)[run] == TargetAfterRecovery(targets[run])
  {
    var found := FindRecoverable(targets);
    forall run | run in targets
      ensures RecoverTarget(targets)[run] == TargetAfterRecovery(targets[run])
    {
      if found != Some(run) {
        assert !(targets[run].state == Refreshing || targets[run].state == Syncing);
      }
    }
  }

  lemma {:induction false} TargetsRecover(targets: map<RunId, Target>, jobs: seq<Job>, now: int)
    requires OneActive(targets)
    ensures var after := RecoverTargets(targets, jobs, now);
            && after.Keys == targets.Keys && OneActive(after)
            && forall run :: run in targets ==> after[run] == if HasExpired(jobs, now) then TargetAfterRecovery(targets[run]) else targets[run]
  {
    if jobs != [] {
      var init, last := jobs[..|jobs| - 1], jobs[|jobs| - 1];
      TargetsRecover(targets, init, now);
      ExpiredAmong(jobs, now);
      if last.state == JobRunning && last.leaseExpires <= now {
        TargetRecovers(RecoverTargets(targets, init, now));
      }
    }
  }

  lemma ExpiredAmong(jobs: seq<Job>, now: int)
    requires jobs != []
    ensures var last := jobs[|jobs| - 1];
            HasExpired(jobs, now) <==> HasExpired(jobs[..|jobs| - 1], now) || (last.state == JobRunning && last.leaseExpires <= now)
  {
    var init := jobs[..|jobs| - 1];
    assert forall i :: 0 <= i < |init| ==> init[i] == jobs[i];
    if HasExpired(init, now) {
      var i :| 0 <= i < |init| && init[i].state == JobRunning && init[i].leaseExpires <= now;
      assert jobs[i] == init[i];
    }
  }

  lemma RecoveryIsSpelled(line: Line, now: int)
    requires OneActive(line.targets)
    ensures RecoverySays(line, RecoverExpired(line, now), now)
  {
    TargetsRecover(line.targets, line.jobs, now);
  }

  lemma ReserveIsSpelled(line: Line, j: nat, token: Token)
    ensures var change := ReserveTarget(line, j, token);
            ReserveSays(line, change.line, j, token, if change.note.Started? then Some(change.note.run) else None)
  {
  }

  lemma PrepareIsSpelled(line: Line, run: RunId, j: nat, token: Token, decrypts: bool, now: int)
    requires run in line.targets && RunsUnder(line, j, token) && line.targets[run].outcome == Reserved
    ensures PrepareSays(line, PrepareTarget(line, run, j, token, decrypts, now).line, run, decrypts, now)
  {
  }

  lemma OutcomeIsSpelled(line: Line, run: RunId, j: nat, token: Token, outcome: Outcome, code: Option<string>)
    requires run in line.targets && RunsUnder(line, j, token) && line.targets[run].outcome == Dispatching
    ensures OutcomeSays(line, RecordOutcome(line, run, j, token, outcome, code).line, run, outcome, code)
  {
  }

  /** The answer a worker carries from the call to its record. */
  lemma AnswerIsSpelled(lane: Lane, token: Token, reply: RefreshReply, tick: nat, line: Line, j: nat)
    requires Known(lane, token) && lane.pcs[token].AtRefreshCall?
    requires RunsUnder(line, j, token) && lane.pcs[token].run in line.targets && line.targets[lane.pcs[token].run].outcome == Dispatching
    ensures var run, pc := lane.pcs[token].run, RefreshStep(lane, token, reply, tick).pcs[token];
            && pc.AtRecord? && pc.run == run && (pc.goOn <==> !(reply.RefreshRefused? && reply.cls == OwnerAction))
            && AnswerSays(line, RecordOutcome(line, run, j, token, pc.outcome, pc.code).line, run, reply)
  {
  }

  lemma FinishIsSpelled(line: Line, j: nat, token: Token)
    requires RunsUnder(line, j, token)
    ensures FinishSays(line, FinishWithoutSync(line, j, token), j)
  {
  }

  lemma TargetsEndSpelled(line: Line, generation: nat, counts: Summary)
    requires OneActive(line.targets)
    ensures TargetsEnd(line.targets, CompleteTarget(line, generation, counts).line.targets, generation, counts)
  {
  }

  lemma CommitIsSpelled(line: Line, j: nat, token: Token, attempt: Cursor, ending: Cursor, generation: nat, counts: Summary, now: int)
    requires OneActive(line.targets)
    ensures var after := CommitSync(line, j, token, attempt, ending, generation, counts, now).line;
            if MayCommit(line, j, token, attempt, now) then CommitSays(line, after, j, ending, generation, counts, now) else after == line
  {
    TargetsEndSpelled(line.(cursor := Some(ending), completed := if generation > 0 then generation else line.completed), generation, counts);
  }

  lemma TargetsFailSpelled(line: Line, code: string, cls: RetryClass)
    requires OneActive(line.targets)
    ensures TargetsFail(line.targets, MarkTargetFailed(line, code, cls == OwnerAction).line.targets, code, cls)
  {
  }

  lemma FailureIsSpelled(line: Line, j: nat, token: Token, code: string, cls: RetryClass, now: int)
    requires OneActive(line.targets) && RunsUnder(line, j, token)
    ensures FailureSays(line, FailJob(line, j, token, code, cls, now).line, j, code, cls, now)
  {
    TargetsFailSpelled(SetJob(line, j, Release(line.jobs[j], JobFailed)), code, cls);
  }
}
