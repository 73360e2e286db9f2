/** The rows the database keeps for one bank connection, and what each database
    transaction of the sync worker and the refresh service does to them
    (backend/app/models.py, sync_service.py, sync_worker.py, transaction_refresh_service.py).

    The tables of jobs and refresh targets are cut by their connection id, which never
    changes; within one connection a target is named by its run, because the schema allows
    one target per run and connection. Times are whole seconds. */
module Lines {
  import opened Wrappers
  import opened Reconcile
  import opened PageLoop

  type OwnerId = string
  type RunId = nat
  type Token = nat

  const COOLDOWN_SECONDS: int := 900
  const BACKOFF_SECONDS: seq<int> := [30, 120, 480, 1800]

  datatype JobState = JobQueued | JobRunning | JobSucceeded | JobFailed

  datatype Job = Job(
    state: JobState, attempts: nat, targetGeneration: nat, runAfter: int,
    leaseToken: Option<Token>, leaseExpires: int)

  datatype TargetState =
    | TargetQueued | Refreshing | Syncing
    | Updated | NoChanges | AutomaticOnly | InCooldown
    | ReconnectRequired | OutcomeUnknown | TargetFailed | Disconnected

  datatype Outcome =
    | NotAttempted | Reserved | Dispatching | Accepted | Unsupported | Cooldown | Unknown | RefreshFailed

  datatype Target = Target(
    state: TargetState, outcome: Outcome, required: nat, counts: Summary,
    errorCode: Option<string>, nextEligible: Option<int>)

  datatype Line = Line(
    owner: OwnerId, active: bool, cards: set<AccountId>, cursor: Option<Cursor>,
    requested: nat, completed: nat, lastRefreshAt: Option<int>, refreshSupported: bool,
    jobs: seq<Job>, targets: map<RunId, Target>)

  /** What a transaction tells the run of the target it touched: it is under way, or one of
      its targets ended and the run state must be derived again. */
  datatype RunNote = NoNote | Started(run: RunId) | Ended(run: RunId)

  datatype Change = Change(line: Line, note: RunNote)

  // ---- Lookups -------------------------------------------------------------------------

  predicate JobActive(job: Job) {
    job.state.JobQueued? || job.state.JobRunning?
  }

  predicate TargetActive(t: Target) {
    t.state.TargetQueued? || t.state.Refreshing? || t.state.Syncing?
  }

  predicate Acceptable(t: Target) {
    t.state.Updated? || t.state.NoChanges? || t.state.AutomaticOnly? || t.state.InCooldown?
  }

  function ActiveJob(jobs: seq<Job>): (r: Option<nat>)
    ensures r.Some? ==> r.value < |jobs| && JobActive(jobs[r.value])
    ensures r.None? ==> forall i :: 0 <= i < |jobs| ==> !JobActive(jobs[i])
  {
    if jobs == [] then None
    else
      var before := ActiveJob(jobs[..|jobs| - 1]);
      if before.Some? then before
      else if JobActive(jobs[|jobs| - 1]) then Some(|jobs| - 1) else None
  }

  /** The fence every worker transaction checks: the job runs under this very token. */
  predicate Held(line: Line, job: nat, token: Token) {
    job < |line.jobs| && line.jobs[job].state.JobRunning? && line.jobs[job].leaseToken == Some(token)
  }

  predicate CanReserve(t: Target, generation: nat) {
    t.state.TargetQueued? && t.required <= generation
  }

  predicate CanRecover(t: Target) {
    t.state.Refreshing? || t.state.Syncing?
  }

  predicate CanComplete(t: Target, generation: nat) {
    t.state.Syncing? && t.required <= generation
  }

  ghost function FindReservable(targets: map<RunId, Target>, generation: nat): (r: Option<RunId>)
    ensures r.Some? ==> r.value in targets && CanReserve(targets[r.value], generation)
    ensures r.None? ==> forall run :: run in targets ==> !CanReserve(targets[run], generation)
  {
    if run :| run in targets && CanReserve(targets[run], generation) then Some(run) else None
  }

  ghost function FindRecoverable(targets: map<RunId, Target>): (r: Option<RunId>)
    ensures r.Some? ==> r.value in targets && CanRecover(targets[r.value])
    ensures r.None? ==> forall run :: run in targets ==> !CanRecover(targets[run])
  {
    if run :| run in targets && CanRecover(targets[run]) then Some(run) else None
  }

  ghost function FindCompletable(targets: map<RunId, Target>, generation: nat): (r: Option<RunId>)
    ensures r.Some? ==> r.value in targets && CanComplete(targets[r.value], generation)
    ensures r.None? ==> forall run :: run in targets ==> !CanComplete(targets[run], generation)
  {
    if run :| run in targets && CanComplete(targets[run], generation) then Some(run) else None
  }

  ghost function FindActive(targets: map<RunId, Target>): (r: Option<RunId>)
    ensures r.Some? ==> r.value in targets && TargetActive(targets[r.value])
    ensures r.None? ==> forall run :: run in targets ==> !TargetActive(targets[run])
  {
    if run :| run in targets && TargetActive(targets[run]) then Some(run) else None
  }

  function SetJob(line: Line, j: nat, job: Job): Line
    requires j < |line.jobs|
  {
    line.(jobs := line.jobs[j := job])
  }

  function SetTarget(line: Line, run: RunId, t: Target): Line {
    line.(targets := line.targets[run := t])
  }

  function Release(job: Job, state: JobState): Job {
    job.(state := state, leaseToken := None)
  }

  // ---- Requests ------------------------------------------------------------------------

  /** Advance the generation and fold the work into the active job, or queue a new one. */
  function EnqueueSync(line: Line, now: int): Line
    requires line.active
  {
    var generation := line.requested + 1;
    var bumped := line.(requested := generation);
    match ActiveJob(line.jobs)
    case Some(j) => SetJob(bumped, j, line.jobs[j].(targetGeneration := generation))
    case None => bumped.(jobs := line.jobs + [Job(JobQueued, 0, generation, now, None, 0)])
  }

  /** A new run snapshots this connection: one more generation and one queued target. */
  function AddTarget(line: Line, run: RunId, now: int): Line
    requires line.active
  {
    var queued := EnqueueSync(line, now);
    SetTarget(queued, run, Target(TargetQueued, NotAttempted, queued.requested, Summary(0, 0, 0), None, None))
  }

  // ---- Leases --------------------------------------------------------------------------

  function ClaimJob(line: Line, j: nat, token: Token, now: int, lease: nat): Line
    requires j < |line.jobs|
  {
    var job := line.jobs[j];
    SetJob(line, j, job.(state := JobRunning, attempts := job.attempts + 1,
                         leaseToken := Some(token), leaseExpires := now + lease))
  }

  function RenewLease(line: Line, j: nat, token: Token, now: int, lease: nat): Line {
    if Held(line, j, token) && line.jobs[j].leaseExpires > now
    then SetJob(line, j, line.jobs[j].(leaseExpires := now + lease))
    else line
  }

  predicate Expired(job: Job, now: int) {
    job.state.JobRunning? && job.leaseExpires <= now
  }

  ghost function RecoverTarget(targets: map<RunId, Target>): map<RunId, Target> {
    match FindRecoverable(targets)
    case None => targets
    case Some(run) =>
      var t := targets[run];
      if t.outcome.Dispatching? then
        targets[run := t.(outcome := Unknown, state := Syncing, errorCode := Some("REFRESH_OUTCOME_UNKNOWN"))]
      else if t.outcome.Reserved? then
        targets[run := t.(outcome := NotAttempted, state := TargetQueued)]
      else targets
  }

  ghost function RecoverTargets(targets: map<RunId, Target>, jobs: seq<Job>, now: int): map<RunId, Target> {
    if jobs == [] then targets
    else
      var before := RecoverTargets(targets, jobs[..|jobs| - 1], now);
      if Expired(jobs[|jobs| - 1], now) then RecoverTarget(before) else before
  }

  function RecoverJob(job: Job, now: int): Job {
    if Expired(job, now) then Release(job, JobQueued).(runAfter := now) else job
  }

  function RecoverJobs(jobs: seq<Job>, now: int): seq<Job> {
    seq(|jobs|, i requires 0 <= i < |jobs| => RecoverJob(jobs[i], now))
  }

  ghost function RecoverExpired(line: Line, now: int): Line {
    line.(targets := RecoverTargets(line.targets, line.jobs, now),
          jobs := RecoverJobs(line.jobs, now))
  }

  // ---- The refresh before the sync -------------------------------------------------------

  ghost function ReserveTarget(line: Line, j: nat, token: Token): Change {
    if !Held(line, j, token) then Change(line, NoNote)
    else
      match FindReservable(line.targets, line.jobs[j].targetGeneration)
      case None => Change(line, NoNote)
      case Some(run) =>
        Change(SetTarget(line, run, line.targets[run].(state := Refreshing, outcome := Reserved)), Started(run))
  }

  /** `None`: the target is no longer ours to prepare. */
  datatype Preparation = NotOurs | SkipSync | SyncOnly | Dispatch

  predicate Prepares(line: Line, run: RunId, j: nat, token: Token) {
    run in line.targets && Held(line, j, token) && line.targets[run].outcome.Reserved?
  }

  predicate CoolingDown(line: Line, now: int) {
    line.lastRefreshAt.Some? && line.lastRefreshAt.value + COOLDOWN_SECONDS > now
  }

  function PrepareKind(line: Line, run: RunId, j: nat, token: Token, decrypts: bool, now: int): Preparation {
    if !Prepares(line, run, j, token) then NotOurs
    else if !line.active then SkipSync
    else if !line.refreshSupported || CoolingDown(line, now) then SyncOnly
    else if !decrypts then SkipSync
    else Dispatch
  }

  function PrepareTarget(line: Line, run: RunId, j: nat, token: Token, decrypts: bool, now: int): Change {
    if !Prepares(line, run, j, token) then Change(line, NoNote)
    else
      var t := line.targets[run];
      if !line.active then
        Change(SetTarget(line, run, t.(state := Disconnected, outcome := RefreshFailed,
                                       errorCode := Some("CONNECTION_DISCONNECTED"))), Ended(run))
      else if !line.refreshSupported then
        Change(SetTarget(line, run, t.(state := Syncing, outcome := Unsupported)), NoNote)
      else if CoolingDown(line, now) then
        Change(SetTarget(line, run, t.(state := Syncing, outcome := Cooldown,
                                       nextEligible := Some(line.lastRefreshAt.value + COOLDOWN_SECONDS))), NoNote)
      else if !decrypts then
        Change(SetTarget(line, run, t.(state := ReconnectRequired, outcome := RefreshFailed,
                                       errorCode := Some("CONNECTION_TOKEN_MISSING"))), Ended(run))
      else
        Change(SetTarget(line, run, t.(outcome := Dispatching, nextEligible := Some(now + COOLDOWN_SECONDS)))
               .(lastRefreshAt := Some(now)), NoNote)
  }

  const RECONNECT_CODES: set<string> :=
    {"ITEM_LOGIN_REQUIRED", "PENDING_EXPIRATION", "PENDING_DISCONNECT", "USER_PERMISSION_REVOKED", "ACCESS_NOT_GRANTED"}

  predicate Records(line: Line, run: RunId, j: nat, token: Token) {
    run in line.targets && Held(line, j, token) && line.targets[run].outcome.Dispatching?
  }

  function RecordOutcome(line: Line, run: RunId, j: nat, token: Token, outcome: Outcome, code: Option<string>): Change {
    if !Records(line, run, j, token) then Change(line, NoNote)
    else
      var t := line.targets[run].(outcome := outcome, errorCode := code);
      var noted := if outcome.Unsupported? then line.(refreshSupported := false) else line;
      if outcome.RefreshFailed? && code.Some? && code.value in RECONNECT_CODES then
        Change(SetTarget(noted, run, t.(state := ReconnectRequired)), Ended(run))
      else
        Change(SetTarget(noted, run, t.(state := Syncing)), NoNote)
  }

  /** The refresh ended the target without a sync to follow; the job succeeds as it stands. */
  function FinishWithoutSync(line: Line, j: nat, token: Token): Line {
    if Held(line, j, token) then SetJob(line, j, Release(line.jobs[j], JobSucceeded)) else line
  }

  // ---- The sync commit ---------------------------------------------------------------------

  function CursorText(line: Line): Cursor {
    if line.cursor.Some? then line.cursor.value else ""
  }

  /** The fence, the lease clock, and the cursor are all checked again before the apply. */
  predicate CommitAllowed(line: Line, j: nat, token: Token, attempt: Cursor, now: int) {
    && Held(line, j, token) && line.jobs[j].leaseExpires > now
    && line.active && CursorText(line) == attempt
  }

  function FinalState(outcome: Outcome, counts: Summary): TargetState {
    match outcome
    case Cooldown => InCooldown
    case Unsupported => AutomaticOnly
    case Unknown => OutcomeUnknown
    case RefreshFailed => TargetFailed
    case _ => if counts.added + counts.modified + counts.removed > 0 then Updated else NoChanges
  }

  ghost function CompleteTarget(line: Line, generation: nat, counts: Summary): Change {
    match FindCompletable(line.targets, generation)
    case None => Change(line, NoNote)
    case Some(run) =>
      var t := line.targets[run];
      Change(SetTarget(line, run, t.(counts := counts, state := FinalState(t.outcome, counts))), Ended(run))
  }

  ghost function CommitSync(line: Line, j: nat, token: Token, attempt: Cursor, ending: Cursor,
                            generation: nat, counts: Summary, now: int): Change
  {
    if !CommitAllowed(line, j, token, attempt, now) then Change(line, NoNote)
    else
      var synced := line.(cursor := Some(ending),
                          completed := if generation > 0 then generation else line.completed);
      var done := CompleteTarget(synced, generation, counts);
      var again := synced.requested > generation;
      var job := Release(line.jobs[j], if again then JobQueued else JobSucceeded).(runAfter := now);
      Change(SetJob(done.line, j, job), done.note)
  }

  // ---- Failure -----------------------------------------------------------------------------

  predicate Retryable(job: Job, cls: RetryClass) {
    cls.Transient? && job.attempts <= |BACKOFF_SECONDS|
  }

  /** The entry before the attempt count, capped at the last; index -1 is the last entry. */
  function Delay(attempts: nat): int {
    var last := |BACKOFF_SECONDS|;
    BACKOFF_SECONDS[(if 1 <= attempts <= last then attempts else last) - 1]
  }

  ghost function MarkTargetFailed(line: Line, code: string, reconnect: bool): Change {
    match FindActive(line.targets)
    case None => Change(line, NoNote)
    case Some(run) =>
      Change(SetTarget(line, run, line.targets[run].(state := if reconnect then ReconnectRequired else TargetFailed,
                                                     errorCode := Some(code))), Ended(run))
  }

  ghost function FailJob(line: Line, j: nat, token: Token, code: string, cls: RetryClass, now: int): Change
  {
    if !Held(line, j, token) then Change(line, NoNote)
    else
      var job := line.jobs[j];
      if Retryable(job, cls) then
        Change(SetJob(line, j, Release(job, JobQueued).(runAfter := now + Delay(job.attempts))), NoNote)
      else
        MarkTargetFailed(SetJob(line, j, Release(job, JobFailed)), code, cls.OwnerAction?)
  }

  // ---- Removal -------------------------------------------------------------------------------

  function Disconnect(line: Line): Line {
    line.(active := false, cards := {}, cursor := None)
  }

  function DropRuns(line: Line, runs: set<RunId>): Line {
    line.(targets := line.targets - runs)
  }
}
