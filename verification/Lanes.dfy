/** One connection with the workers that hold or held a claim on it: every worker is a
    program counter with locals, and every step is one database transaction or one provider
    call of `run_once` (backend/app/services/sync_worker.py). Steps of different workers,
    and of workers whose lease was taken away, interleave freely. */
module Lanes {
  import opened Wrappers
  import opened Reconcile
  import opened Provider
  import opened PageLoop
  import opened Lines

  /** Where a worker stands between two transactions or provider calls. `firstCall` and `asked`
      are the step number of the first page request of the attempt. */
  datatype Pc =
    | Claimed
    | AtPrepare(run: RunId)
    | AtRefreshCall(run: RunId)
    | AtRecord(run: RunId, outcome: Outcome, code: Option<string>, goOn: bool, returned: nat)
    | AtFinish
    | AtSync
    | AtPages(loop: Loop, firstCall: Option<nat>)
    | AtCommit(attempt: Cursor, pages: seq<SyncPage>, ending: Cursor, asked: nat)
    | AtFailure(failure: string, cls: RetryClass)
    | Gone

  /** A claim: the job, the generation read with it, and the step at which it was made. */
  datatype JobClaim = JobClaim(job: nat, generation: nat, claimed: nat)

  datatype DispatchRecord = DispatchRecord(run: RunId, at: int)
  datatype CommitRecord = CommitRecord(token: Token, starting: Cursor, ending: Cursor, generation: nat)

  /** What happened so far; nothing in the steps reads it. Steps are numbered by a counter
      that every step advances.
      - created: when each target was created;
      - returned: when the refresh call of a target came back with its recorded outcome;
      - dispatches, commits: the log of each, oldest first;
      - refusedAfter: the number of dispatches when "unsupported" was recorded;
      - dropped: the requested generation when work last ended without covering it;
      - retries: for each job, the attempt numbers after which it was put back by a failure;
      - renewed: when the running lease was last granted. */
  datatype History = History(
    created: map<RunId, nat>, returned: map<RunId, nat>,
    dispatches: seq<DispatchRecord>, commits: seq<CommitRecord>,
    refusedAfter: Option<nat>, dropped: nat, retries: seq<seq<nat>>, renewed: int)

  /** Workers are named by the token of their claim: `claims` holds what they claimed and
      `pcs` where they stand. */
  datatype Lane = Lane(line: Line, claims: map<Token, JobClaim>, pcs: map<Token, Pc>, hist: History)

  datatype Moved = Moved(lane: Lane, note: RunNote)

  const NO_HISTORY: History := History(map[], map[], [], [], None, 0, [], 0)

  predicate Known(lane: Lane, token: Token) {
    token in lane.claims && token in lane.pcs
  }

  function At(lane: Lane, token: Token, pc: Pc): Lane {
    lane.(pcs := lane.pcs[token := pc])
  }

  /** Does this worker still hold its job? */
  predicate Holds(lane: Lane, token: Token) {
    token in lane.claims && Held(lane.line, lane.claims[token].job, token)
  }

  // ---- Steps nobody claims for -----------------------------------------------------------


  function EnqueueStep(lane: Lane, now: int): Lane
    requires lane.line.active
  {
    var line := EnqueueSync(lane.line, now);
    lane.(line := line,
          hist := lane.hist.(retries := if |line.jobs| > |lane.line.jobs| then lane.hist.retries + [[]] else lane.hist.retries))
  }

  function TargetStep(lane: Lane, run: RunId, now: int, tick: nat): Lane
    requires lane.line.active
  {
    var queued := EnqueueStep(lane, now);
    queued.(line := AddTarget(lane.line, run, now),
            hist := queued.hist.(created := queued.hist.created[run := tick]))
  }

  ghost function RecoverStep(lane: Lane, now: int): Lane {
    lane.(line := RecoverExpired(lane.line, now))
  }

  function DisconnectStep(lane: Lane): Lane {
    lane.(line := Disconnect(lane.line))
  }

  function DropStep(lane: Lane, runs: set<RunId>): Lane {
    lane.(line := DropRuns(lane.line, runs))
  }

  // ---- Worker steps -----------------------------------------------------------------------

  predicate Claimable(lane: Lane, j: nat, token: Token, now: int) {
    && j < |lane.line.jobs| && lane.line.jobs[j].state.JobQueued? && lane.line.jobs[j].runAfter <= now
    && token !in lane.claims && token !in lane.pcs
  }

  function ClaimStep(lane: Lane, j: nat, token: Token, now: int, lease: nat, tick: nat): Lane
    requires Claimable(lane, j, token, now)
  {
    var line := ClaimJob(lane.line, j, token, now, lease);
    Lane(line, lane.claims[token := JobClaim(j, line.jobs[j].targetGeneration, tick)], lane.pcs[token := Claimed],
         lane.hist.(renewed := now))
  }

  function HeartbeatStep(lane: Lane, token: Token, now: int, lease: nat): Lane
    requires Known(lane, token)
  {
    var line := RenewLease(lane.line, lane.claims[token].job, token, now, lease);
    lane.(line := line, hist := if line == lane.line then lane.hist else lane.hist.(renewed := now))
  }

  ghost function ReserveStep(lane: Lane, token: Token): Moved
    requires Known(lane, token) && lane.pcs[token].Claimed?
  {
    var change := ReserveTarget(lane.line, lane.claims[token].job, token);
    var pc := if change.note.Started? then AtPrepare(change.note.run) else AtSync;
    Moved(At(lane.(line := change.line), token, pc), change.note)
  }

  function PrepareStep(lane: Lane, token: Token, decrypts: bool, now: int): Moved
    requires Known(lane, token) && lane.pcs[token].AtPrepare?
  {
    var j, pc := lane.claims[token].job, lane.pcs[token];
    var change := PrepareTarget(lane.line, pc.run, j, token, decrypts, now);
    var kind := PrepareKind(lane.line, pc.run, j, token, decrypts, now);
    var next := match kind
                case NotOurs => AtSync
                case SkipSync => AtFinish
                case SyncOnly => AtSync
                case Dispatch => AtRefreshCall(pc.run);
    var hist := if kind.Dispatch?
                then lane.hist.(dispatches := lane.hist.dispatches + [DispatchRecord(pc.run, now)])
                else lane.hist;
    Moved(At(lane.(line := change.line, hist := hist), token, next), change.note)
  }

  /** What the provider's refresh call can come back with. */
  datatype RefreshReply = RefreshAccepted | RefreshUnsupported | RefreshTimeout | RefreshRefused(code: string, cls: RetryClass)

  function RefreshStep(lane: Lane, token: Token, reply: RefreshReply, tick: nat): Lane
    requires Known(lane, token) && lane.pcs[token].AtRefreshCall?
  {
    var run := lane.pcs[token].run;
    At(lane, token, match reply
                    case RefreshAccepted => AtRecord(run, Accepted, None, true, tick)
                    case RefreshUnsupported => AtRecord(run, Unsupported, Some("PRODUCTS_NOT_SUPPORTED"), true, tick)
                    case RefreshTimeout => AtRecord(run, Unknown, Some("REFRESH_OUTCOME_UNKNOWN"), true, tick)
                    case RefreshRefused(code, cls) => AtRecord(run, RefreshFailed, Some(code), !cls.OwnerAction?, tick))
  }

  function RecordStep(lane: Lane, token: Token): Moved
    requires Known(lane, token) && lane.pcs[token].AtRecord?
  {
    var j, pc := lane.claims[token].job, lane.pcs[token];
    if !Records(lane.line, pc.run, j, token) then Moved(At(lane, token, Gone), NoNote)
    else
      var change := RecordOutcome(lane.line, pc.run, j, token, pc.outcome, pc.code);
      var hist := lane.hist.(
        returned := lane.hist.returned[pc.run := pc.returned],
        refusedAfter := if pc.outcome.Unsupported? then Some(|lane.hist.dispatches|) else lane.hist.refusedAfter);
      Moved(At(lane.(line := change.line, hist := hist), token, if pc.goOn then AtSync else AtFinish), change.note)
  }

  function FinishStep(lane: Lane, token: Token): Lane
    requires Known(lane, token) && lane.pcs[token].AtFinish?
  {
    var line := FinishWithoutSync(lane.line, lane.claims[token].job, token);
    At(lane.(line := line,
             hist := if Holds(lane, token) then lane.hist.(dropped := lane.line.requested) else lane.hist), token, Gone)
  }

  /** Read the job, the connection and its cursor; nothing is written. */
  function SyncStep(lane: Lane, token: Token, decrypts: bool): Lane
    requires Known(lane, token) && lane.pcs[token].AtSync?
  {
    At(lane, token,
       if !Holds(lane, token) then Gone
       else if !lane.line.active then AtFailure("CONNECTION_NOT_ACTIVE", Permanent)
       else if !decrypts then AtFailure("CONNECTION_TOKEN_MISSING", Permanent)
       else AtPages(Start(CursorText(lane.line)), None))
  }

  /** One provider call of the page loop, or the refusal to make a 201st. */
  function PageStep(lane: Lane, token: Token, reply: Reply, tick: nat): Lane
    requires Known(lane, token) && lane.pcs[token].AtPages?
  {
    var pc := lane.pcs[token];
    var first := if pc.firstCall.Some? then pc.firstCall.value else tick;
    var step := if pc.loop.guard >= MAX_PAGES_PER_ATTEMPT then Stop(LIMIT_REACHED) else Turn(pc.loop, reply);
    At(lane, token, match step
                    case More(loop) => AtPages(loop, Some(first))
                    case Stop(Done(pages, ending)) => AtCommit(pc.loop.attempt, pages, ending, first)
                    case Stop(Failed(code, cls)) => AtFailure(code, cls))
  }

  predicate Commits(lane: Lane, token: Token, now: int) {
    && Known(lane, token) && lane.pcs[token].AtCommit?
    && CommitAllowed(lane.line, lane.claims[token].job, token, lane.pcs[token].attempt, now)
  }

  /** The apply transaction; `counts` is what the apply counted on the shared table. */
  ghost function CommitStep(lane: Lane, token: Token, counts: Summary, now: int): Moved
    requires Known(lane, token) && lane.pcs[token].AtCommit?
  {
    var j, pc := lane.claims[token].job, lane.pcs[token];
    if !Commits(lane, token, now) then Moved(At(lane, token, Gone), NoNote)
    else
      var change := CommitSync(lane.line, j, token, pc.attempt, pc.ending, lane.claims[token].generation, counts, now);
      var hist := lane.hist.(
        commits := lane.hist.commits + [CommitRecord(token, pc.attempt, pc.ending, lane.claims[token].generation)]);
      Moved(At(lane.(line := change.line, hist := hist), token, Gone), change.note)
  }

  /** Any local exception the loop does not know, at any point before the failure is recorded. */
  function ExceptionStep(lane: Lane, token: Token): Lane
    requires Known(lane, token)
  {
    if lane.pcs[token].Gone? then lane else At(lane, token, AtFailure("WORKER_ERROR", Transient))
  }

  function CrashStep(lane: Lane, token: Token): Lane
    requires Known(lane, token)
  {
    At(lane, token, Gone)
  }

  ghost function FailureStep(lane: Lane, token: Token, now: int): Moved
    requires Known(lane, token) && lane.pcs[token].AtFailure?
  {
    var j, pc := lane.claims[token].job, lane.pcs[token];
    if !Holds(lane, token) then Moved(At(lane, token, Gone), NoNote)
    else
      var job := lane.line.jobs[j];
      var change := FailJob(lane.line, j, token, pc.failure, pc.cls, now);
      var hist :=
        if Retryable(job, pc.cls) then
          (if j < |lane.hist.retries|
           then lane.hist.(retries := lane.hist.retries[j := lane.hist.retries[j] + [job.attempts]])
           else lane.hist)
        else lane.hist.(dropped := lane.line.requested);
      Moved(At(lane.(line := change.line, hist := hist), token, Gone), change.note)
  }

  // ---- All steps that touch one lane only ---------------------------------------------------

  datatype LaneAction =
    | Enqueue
    | Claim(job: nat) | Heartbeat | Reserve | Prepare(decrypts: bool) | Refresh(reply: RefreshReply) | Record
    | Finish | BeginSync(decrypts: bool) | CallPage(page: Reply) | Commit(counts: Summary)
    | Exception | Crash | RecordFailure

  datatype Moment = Moment(now: int, tick: nat, lease: nat)

  /** When a step can be taken: the worker stands where the step begins. */
  ghost predicate Enabled(pv: Provider, c: ConnId, lane: Lane, token: Token, a: LaneAction, m: Moment) {
    var here := Known(lane, token);
    match a
    case Enqueue => lane.line.active
    case Claim(j) => Claimable(lane, j, token, m.now)
    case Heartbeat => here
    case Reserve => here && lane.pcs[token].Claimed?
    case Prepare(_) => here && lane.pcs[token].AtPrepare?
    case Refresh(_) => here && lane.pcs[token].AtRefreshCall?
    case Record => here && lane.pcs[token].AtRecord?
    case Finish => here && lane.pcs[token].AtFinish?
    case BeginSync(_) => here && lane.pcs[token].AtSync?
    case CallPage(reply) =>
      && here && lane.pcs[token].AtPages?
      && (reply.Page? ==> PageOk(pv, c, lane.pcs[token].loop.request, reply.page))
    case Commit(_) => here && lane.pcs[token].AtCommit?
    case Exception => here
    case Crash => here
    case RecordFailure => here && lane.pcs[token].AtFailure?
  }

  ghost function Step(pv: Provider, c: ConnId, lane: Lane, token: Token, a: LaneAction, m: Moment): Moved
    requires Enabled(pv, c, lane, token, a, m)
  {
    match a
    case Enqueue => Moved(EnqueueStep(lane, m.now), NoNote)
    case Claim(j) => Moved(ClaimStep(lane, j, token, m.now, m.lease, m.tick), NoNote)
    case Heartbeat => Moved(HeartbeatStep(lane, token, m.now, m.lease), NoNote)
    case Reserve => ReserveStep(lane, token)
    case Prepare(decrypts) => PrepareStep(lane, token, decrypts, m.now)
    case Refresh(reply) => Moved(RefreshStep(lane, token, reply, m.tick), NoNote)
    case Record => RecordStep(lane, token)
    case Finish => Moved(FinishStep(lane, token), NoNote)
    case BeginSync(decrypts) => Moved(SyncStep(lane, token, decrypts), NoNote)
    case CallPage(reply) => Moved(PageStep(lane, token, reply, m.tick), NoNote)
    case Commit(counts) => CommitStep(lane, token, counts, m.now)
    case Exception => Moved(ExceptionStep(lane, token), NoNote)
    case Crash => Moved(CrashStep(lane, token), NoNote)
    case RecordFailure => FailureStep(lane, token, m.now)
  }
}
