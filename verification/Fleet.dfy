/** The whole service: every connection with its workers, the refresh runs and the requests
    mapped to them, the transaction cache, and a clock that never goes back
    (backend/app/services/transaction_refresh_service.py, sync_worker.py, connection_service.py).
    Each action is one database transaction, one provider call, or the passing of time. */
module Fleet {
  import opened Wrappers
  import opened Reconcile
  import opened Provider
  import opened PageLoop
  import opened Lines
  import opened Lanes

  const RETENTION_SECONDS: int := 604800
  const CLEANUP_BATCH: nat := 100

  datatype RunState = RunQueued | RunRunning | RunSucceeded | RunPartial | RunFailed

  datatype Run = Run(owner: OwnerId, state: RunState, expires: int)

  /** An idempotency key of an owner, remembered with the run it stands for. */
  datatype RequestKey = RequestKey(owner: OwnerId, key: string)
  datatype Mapping = Mapping(run: RunId, expires: int)

  datatype Fleet = Fleet(
    now: int, tick: nat, lanes: map<ConnId, Lane>, runs: map<RunId, Run>,
    requests: map<RequestKey, Mapping>, rows: Table, nextRun: RunId)

  predicate RunActive(run: Run) {
    run.state.RunQueued? || run.state.RunRunning?
  }

  /** What the partial unique index on runs demands. */
  ghost predicate OneRunPerOwner(runs: map<RunId, Run>) {
    forall a, b :: a in runs && b in runs && RunActive(runs[a]) && RunActive(runs[b]) && runs[a].owner == runs[b].owner ==> a == b
  }

  // ---- The targets of a run, and the state derived from them ---------------------------------

  /** The targets of one run by connection. */
  type Board = map<ConnId, Target>

  function TargetsOf(lanes: map<ConnId, Lane>, run: RunId): Board {
    map c | c in lanes && run in lanes[c].line.targets :: lanes[c].line.targets[run]
  }

  function ActiveOn(board: Board): set<ConnId> {
    set c | c in board && TargetActive(board[c])
  }

  function AcceptableOn(board: Board): set<ConnId> {
    set c | c in board && Acceptable(board[c])
  }

  function Verdict(board: Board): RunState {
    if |AcceptableOn(board)| == |board| then RunSucceeded
    else if |AcceptableOn(board)| == 0 then RunFailed
    else RunPartial
  }

  function Derive(run: Run, board: Board): Run {
    if board == map[] || ActiveOn(board) != {} then run else run.(state := Verdict(board))
  }

  function AfterNote(runs: map<RunId, Run>, lanes: map<ConnId, Lane>, note: RunNote): map<RunId, Run> {
    match note
    case NoNote => runs
    case Started(run) => if run in runs then runs[run := runs[run].(state := RunRunning)] else runs
    case Ended(run) => if run in runs then runs[run := Derive(runs[run], TargetsOf(lanes, run))] else runs
  }

  // ---- Creating a run ---------------------------------------------------------------------------

  datatype CreateAnswer =
    | Replayed(run: RunId)       // the key is mapped to a retained run
    | Coalesced(run: RunId)      // a run of this owner is under way; the key is mapped to it
    | Created(run: RunId)
    | NoConnections
    | KeyTaken                   // the unique index on owner and key refuses the new mapping

  /** The connections a new run of this owner snapshots. */
  function Snapshot(lanes: map<ConnId, Lane>, owner: OwnerId): set<ConnId> {
    set c | c in lanes && lanes[c].line.owner == owner && lanes[c].line.active
  }

  ghost function FindActiveRun(runs: map<RunId, Run>, owner: OwnerId): (r: Option<RunId>)
    ensures r.Some? ==> r.value in runs && RunActive(runs[r.value]) && runs[r.value].owner == owner
    ensures r.None? ==> forall run :: run in runs ==> !(RunActive(runs[run]) && runs[run].owner == owner)
  {
    if run :| run in runs && RunActive(runs[run]) && runs[run].owner == owner then Some(run) else None
  }

  predicate Remembered(f: Fleet, key: RequestKey) {
    key in f.requests && f.requests[key].run in f.runs && f.requests[key].expires > f.now
  }

  ghost function Answer(f: Fleet, key: RequestKey): CreateAnswer {
    var active := FindActiveRun(f.runs, key.owner);
    if Remembered(f, key) then Replayed(f.requests[key].run)
    else if active.None? && Snapshot(f.lanes, key.owner) == {} then NoConnections
    else if key in f.requests then KeyTaken
    else if active.Some? then Coalesced(active.value)
    else Created(f.nextRun)
  }

  function Opened(lanes: map<ConnId, Lane>, owner: OwnerId, run: RunId, now: int, tick: nat): map<ConnId, Lane> {
    map c | c in lanes :: if lanes[c].line.owner == owner && lanes[c].line.active
                          then TargetStep(lanes[c], run, now, tick) else lanes[c]
  }

  ghost function CreateRun(f: Fleet, key: RequestKey): Fleet {
    match Answer(f, key)
    case Coalesced(run) => f.(requests := f.requests[key := Mapping(run, f.now + RETENTION_SECONDS)])
    case Created(_) => OpenRun(f, key)
    case _ => f
  }

  /** A new run, mapped to its key, with a target on each of the owner's active connections. */
  function OpenRun(f: Fleet, key: RequestKey): Fleet {
    var run, expires := f.nextRun, f.now + RETENTION_SECONDS;
    f.(runs := f.runs[run := Run(key.owner, RunQueued, expires)],
       requests := f.requests[key := Mapping(run, expires)],
       lanes := Opened(f.lanes, key.owner, run, f.now, f.tick),
       nextRun := run + 1)
  }

  // ---- Removal --------------------------------------------------------------------------------------

  predicate Removable(runs: map<RunId, Run>, now: int, run: RunId) {
    run in runs && runs[run].expires <= now && !RunActive(runs[run])
  }

  /** The order of a cleanup: by expiry, then by id. */
  predicate Older(runs: map<RunId, Run>, a: RunId, b: RunId)
    requires a in runs && b in runs
  {
    runs[a].expires < runs[b].expires || (runs[a].expires == runs[b].expires && a <= b)
  }

  /** One cleanup pass takes the oldest removable runs, at most a batch of them. */
  ghost predicate CleanupBatch(runs: map<RunId, Run>, now: int, gone: set<RunId>) {
    && (forall run :: run in gone ==> Removable(runs, now, run))
    && |gone| <= CLEANUP_BATCH
    && (forall run :: run in runs && Removable(runs, now, run) && run !in gone ==>
          |gone| == CLEANUP_BATCH && forall other :: other in gone ==> Older(runs, other, run))
  }

  /** Deleting a run deletes its mappings and its targets with it. */
  function DeleteRuns(f: Fleet, gone: set<RunId>): Fleet {
    f.(runs := f.runs - gone, requests := Forgotten(f.requests, gone), lanes := Dropped(f.lanes, gone))
  }

  function Forgotten(requests: map<RequestKey, Mapping>, gone: set<RunId>): map<RequestKey, Mapping> {
    map k | k in requests && requests[k].run !in gone :: requests[k]
  }

  function Dropped(lanes: map<ConnId, Lane>, gone: set<RunId>): map<ConnId, Lane> {
    map c | c in lanes :: DropStep(lanes[c], gone)
  }

  ghost function Recovered(lanes: map<ConnId, Lane>, now: int): map<ConnId, Lane> {
    map c | c in lanes :: RecoverStep(lanes[c], now)
  }

  function HideCards(rows: Table, cards: set<AccountId>): Table {
    map t | t in rows && rows[t].account !in cards :: rows[t]
  }

  // ---- Actions -----------------------------------------------------------------------------------------

  datatype Action =
    | Wait(seconds: nat)
    | Link(conn: ConnId, owner: OwnerId, cards: set<AccountId>)
    | Work(conn: ConnId, token: Token, step: LaneAction)
    | RecoverAll
    | DisconnectConn(conn: ConnId)
    | Create(key: RequestKey)
    | Cleanup(gone: set<RunId>)

  function Clock(f: Fleet, lease: nat): Moment {
    Moment(f.now, f.tick, lease)
  }

  function NewLane(owner: OwnerId, cards: set<AccountId>, now: int): Lane {
    EnqueueStep(Lane(Line(owner, true, cards, None, 0, 0, None, true, [], map[]), map[], map[], NO_HISTORY), now)
  }

  /** What a commit applies: the pages the worker collected, when the fence lets it through. */
  function AppliedRows(f: Fleet, conn: ConnId, token: Token, step: LaneAction): Table
    requires conn in f.lanes
  {
    var lane := f.lanes[conn];
    if step.Commit? && Commits(lane, token, f.now)
    then ApplyPages(f.rows, lane.pcs[token].pages, lane.line.cards)
    else f.rows
  }

  /** The counts a commit stores are the ones its apply reports. */
  predicate CountsRight(f: Fleet, conn: ConnId, token: Token, step: LaneAction)
    requires conn in f.lanes
  {
    var lane := f.lanes[conn];
    step.Commit? && Commits(lane, token, f.now) ==>
      step.counts == Summarize(f.rows, lane.pcs[token].pages, lane.line.cards)
  }

  ghost predicate CanDo(pv: Provider, lease: nat, f: Fleet, a: Action) {
    match a
    case Wait(_) => true
    case Link(conn, _, cards) => conn !in f.lanes && forall account :: account in cards ==> pv.offers(conn, account)
    case Work(conn, token, step) =>
      && conn in f.lanes && Enabled(pv, conn, f.lanes[conn], token, step, Clock(f, lease))
      && CountsRight(f, conn, token, step)
    case RecoverAll => true
    case DisconnectConn(conn) => conn in f.lanes && f.lanes[conn].line.active
    case Create(_) => true
    case Cleanup(gone) => CleanupBatch(f.runs, f.now, gone)
  }

  ghost function WorkStep(pv: Provider, lease: nat, f: Fleet, conn: ConnId, token: Token, step: LaneAction): Fleet
    requires CanDo(pv, lease, f, Work(conn, token, step))
  {
    var moved := Step(pv, conn, f.lanes[conn], token, step, Clock(f, lease));
    var lanes := f.lanes[conn := moved.lane];
    f.(lanes := lanes, runs := AfterNote(f.runs, lanes, moved.note), rows := AppliedRows(f, conn, token, step))
  }

  ghost function Do(pv: Provider, lease: nat, f: Fleet, a: Action): Fleet
    requires CanDo(pv, lease, f, a)
  {
    match a
    case Wait(seconds) => f.(now := f.now + seconds)
    case Link(conn, owner, cards) => f.(lanes := f.lanes[conn := NewLane(owner, cards, f.now)])
    case Work(conn, token, step) => WorkStep(pv, lease, f, conn, token, step)
    case RecoverAll => f.(lanes := Recovered(f.lanes, f.now))
    case DisconnectConn(conn) =>
      f.(lanes := f.lanes[conn := DisconnectStep(f.lanes[conn])],
         rows := HideCards(f.rows, f.lanes[conn].line.cards))
    case Create(key) => CreateRun(f, key)
    case Cleanup(gone) => DeleteRuns(f, gone)
  }

  ghost function Next(pv: Provider, lease: nat, f: Fleet, a: Action): Fleet
    requires CanDo(pv, lease, f, a)
  {
    Do(pv, lease, f, a).(tick := f.tick + 1)
  }

  const START: Fleet := Fleet(0, 0, map[], map[], map[], map[], 0)

  // ---- Runs of the service ------------------------------------------------------------------------------

  ghost predicate StepOf(pv: Provider, lease: nat, trace: seq<Fleet>, acts: seq<Action>, n: nat)
    requires |trace| == |acts| + 1
  {
    n < |acts| ==> CanDo(pv, lease, trace[n], acts[n]) && trace[n + 1] == Next(pv, lease, trace[n], acts[n])
  }

  /** A finite run: the actions taken one after the other from the empty service. */
  ghost predicate IsRun(pv: Provider, lease: nat, trace: seq<Fleet>, acts: seq<Action>) {
    && |trace| == |acts| + 1 && trace[0] == START.(now := trace[0].now)
    && forall n :: StepOf(pv, lease, trace, acts, n)
  }
}
