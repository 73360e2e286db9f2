/** The tables and the transactions on them, as the services run them. Every method is one
    committed transaction (or a helper inside one) and is proved against the step functions of
    the protocol; `View` is what the tables hold. */
module Database {
  import opened Wrappers
  import opened Reconcile
  import opened Provider
  import opened PageLoop
  import opened Lines
  import opened LaneInvariant
  import opened Fleet
  import opened FleetInvariant
  import opened Spelled

  datatype Tables = Tables(
    lines: map<ConnId, Line>, runs: map<RunId, Run>, requests: map<RequestKey, Mapping>, rows: Table, nextRun: RunId)

  // ---- The transactions as functions -------------------------------------------------------------

  function BoardOf(lines: map<ConnId, Line>, run: RunId): Board {
    map c | c in lines && run in lines[c].targets :: lines[c].targets[run]
  }

  function NoteRuns(runs: map<RunId, Run>, lines: map<ConnId, Line>, note: RunNote): map<RunId, Run> {
    match note
    case NoNote => runs
    case Started(run) => if run in runs then runs[run := runs[run].(state := RunRunning)] else runs
    case Ended(run) => if run in runs then runs[run := Derive(runs[run], BoardOf(lines, run))] else runs
  }

  /** One connection changes, and the run of its target is told. */
  function Told(t: Tables, c: ConnId, change: Change): Tables {
    var lines := t.lines[c := change.line];
    t.(lines := lines, runs := NoteRuns(t.runs, lines, change.note))
  }

  function Edited(t: Tables, c: ConnId, line: Line): Tables {
    t.(lines := t.lines[c := line])
  }

  predicate Due(t: Tables, c: ConnId, j: int, now: int) {
    c in t.lines && 0 <= j < |t.lines[c].jobs| && t.lines[c].jobs[j].state.JobQueued? && t.lines[c].jobs[j].runAfter <= now
  }

  function ActiveOf(lines: map<ConnId, Line>, owner: OwnerId): set<ConnId> {
    set c | c in lines && lines[c].owner == owner && lines[c].active
  }

  ghost function AnswerTo(t: Tables, key: RequestKey, now: int): CreateAnswer {
    var active := FindActiveRun(t.runs, key.owner);
    if key in t.requests && t.requests[key].run in t.runs && t.requests[key].expires > now
    then Replayed(t.requests[key].run)
    else if active.None? && ActiveOf(t.lines, key.owner) == {} then NoConnections
    else if key in t.requests then KeyTaken
    else if active.Some? then Coalesced(active.value)
    else Created(t.nextRun)
  }

  function WithTargets(lines: map<ConnId, Line>, some: set<ConnId>, run: RunId, now: int): map<ConnId, Line> {
    map c | c in lines :: if c in some && lines[c].active then AddTarget(lines[c], run, now) else lines[c]
  }

  ghost function CreateOf(t: Tables, key: RequestKey, now: int): Tables {
    match AnswerTo(t, key, now)
    case Coalesced(run) => t.(requests := t.requests[key := Mapping(run, now + RETENTION_SECONDS)])
    case Created(_) => NewRunOf(t, key, now)
    case _ => t
  }

  function NewRunOf(t: Tables, key: RequestKey, now: int): Tables {
    var run, expires := t.nextRun, now + RETENTION_SECONDS;
    Tables(WithTargets(t.lines, ActiveOf(t.lines, key.owner), run, now), t.runs[run := Run(key.owner, RunQueued, expires)],
           t.requests[key := Mapping(run, expires)], t.rows, run + 1)
  }

  /** What the sync transaction of a worker leaves: nothing if the fence or the cursor check fails. */
  ghost function SyncOf(t: Tables, c: ConnId, j: nat, token: Token, attempt: Cursor, pages: seq<SyncPage>, ending: Cursor,
                        generation: nat, now: int): Tables
    requires c in t.lines
  {
    var line := t.lines[c];
    if !CommitAllowed(line, j, token, attempt, now) then t
    else
      var counts := Summarize(t.rows, pages, line.cards);
      Told(t, c, CommitSync(line, j, token, attempt, ending, generation, counts, now))
      .(rows := ApplyPages(t.rows, pages, line.cards))
  }

  ghost function RecoveryOf(t: Tables, now: int): Tables {
    t.(lines := map c | c in t.lines :: Lines.RecoverExpired(t.lines[c], now))
  }

  function DisconnectOf(t: Tables, c: ConnId): Tables
    requires c in t.lines
  {
    Edited(t, c, Lines.Disconnect(t.lines[c])).(rows := HideCards(t.rows, t.lines[c].cards))
  }

  function RemovalOf(t: Tables, gone: set<RunId>): Tables {
    t.(runs := t.runs - gone, requests := Forgotten(t.requests, gone),
       lines := map c | c in t.lines :: DropRuns(t.lines[c], gone))
  }

  // ---- What the tables always satisfy -------------------------------------------------------------

  /** A run with a target under way is under way. */
  ghost predicate TargetsGoOn(targets: map<RunId, Target>, runs: map<RunId, Run>) {
    forall run :: run in targets && TargetActive(targets[run]) ==> run in runs && RunActive(runs[run])
  }

  /** One target under way at most; every target's run is there and belongs to the same owner. */
  ghost predicate LineFits(line: Line, runs: map<RunId, Run>) {
    OneActive(line.targets) && TargetsFiled(line, runs) && TargetsGoOn(line.targets, runs)
  }

  ghost predicate FitsAt(lines: map<ConnId, Line>, runs: map<RunId, Run>, c: ConnId) {
    c in lines ==> LineFits(lines[c], runs)
  }

  ghost predicate LinesFit(lines: map<ConnId, Line>, runs: map<RunId, Run>) {
    forall c :: FitsAt(lines, runs, c)
  }

  ghost predicate RunsFit(runs: map<RunId, Run>, nextRun: RunId) {
    OneRunPerOwner(runs) && forall run :: run in runs ==> run < nextRun
  }

  ghost predicate TablesFit(t: Tables) {
    LinesFit(t.lines, t.runs) && RunsFit(t.runs, t.nextRun) && RequestsOk(t.requests, t.runs)
  }

  lemma LineChanges(lines: map<ConnId, Line>, runs: map<RunId, Run>, c: ConnId, line: Line)
    requires LinesFit(lines, runs) && LineFits(line, runs)
    ensures LinesFit(lines[c := line], runs)
  {
    var after := lines[c := line];
    forall d
      ensures FitsAt(after, runs, d)
    {
      assert FitsAt(lines, runs, d);
    }
  }

  /** Jobs, cursors and generations do not matter. */
  lemma SameTargets(lines: map<ConnId, Line>, runs: map<RunId, Run>, c: ConnId, line: Line)
    requires LinesFit(lines, runs) && c in lines && line.targets == lines[c].targets && line.owner == lines[c].owner
    ensures LinesFit(lines[c := line], runs)
  {
    assert FitsAt(lines, runs, c);
    LineChanges(lines, runs, c, line);
  }

  lemma TargetMoves(lines: map<ConnId, Line>, runs: map<RunId, Run>, c: ConnId, run: RunId, t: Target)
    requires LinesFit(lines, runs) && c in lines && run in lines[c].targets
    requires TargetActive(t) ==> TargetActive(lines[c].targets[run])
    ensures LinesFit(lines[c := SetTarget(lines[c], run, t)], runs)
  {
    assert FitsAt(lines, runs, c);
    LineChanges(lines, runs, c, SetTarget(lines[c], run, t));
  }

  lemma TargetComes(lines: map<ConnId, Line>, runs: map<RunId, Run>, c: ConnId, run: RunId, t: Target)
    requires LinesFit(lines, runs) && c in lines && FindActive(lines[c].targets).None?
    requires run in runs && RunActive(runs[run]) && runs[run].owner == lines[c].owner
    ensures LinesFit(lines[c := SetTarget(lines[c], run, t)], runs)
  {
    assert FitsAt(lines, runs, c);
    LineChanges(lines, runs, c, SetTarget(lines[c], run, t));
  }

  /** A run may start at any time, and end once none of its targets is under way. */
  lemma RunMoves(lines: map<ConnId, Line>, runs: map<RunId, Run>, nextRun: RunId, run: RunId, state: RunState)
    requires LinesFit(lines, runs) && RunsFit(runs, nextRun) && run in runs
    requires var after := runs[run].(state := state);
             if RunActive(after) then RunActive(runs[run]) else ActiveOn(BoardOf(lines, run)) == {}
    ensures LinesFit(lines, runs[run := runs[run].(state := state)]) && RunsFit(runs[run := runs[run].(state := state)], nextRun)
  {
    var after := runs[run := runs[run].(state := state)];
    forall c
      ensures FitsAt(lines, after, c)
    {
      assert FitsAt(lines, runs, c);
      if c in lines && run in lines[c].targets && TargetActive(lines[c].targets[run]) {
        assert c in ActiveOn(BoardOf(lines, run));
      }
    }
  }

  /** No connection of an owner without a run has a target under way. */
  lemma OwnerIsFree(lines: map<ConnId, Line>, runs: map<RunId, Run>, owner: OwnerId, c: ConnId)
    requires LinesFit(lines, runs) && FindActiveRun(runs, owner).None? && c in lines && lines[c].owner == owner
    ensures FindActive(lines[c].targets).None?
  {
    assert FitsAt(lines, runs, c);
  }

  lemma RunComes(t: Tables, key: RequestKey, expires: int)
    requires TablesFit(t) && FindActiveRun(t.runs, key.owner).None?
    ensures TablesFit(t.(runs := t.runs[t.nextRun := Run(key.owner, RunQueued, expires)],
                         requests := t.requests[key := Mapping(t.nextRun, expires)], nextRun := t.nextRun + 1))
  {
    var runs := t.runs[t.nextRun := Run(key.owner, RunQueued, expires)];
    forall c
      ensures FitsAt(t.lines, runs, c)
    {
      assert FitsAt(t.lines, t.runs, c);
    }
  }

  lemma RunsGo(t: Tables, gone: set<RunId>)
    requires TablesFit(t)
    ensures TablesFit(RemovalOf(t, gone))
  {
    var after := RemovalOf(t, gone);
    forall c
      ensures FitsAt(after.lines, after.runs, c)
    {
      assert FitsAt(t.lines, t.runs, c);
    }
  }

  // ---- The transactions as the services run them ------------------------------------------------------

  class Database {
    var lines: map<ConnId, Line>
    var runs: map<RunId, Run>
    var requests: map<RequestKey, Mapping>
    var nextRun: RunId
    const cache: TransactionCache

    ghost function View(): Tables
      reads this, cache
    {
      Tables(lines, runs, requests, cache.rows, nextRun)
    }

    /** One target under way per connection and one run per owner, as the unique indexes demand;
        targets and mappings belong to runs that are there and have their owner; a run with a target
        under way is under way; run numbers are used once. */
    ghost predicate Valid()
      reads this
    {
      TablesFit(Tables(lines, runs, requests, map[], nextRun))
    }

    constructor ()
      ensures Valid() && fresh(cache) && View() == Tables(map[], map[], map[], map[], 0)
    {
      lines, runs, requests, nextRun := map[], map[], map[], 0;
      cache := new TransactionCache(map[]);
    }

    // -- sync_service.py: one coalesced job per connection

    method ActiveJobFor(c: ConnId) returns (found: Option<nat>)
      requires c in lines
      ensures found == ActiveJob(lines[c].jobs)
    {
      var jobs := lines[c].jobs;
      for i := 0 to |jobs|
        invariant ActiveJob(jobs[..i]) == None
      {
        assert jobs[..i + 1][..i] == jobs[..i];
        if JobActive(jobs[i]) {
          FirstActive(jobs, i);
          return Some(i);
        }
      }
      assert jobs[..|jobs|] == jobs;
      return None;
    }

    /** `Err` stands for CONNECTION_NOT_ACTIVE. */
    method EnqueueSync(c: ConnId, now: int) returns (result: Result<nat, string>)
      requires Valid()
      modifies `lines
      ensures c in old(lines) && old(lines)[c].active ==>
                lines == old(lines)[c := Lines.EnqueueSync(old(lines)[c], now)] && result == Ok(lines[c].requested)
      ensures !(c in old(lines) && old(lines)[c].active) ==> lines == old(lines) && result == Err("CONNECTION_NOT_ACTIVE")
      ensures result.Ok? ==> c in old(lines) && c in lines && RequestSays(old(lines)[c], lines[c], now)
      ensures Valid()
    {
      if c !in lines || !lines[c].active {
        return Err("CONNECTION_NOT_ACTIVE");
      }
      SameTargets(lines, runs, c, Lines.EnqueueSync(lines[c], now));
      RequestIsSpelled(lines[c], now);
      var generation := lines[c].requested + 1;
      lines := lines[c := lines[c].(requested := generation)];
      var existing := ActiveJobFor(c);
      var jobs := lines[c].jobs;
      if existing.Some? {
        jobs := jobs[existing.value := jobs[existing.value].(targetGeneration := generation)];
      } else {
        jobs := jobs + [Job(JobQueued, 0, generation, now, None, 0)];
      }
      lines := lines[c := lines[c].(jobs := jobs)];
      assert lines == old(lines)[c := Lines.EnqueueSync(old(lines)[c], now)];
      return Ok(generation);
    }

    // -- connection_service.py: a new connection

    /** A login that was exchanged and checked: the connection with its cards and its first job. */
    method LinkConnection(c: ConnId, owner: OwnerId, cards: set<AccountId>, now: int)
      requires Valid() && c !in lines
      modifies this
      ensures View() == Edited(old(View()), c, NewLane(owner, cards, now).line)
      ensures lines == old(lines)[c := Line(owner, true, cards, None, 1, 0, None, true, [Job(JobQueued, 0, 1, now, None, 0)], map[])]
      ensures Valid()
    {
      var empty := Line(owner, true, cards, None, 0, 0, None, true, [], map[]);
      LineChanges(lines, runs, c, empty);
      lines := lines[c := empty];
      assert [] + [Job(JobQueued, 0, 1, now, None, 0)] == [Job(JobQueued, 0, 1, now, None, 0)];
      var generation := EnqueueSync(c, now);
    }

    // -- sync_worker.py: claims, leases and recovery

    /** One due job, the earliest first. */
    method FirstDue(now: int) returns (due: Option<(ConnId, nat)>)
      ensures due.None? ==> forall c, j :: !Due(View(), c, j, now)
      ensures due.Some? ==> Due(View(), due.value.0, due.value.1, now)
      ensures due.Some? ==> forall c, j :: Due(View(), c, j, now) ==>
                lines[due.value.0].jobs[due.value.1].runAfter <= lines[c].jobs[j].runAfter
    {
      due := None;
      var todo := lines.Keys;
      while todo != {}
        invariant todo <= lines.Keys
        invariant Earliest(View(), lines.Keys - todo, due, now)
        decreases todo
      {
        var c :| c in todo;
        todo := todo - {c};
        var jobs := lines[c].jobs;
        for j := 0 to |jobs|
          invariant EarliestSoFar(View(), lines.Keys - todo - {c}, c, j, due, now)
        {
          if jobs[j].state.JobQueued? && jobs[j].runAfter <= now &&
             (due.None? || jobs[j].runAfter < lines[due.value.0].jobs[due.value.1].runAfter)
          {
            due := Some((c, j));
          }
        }
      }
    }

    method ClaimNext(token: Token, now: int, lease: nat) returns (claim: Option<Claim>)
      requires Valid()
      modifies this
      ensures claim.None? ==> View() == old(View()) && forall c, j :: !Due(View(), c, j, now)
      ensures claim.Some? ==>
                var (c, j) := (claim.value.conn, claim.value.job);
                && Due(old(View()), c, j, now) && View() == Edited(old(View()), c, ClaimJob(old(lines)[c], j, token, now, lease))
                && claim.value.generation == old(lines)[c].jobs[j].targetGeneration
                && c in lines && ClaimSays(old(lines)[c], lines[c], j, token, now, lease)
                && forall d, k :: Due(old(View()), d, k, now) ==> old(lines)[c].jobs[j].runAfter <= old(lines)[d].jobs[k].runAfter
      ensures Valid()
    {
      var due := FirstDue(now);
      if due.None? {
        return None;
      }
      var (c, j) := due.value;
      var job := lines[c].jobs[j];
      var taken := job.(state := JobRunning, attempts := job.attempts + 1, leaseToken := Some(token), leaseExpires := now + lease);
      SameTargets(lines, runs, c, SetJob(lines[c], j, taken));
      lines := lines[c := SetJob(lines[c], j, taken)];
      return Some(Claim(c, j, taken.targetGeneration));
    }

    method Heartbeat(c: ConnId, j: nat, token: Token, now: int, lease: nat) returns (renewed: bool)
      requires Valid() && c in lines
      modifies this
      ensures View() == Edited(old(View()), c, RenewLease(old(lines)[c], j, token, now, lease))
      ensures renewed <==> Held(old(lines)[c], j, token) && old(lines)[c].jobs[j].leaseExpires > now
      ensures c in lines && HeartbeatSays(old(lines)[c], lines[c], j, token, now, lease)
      ensures Valid()
    {
      SameTargets(lines, runs, c, RenewLease(lines[c], j, token, now, lease));
      renewed := Held(lines[c], j, token) && lines[c].jobs[j].leaseExpires > now;
      if renewed {
        lines := lines[c := SetJob(lines[c], j, lines[c].jobs[j].(leaseExpires := now + lease))];
      }
      assert lines == old(lines)[c := RenewLease(old(lines)[c], j, token, now, lease)];
    }

    /** Before a lease is given up, the target it was working on goes back to where a retry is safe. */
    method RecoverTargetFor(c: ConnId)
      requires Valid() && c in lines
      modifies `lines
      ensures lines == old(lines)[c := old(lines)[c].(targets := RecoverTarget(old(lines)[c].targets))]
      ensures Valid()
    {
      var targets := lines[c].targets;
      if run :| run in targets && CanRecover(targets[run]) {
        RecoverableIs(lines, runs, c, run);
        var t := targets[run];
        if t.outcome.Dispatching? {
          MoveTarget(c, run, t.(outcome := Unknown, state := Syncing, errorCode := Some("REFRESH_OUTCOME_UNKNOWN")));
        } else if t.outcome.Reserved? {
          MoveTarget(c, run, t.(outcome := NotAttempted, state := TargetQueued));
        }
      } else {
        assert FindRecoverable(targets).None?;
      }
      assert lines == old(lines)[c := old(lines)[c].(targets := RecoverTarget(old(lines)[c].targets))];
    }

    method RecoverTargetsOf(c: ConnId, now: int)
      requires Valid() && c in lines
      modifies `lines
      ensures lines == old(lines)[c := Recovering(old(lines)[c], |old(lines)[c].jobs|, now)]
      ensures Valid()
    {
      var jobs := lines[c].jobs;
      for i := 0 to |jobs|
        invariant Valid() && lines == old(lines)[c := Recovering(old(lines)[c], i, now)]
      {
        RecoveringOn(old(lines)[c], i, now);
        if Expired(jobs[i], now) {
          RecoverTargetFor(c);
        }
        assert lines == old(lines)[c := Recovering(old(lines)[c], i + 1, now)];
      }
    }

    method RecoverAllTargets(now: int)
      requires Valid()
      modifies `lines
      ensures lines.Keys == old(lines).Keys && RecoveredBut(old(lines), lines, {}, now)
      ensures Valid()
    {
      var todo := lines.Keys;
      while todo != {}
        invariant Valid() && todo <= lines.Keys == old(lines).Keys
        invariant RecoveredBut(old(lines), lines, todo, now)
        decreases todo
      {
        var c :| c in todo;
        assert todo == todo - {c} + {c};
        todo := todo - {c};
        OneMoreRecovered(old(lines), lines, todo, c, now);
        RecoverTargetsOf(c, now);
      }
    }

    /** All abandoned work goes back to the queue. */
    method RecoverExpired(now: int)
      requires Valid()
      modifies `lines
      ensures View() == RecoveryOf(old(View()), now)
      ensures lines.Keys == old(lines).Keys && forall c :: c in old(lines) ==> RecoverySays(old(lines)[c], lines[c], now)
      ensures Valid()
    {
      LinesRecover(lines, runs, now);
      RecoverAllTargets(now);
      AllRecovered(old(View()), lines, now);
      AllSameTargets(lines, runs, now);
      lines := AllRequeued(lines, now);
    }

    // -- transaction_refresh_service.py: runs and targets

    /** How many targets a run has, how many are under way, and how many ended well. */
    method CountTargets(run: RunId) returns (total: nat, active: nat, acceptable: nat)
      ensures var board := BoardOf(lines, run);
              total == |board| && active == |ActiveOn(board)| && acceptable == |AcceptableOn(board)|
    {
      total, active, acceptable := 0, 0, 0;
      var todo := lines.Keys;
      while todo != {}
        invariant todo <= lines.Keys
        invariant total == |Who(lines, run, lines.Keys - todo, Anyone)|
        invariant active == |Who(lines, run, lines.Keys - todo, TargetActive)|
        invariant acceptable == |Who(lines, run, lines.Keys - todo, Acceptable)|
        decreases todo
      {
        var c :| c in todo;
        CountOne(lines, run, todo, c, Anyone);
        CountOne(lines, run, todo, c, TargetActive);
        CountOne(lines, run, todo, c, Acceptable);
        todo := todo - {c};
        if run in lines[c].targets {
          total := total + 1;
          if TargetActive(lines[c].targets[run]) {
            active := active + 1;
          }
          if Acceptable(lines[c].targets[run]) {
            acceptable := acceptable + 1;
          }
        }
      }
      assert lines.Keys - todo == lines.Keys;
      CountAll(lines, run);
    }

    /** Count the targets of a run; once none is under way, the run says how they ended. */
    method DeriveRun(run: RunId)
      requires Valid()
      modifies `runs
      ensures runs == NoteRuns(old(runs), lines, Ended(run))
      ensures Valid()
    {
      if run !in runs {
        return;
      }
      var total, active, acceptable := CountTargets(run);
      if total == 0 || active > 0 {
        assert runs[run := runs[run]] == runs;
        return;
      }
      var verdict := if acceptable == total then RunSucceeded else if acceptable == 0 then RunFailed else RunPartial;
      RunMoves(lines, runs, nextRun, run, verdict);
      runs := runs[run := runs[run].(state := verdict)];
    }

    method ReserveTargetForJob(c: ConnId, j: nat, token: Token) returns (reserved: Option<RunId>)
      requires Valid() && c in lines
      modifies this
      ensures View() == Told(old(View()), c, ReserveTarget(old(lines)[c], j, token))
      ensures reserved == var note := ReserveTarget(old(lines)[c], j, token).note; if note.Started? then Some(note.run) else None
      ensures c in lines && ReserveSays(old(lines)[c], lines[c], j, token, reserved)
      ensures Valid()
    {
      ReserveIsSpelled(lines[c], j, token);
      assert lines == lines[c := lines[c]];
      if !Held(lines[c], j, token) {
        return None;
      }
      var targets, generation := lines[c].targets, lines[c].jobs[j].targetGeneration;
      if run :| run in targets && CanReserve(targets[run], generation) {
        ReservableIs(lines, runs, c, run, generation);
        MoveTarget(c, run, targets[run].(state := Refreshing, outcome := Reserved));
        RunMoves(lines, runs, nextRun, run, RunRunning);
        runs := runs[run := runs[run].(state := RunRunning)];
        return Some(run);
      }
      return None;
    }

    /** A worker prepares only the target it has reserved; while it holds the job, nobody ends that one. */
    method PrepareReservedTarget(c: ConnId, run: RunId, j: nat, token: Token, decrypts: bool, now: int) returns (kind: Preparation)
      requires Valid() && c in lines && (Prepares(lines[c], run, j, token) ==> TargetActive(lines[c].targets[run]))
      modifies this
      ensures View() == Told(old(View()), c, PrepareTarget(old(lines)[c], run, j, token, decrypts, now))
      ensures kind == PrepareKind(old(lines)[c], run, j, token, decrypts, now)
      ensures c in lines && if kind == NotOurs then lines == old(lines)
                            else run in old(lines)[c].targets && PrepareSays(old(lines)[c], lines[c], run, decrypts, now)
      ensures Valid()
    {
      if Prepares(lines[c], run, j, token) {
        PrepareIsSpelled(lines[c], run, j, token, decrypts, now);
      }
      var line := lines[c];
      assert lines == lines[c := line];
      if run !in line.targets || !Held(line, j, token) || !line.targets[run].outcome.Reserved? {
        return NotOurs;
      }
      var t := line.targets[run];
      if !line.active {
        EndTarget(c, run, t.(state := Disconnected, outcome := RefreshFailed, errorCode := Some("CONNECTION_DISCONNECTED")));
        return SkipSync;
      }
      var eligible := if line.lastRefreshAt.Some? then line.lastRefreshAt.value + COOLDOWN_SECONDS else now;
      if !line.refreshSupported {
        MoveTarget(c, run, t.(state := Syncing, outcome := Unsupported));
        return SyncOnly;
      }
      if line.lastRefreshAt.Some? && eligible > now {
        MoveTarget(c, run, t.(state := Syncing, outcome := Cooldown, nextEligible := Some(eligible)));
        return SyncOnly;
      }
      if !decrypts {
        EndTarget(c, run, t.(state := ReconnectRequired, outcome := RefreshFailed, errorCode := Some("CONNECTION_TOKEN_MISSING")));
        return SkipSync;
      }
      MoveTarget(c, run, t.(outcome := Dispatching, nextEligible := Some(now + COOLDOWN_SECONDS)));
      SameTargets(lines, runs, c, lines[c].(lastRefreshAt := Some(now)));
      lines := lines[c := lines[c].(lastRefreshAt := Some(now))];
      return Dispatch;
    }

    /** Store a target; none that has ended comes back. */
    method MoveTarget(c: ConnId, run: RunId, t: Target)
      requires Valid() && c in lines && run in lines[c].targets
      requires TargetActive(t) ==> TargetActive(lines[c].targets[run])
      modifies `lines
      ensures lines == old(lines)[c := SetTarget(old(lines)[c], run, t)]
      ensures Valid()
    {
      TargetMoves(lines, runs, c, run, t);
      lines := lines[c := SetTarget(lines[c], run, t)];
    }

    /** Store a target that has ended, and derive its run again. */
    method EndTarget(c: ConnId, run: RunId, t: Target)
      requires Valid() && c in lines && run in lines[c].targets && !TargetActive(t)
      modifies this
      ensures View() == Told(old(View()), c, Change(SetTarget(old(lines)[c], run, t), Ended(run)))
      ensures Valid()
    {
      MoveTarget(c, run, t);
      DeriveRun(run);
    }

    method RecordDispatchOutcome(c: ConnId, run: RunId, j: nat, token: Token, outcome: Outcome, code: Option<string>)
      returns (recorded: bool)
      requires Valid() && c in lines && (Records(lines[c], run, j, token) ==> TargetActive(lines[c].targets[run]))
      modifies this
      ensures View() == Told(old(View()), c, RecordOutcome(old(lines)[c], run, j, token, outcome, code))
      ensures recorded <==> Records(old(lines)[c], run, j, token)
      ensures c in lines && if recorded then run in old(lines)[c].targets && OutcomeSays(old(lines)[c], lines[c], run, outcome, code)
                            else lines == old(lines)
      ensures Valid()
    {
      if Records(lines[c], run, j, token) {
        OutcomeIsSpelled(lines[c], run, j, token, outcome, code);
      }
      var line := lines[c];
      assert lines == lines[c := line];
      if run !in line.targets || !Held(line, j, token) || !line.targets[run].outcome.Dispatching? {
        return false;
      }
      var t := line.targets[run].(outcome := outcome, errorCode := code);
      if outcome.Unsupported? {
        line := line.(refreshSupported := false);
        SameTargets(lines, runs, c, line);
        lines := lines[c := line];
      }
      ghost var change := RecordOutcome(old(lines)[c], run, j, token, outcome, code);
      assert lines[c := change.line] == old(lines)[c := change.line];
      if outcome.RefreshFailed? && code.Some? && code.value in RECONNECT_CODES {
        EndTarget(c, run, t.(state := ReconnectRequired));
      } else {
        MoveTarget(c, run, t.(state := Syncing));
      }
      return true;
    }

    method FinishWithoutSync(c: ConnId, j: nat, token: Token) returns (held: bool)
      requires Valid() && c in lines
      modifies this
      ensures View() == Edited(old(View()), c, Lines.FinishWithoutSync(old(lines)[c], j, token))
      ensures held <==> Held(old(lines)[c], j, token)
      ensures c in lines && if held then FinishSays(old(lines)[c], lines[c], j) else lines == old(lines)
      ensures Valid()
    {
      held := Held(lines[c], j, token);
      SameTargets(lines, runs, c, Lines.FinishWithoutSync(lines[c], j, token));
      assert lines == lines[c := lines[c]];
      if held {
        var job := lines[c].jobs[j];
        lines := lines[c := SetJob(lines[c], j, job.(state := JobSucceeded, leaseToken := None))];
      }
    }

    // -- The sync transaction of a worker

    method CompleteTargetForSync(c: ConnId, generation: nat, counts: Summary)
      requires Valid() && c in lines
      modifies this
      ensures View() == Told(old(View()), c, CompleteTarget(old(lines)[c], generation, counts))
      ensures c in lines && TargetsEnd(old(lines)[c].targets, lines[c].targets, generation, counts)
      ensures Valid()
    {
      assert FitsAt(lines, runs, c);
      TargetsEndSpelled(lines[c], generation, counts);
      var line := lines[c];
      assert lines == lines[c := line];
      if run :| run in line.targets && CanComplete(line.targets[run], generation) {
        CompletableIs(lines, runs, c, run, generation);
        var t := line.targets[run];
        EndTarget(c, run, t.(counts := counts, state := FinalState(t.outcome, counts)));
      } else {
        assert FindCompletable(line.targets, generation).None?;
      }
    }

    /** Apply the collected pages, move the cursor, complete the target and let the job go, all
        in one transaction; `None` when the fence, the lease or the cursor does not hold. */
    method Synchronize(c: ConnId, j: nat, token: Token, attempt: Cursor, pages: seq<SyncPage>, ending: Cursor,
                       generation: nat, now: int) returns (summary: Option<Summary>)
      requires Valid() && c in lines
      modifies this, cache
      ensures View() == SyncOf(old(View()), c, j, token, attempt, pages, ending, generation, now)
      ensures summary == if CommitAllowed(old(lines)[c], j, token, attempt, now)
                         then Some(Summarize(old(cache.rows), pages, old(lines)[c].cards)) else None
      ensures summary.Some? <==> MayCommit(old(lines)[c], j, token, attempt, now)
      ensures summary.Some? ==> c in lines && CommitSays(old(lines)[c], lines[c], j, ending, generation, summary.value, now)
      ensures Valid()
    {
      assert FitsAt(lines, runs, c);
      CommitIsSpelled(lines[c], j, token, attempt, ending, generation, Summarize(cache.rows, pages, lines[c].cards), now);
      var line := lines[c];
      if !CommitAllowed(line, j, token, attempt, now) {
        return None;
      }
      CommitInSteps(View(), c, j, token, attempt, pages, ending, generation, now);
      var counts := cache.Apply(pages, line.cards);
      line := line.(cursor := Some(ending), completed := if generation > 0 then generation else line.completed);
      SameTargets(lines, runs, c, line);
      lines := lines[c := line];
      CompleteTargetForSync(c, generation, counts);
      ReleaseJob(c, j, if lines[c].requested > generation then JobQueued else JobSucceeded, now);
      return Some(counts);
    }

    method ReleaseJob(c: ConnId, j: nat, state: JobState, now: int)
      requires Valid() && c in lines && j < |lines[c].jobs|
      modifies this
      ensures View() == Edited(old(View()), c, SetJob(old(lines)[c], j, Release(old(lines)[c].jobs[j], state).(runAfter := now)))
      ensures Valid()
    {
      var job := lines[c].jobs[j].(state := state, leaseToken := None, runAfter := now);
      SameTargets(lines, runs, c, SetJob(lines[c], j, job));
      lines := lines[c := SetJob(lines[c], j, job)];
    }

    method RecordFailure(c: ConnId, j: nat, token: Token, code: string, cls: RetryClass, now: int) returns (held: bool)
      requires Valid() && c in lines
      modifies this
      ensures View() == Told(old(View()), c, FailJob(old(lines)[c], j, token, code, cls, now))
      ensures held <==> Held(old(lines)[c], j, token)
      ensures c in lines && if held then FailureSays(old(lines)[c], lines[c], j, code, cls, now) else lines == old(lines)
      ensures Valid()
    {
      assert FitsAt(lines, runs, c);
      assert lines == lines[c := lines[c]];
      if !Held(lines[c], j, token) {
        return false;
      }
      FailureIsSpelled(lines[c], j, token, code, cls, now);
      var job := lines[c].jobs[j];
      var retryable := cls.Transient? && job.attempts <= |BACKOFF_SECONDS|;
      if retryable {
        StoreJob(c, j, job.(state := JobQueued, leaseToken := None, runAfter := now + Delay(job.attempts)));
      } else {
        FailJobFor(c, j, code, cls);
      }
      return true;
    }

    method StoreJob(c: ConnId, j: nat, job: Job)
      requires Valid() && c in lines && j < |lines[c].jobs|
      modifies `lines
      ensures lines == old(lines)[c := SetJob(old(lines)[c], j, job)]
      ensures Valid()
    {
      SameTargets(lines, runs, c, SetJob(lines[c], j, job));
      lines := lines[c := SetJob(lines[c], j, job)];
    }

    /** The job fails, and with it the target under way. */
    method FailJobFor(c: ConnId, j: nat, code: string, cls: RetryClass)
      requires Valid() && c in lines && j < |lines[c].jobs|
      modifies this
      ensures View() == Told(old(View()), c, MarkTargetFailed(SetJob(old(lines)[c], j, Release(old(lines)[c].jobs[j], JobFailed)), code, cls.OwnerAction?))
      ensures Valid()
    {
      StoreJob(c, j, lines[c].jobs[j].(state := JobFailed, leaseToken := None));
      ghost var failed := lines[c];
      MarkTargetFailedFor(c, code, cls.OwnerAction?);
      assert old(lines)[c := failed][c := lines[c]] == old(lines)[c := lines[c]];
    }

    method MarkTargetFailedFor(c: ConnId, code: string, reconnect: bool)
      requires Valid() && c in lines
      modifies this
      ensures View() == Told(old(View()), c, MarkTargetFailed(old(lines)[c], code, reconnect))
      ensures c in lines && TargetsFail(old(lines)[c].targets, lines[c].targets, code, if reconnect then OwnerAction else Permanent)
      ensures Valid()
    {
      assert FitsAt(lines, runs, c);
      TargetsFailSpelled(lines[c], code, if reconnect then OwnerAction else Permanent);
      var targets := lines[c].targets;
      assert lines == lines[c := lines[c]];
      if run :| run in targets && TargetActive(targets[run]) {
        ActiveIs(lines, runs, c, run);
        var state := if reconnect then ReconnectRequired else TargetFailed;
        EndTarget(c, run, targets[run].(state := state, errorCode := Some(code)));
      } else {
        assert FindActive(targets).None?;
      }
    }

    // -- Requests for a refresh

    method CreateOrCoalesce(key: RequestKey, now: int) returns (answer: CreateAnswer)
      requires Valid()
      modifies this
      ensures View() == CreateOf(old(View()), key, now)
      ensures answer == AnswerTo(old(View()), key, now)
      ensures Valid()
    {
      if key in requests && requests[key].run in runs && requests[key].expires > now {
        return Replayed(requests[key].run);
      }
      var expires := now + RETENTION_SECONDS;
      if run :| run in runs && RunActive(runs[run]) && runs[run].owner == key.owner {
        assert FindActiveRun(runs, key.owner) == Some(run);
        if key in requests {
          return KeyTaken;
        }
        requests := requests[key := Mapping(run, expires)];
        return Coalesced(run);
      } else {
        assert FindActiveRun(runs, key.owner).None?;
      }
      var connections := set c | c in lines && lines[c].owner == key.owner && lines[c].active;
      if connections == {} {
        return NoConnections;
      }
      if key in requests {
        return KeyTaken;
      }
      var run := nextRun;
      RunComes(Tables(lines, runs, requests, map[], nextRun), key, expires);
      forall c | c in connections
        ensures FindActive(lines[c].targets).None?
      {
        OwnerIsFree(lines, runs, key.owner, c);
      }
      runs := runs[run := Run(key.owner, RunQueued, expires)];
      requests := requests[key := Mapping(run, expires)];
      nextRun := nextRun + 1;
      SnapshotConnections(connections, run, now);
      return Created(run);
    }

    /** The connections of the run's owner, none of which has a target under way. */
    method SnapshotConnections(connections: set<ConnId>, run: RunId, now: int)
      requires Valid() && run in runs && RunActive(runs[run])
      requires connections <= lines.Keys && forall c :: c in connections ==> Joins(lines[c], runs[run].owner)
      modifies `lines
      ensures lines == WithTargets(old(lines), connections, run, now)
      ensures Valid()
    {
      var todo := connections;
      while todo != {}
        invariant Valid() && todo <= connections && lines.Keys == old(lines).Keys
        invariant SnapshotBut(old(lines), lines, connections - todo, run, now)
        decreases todo
      {
        var c :| c in todo;
        todo := todo - {c};
        assert lines[c] == old(lines)[c];
        var generation := EnqueueSync(c, now);
        var target := Target(TargetQueued, NotAttempted, generation.value, Summary(0, 0, 0), None, None);
        TargetComes(lines, runs, c, run, target);
        lines := lines[c := SetTarget(lines[c], run, target)];
      }
      assert lines == WithTargets(old(lines), connections, run, now);
    }

    // -- Removal

    method Disconnect(c: ConnId) returns (removed: bool)
      requires Valid()
      modifies this, cache
      ensures removed <==> c in old(lines) && old(lines)[c].active
      ensures View() == if removed then DisconnectOf(old(View()), c) else old(View())
      ensures removed ==> lines == old(lines)[c := old(lines)[c].(active := false, cards := {}, cursor := None)]
      ensures removed ==> forall t :: t in cache.rows <==> t in old(cache.rows) && old(cache.rows)[t].account !in old(lines)[c].cards
      ensures Valid()
    {
      if c !in lines || !lines[c].active {
        return false;
      }
      var cards := lines[c].cards;
      SameTargets(lines, runs, c, Lines.Disconnect(lines[c]));
      cache.rows := map t | t in cache.rows && cache.rows[t].account !in cards :: cache.rows[t];
      lines := lines[c := lines[c].(active := false, cards := {}, cursor := None)];
      return true;
    }

    /** The oldest removable run that is not picked yet. */
    method OldestRemovable(now: int, picked: set<RunId>) returns (oldest: Option<RunId>)
      ensures oldest.None? ==> forall run :: Removable(runs, now, run) ==> run in picked
      ensures oldest.Some? ==> Removable(runs, now, oldest.value) && oldest.value !in picked
      ensures oldest.Some? ==> forall run :: Removable(runs, now, run) && run !in picked ==> Older(runs, oldest.value, run)
    {
      oldest := None;
      var todo := runs.Keys;
      while todo != {}
        invariant todo <= runs.Keys
        invariant oldest.Some? ==> Removable(runs, now, oldest.value) && oldest.value !in picked
        invariant forall run :: Removable(runs, now, run) && run !in picked && run !in todo ==>
                    oldest.Some? && Older(runs, oldest.value, run)
        decreases todo
      {
        var run :| run in todo;
        todo := todo - {run};
        if Removable(runs, now, run) && run !in picked && (oldest.None? || Older(runs, run, oldest.value)) {
          oldest := Some(run);
        }
      }
    }

    method CleanupExpired(now: int) returns (gone: set<RunId>)
      requires Valid()
      modifies this
      ensures CleanupBatch(old(runs), now, gone) && View() == RemovalOf(old(View()), gone)
      ensures Valid()
    {
      gone := {};
      while |gone| < CLEANUP_BATCH
        invariant View() == old(View()) && |gone| <= CLEANUP_BATCH
        invariant forall run :: run in gone ==> Removable(runs, now, run)
        invariant forall run, other :: Removable(runs, now, run) && run !in gone && other in gone ==> Older(runs, other, run)
      {
        var oldest := OldestRemovable(now, gone);
        if oldest.None? {
          break;
        }
        gone := gone + {oldest.value};
      }
      RunsGo(Tables(lines, runs, requests, map[], nextRun), gone);
      runs := runs - gone;
      requests := map k | k in requests && requests[k].run !in gone :: requests[k];
      lines := map c | c in lines :: lines[c].(targets := lines[c].targets - gone);
      assert lines == RemovalOf(old(View()), gone).lines;
    }
  }

  datatype Claim = Claim(conn: ConnId, job: nat, generation: nat)

  /** `due` is the earliest due job of the connections in `done`. */
  ghost predicate Earliest(t: Tables, done: set<ConnId>, due: Option<(ConnId, nat)>, now: int) {
    && (due.Some? ==> Due(t, due.value.0, due.value.1, now))
    && (forall c, j :: c in done && Due(t, c, j, now) ==>
          due.Some? && t.lines[due.value.0].jobs[due.value.1].runAfter <= t.lines[c].jobs[j].runAfter)
  }

  ghost predicate EarliestSoFar(t: Tables, done: set<ConnId>, c: ConnId, upto: nat, due: Option<(ConnId, nat)>, now: int) {
    && Earliest(t, done, due, now)
    && (forall j :: j < upto && Due(t, c, j, now) ==>
          due.Some? && t.lines[due.value.0].jobs[due.value.1].runAfter <= t.lines[c].jobs[j].runAfter)
  }

  /** The one UPDATE over all jobs whose lease has run out. */
  function Requeued(jobs: seq<Job>, now: int): seq<Job> {
    if jobs == [] then []
    else
      var job := jobs[|jobs| - 1];
      Requeued(jobs[..|jobs| - 1], now) +
      [if job.state.JobRunning? && job.leaseExpires <= now
       then job.(state := JobQueued, runAfter := now, leaseToken := None) else job]
  }

  function AllRequeued(lines: map<ConnId, Line>, now: int): map<ConnId, Line> {
    map c | c in lines :: lines[c].(jobs := Requeued(lines[c].jobs, now))
  }

  lemma {:induction false} RequeuedIsRecovered(jobs: seq<Job>, now: int)
    ensures Requeued(jobs, now) == RecoverJobs(jobs, now)
  {
    if jobs != [] {
      RequeuedIsRecovered(jobs[..|jobs| - 1], now);
    }
  }

  lemma AllRecovered(t: Tables, lines: map<ConnId, Line>, now: int)
    requires lines.Keys == t.lines.Keys && RecoveredBut(t.lines, lines, {}, now)
    ensures AllRequeued(lines, now) == RecoveryOf(t, now).lines
  {
    forall c | c in lines
      ensures lines[c].(jobs := Requeued(lines[c].jobs, now)) == Lines.RecoverExpired(t.lines[c], now)
    {
      assert t.lines[c].jobs[..|t.lines[c].jobs|] == t.lines[c].jobs;
      RequeuedIsRecovered(lines[c].jobs, now);
    }
  }

  lemma AllSameTargets(lines: map<ConnId, Line>, runs: map<RunId, Run>, now: int)
    requires LinesFit(lines, runs)
    ensures LinesFit(AllRequeued(lines, now), runs)
  {
    var after := AllRequeued(lines, now);
    forall c
      ensures FitsAt(after, runs, c)
    {
      assert FitsAt(lines, runs, c);
    }
  }

  /** The targets of a connection after the first `n` jobs were looked at. */
  ghost function Recovering(line: Line, n: nat, now: int): Line
    requires n <= |line.jobs|
  {
    line.(targets := RecoverTargets(line.targets, line.jobs[..n], now))
  }

  lemma RecoveringOn(line: Line, n: nat, now: int)
    requires n < |line.jobs|
    ensures var before := Recovering(line, n, now);
            Recovering(line, n + 1, now) == if Expired(line.jobs[n], now) then before.(targets := RecoverTarget(before.targets)) else before
  {
    assert line.jobs[..n + 1][..n] == line.jobs[..n];
  }

  /** The targets of all connections but those still to do are recovered. */
  ghost predicate RecoveredBut(before: map<ConnId, Line>, lines: map<ConnId, Line>, todo: set<ConnId>, now: int)
    requires lines.Keys == before.Keys
  {
    forall c :: c in before ==> lines[c] == if c in todo then before[c] else Recovering(before[c], |before[c].jobs|, now)
  }

  lemma OneMoreRecovered(before: map<ConnId, Line>, lines: map<ConnId, Line>, todo: set<ConnId>, c: ConnId, now: int)
    requires lines.Keys == before.Keys && c in before && c !in todo && RecoveredBut(before, lines, todo + {c}, now)
    ensures lines[c] == before[c]
    ensures RecoveredBut(before, lines[c := Recovering(before[c], |before[c].jobs|, now)], todo, now)
  {
  }

  lemma LinesRecover(lines: map<ConnId, Line>, runs: map<RunId, Run>, now: int)
    requires LinesFit(lines, runs)
    ensures forall c :: c in lines ==> RecoverySays(lines[c], Lines.RecoverExpired(lines[c], now), now)
  {
    forall c | c in lines
      ensures RecoverySays(lines[c], Lines.RecoverExpired(lines[c], now), now)
    {
      assert FitsAt(lines, runs, c);
      RecoveryIsSpelled(lines[c], now);
    }
  }

  // ---- The one target a search can find --------------------------------------------------------------

  lemma RecoverableIs(lines: map<ConnId, Line>, runs: map<RunId, Run>, c: ConnId, run: RunId)
    requires LinesFit(lines, runs) && c in lines && run in lines[c].targets && CanRecover(lines[c].targets[run])
    ensures FindRecoverable(lines[c].targets) == Some(run)
  {
    assert FitsAt(lines, runs, c);
  }

  lemma ReservableIs(lines: map<ConnId, Line>, runs: map<RunId, Run>, c: ConnId, run: RunId, generation: nat)
    requires LinesFit(lines, runs) && c in lines && run in lines[c].targets && CanReserve(lines[c].targets[run], generation)
    ensures FindReservable(lines[c].targets, generation) == Some(run) && run in runs && RunActive(runs[run])
  {
    assert FitsAt(lines, runs, c);
  }

  lemma CompletableIs(lines: map<ConnId, Line>, runs: map<RunId, Run>, c: ConnId, run: RunId, generation: nat)
    requires LinesFit(lines, runs) && c in lines && run in lines[c].targets && CanComplete(lines[c].targets[run], generation)
    ensures FindCompletable(lines[c].targets, generation) == Some(run)
  {
    assert FitsAt(lines, runs, c);
  }

  lemma ActiveIs(lines: map<ConnId, Line>, runs: map<RunId, Run>, c: ConnId, run: RunId)
    requires LinesFit(lines, runs) && c in lines && run in lines[c].targets && TargetActive(lines[c].targets[run])
    ensures FindActive(lines[c].targets) == Some(run)
  {
    assert FitsAt(lines, runs, c);
  }

  // ---- A new run's connections -------------------------------------------------------------------------

  /** A connection that a new run of this owner can be given a target on. */
  ghost predicate Joins(line: Line, owner: OwnerId) {
    line.active && line.owner == owner && FindActive(line.targets).None?
  }

  /** The connections in `done` have their target. */
  ghost predicate SnapshotBut(before: map<ConnId, Line>, lines: map<ConnId, Line>, done: set<ConnId>, run: RunId, now: int)
    requires lines.Keys == before.Keys
  {
    forall c :: c in before ==> lines[c] == if c in done && before[c].active then AddTarget(before[c], run, now) else before[c]
  }

  // ---- The sync transaction step by step ---------------------------------------------------------------

  /** Completing the target before or after the job is let go makes no difference to the run. */
  lemma CommitInSteps(t: Tables, c: ConnId, j: nat, token: Token, attempt: Cursor, pages: seq<SyncPage>, ending: Cursor,
                      generation: nat, now: int)
    requires c in t.lines && CommitAllowed(t.lines[c], j, token, attempt, now)
    ensures var line := t.lines[c];
            var counts := Summarize(t.rows, pages, line.cards);
            var synced := line.(cursor := Some(ending), completed := if generation > 0 then generation else line.completed);
            var done := Told(Edited(t.(rows := ApplyPages(t.rows, pages, line.cards)), c, synced), c,
                             CompleteTarget(synced, generation, counts));
            var state := if synced.requested > generation then JobQueued else JobSucceeded;
            SyncOf(t, c, j, token, attempt, pages, ending, generation, now) ==
            Edited(done, c, SetJob(done.lines[c], j, Release(done.lines[c].jobs[j], state).(runAfter := now)))
  {
    var line := t.lines[c];
    var counts := Summarize(t.rows, pages, line.cards);
    var synced := line.(cursor := Some(ending), completed := if generation > 0 then generation else line.completed);
    var done := CompleteTarget(synced, generation, counts);
    var last := CommitSync(line, j, token, attempt, ending, generation, counts, now).line;
    var state := if synced.requested > generation then JobQueued else JobSucceeded;
    assert done.line.jobs == line.jobs && done.line.requested == synced.requested;
    assert last == SetJob(done.line, j, Release(line.jobs[j], state).(runAfter := now));
    assert t.lines[c := synced][c := done.line] == t.lines[c := done.line];
    assert t.lines[c := done.line][c := last] == t.lines[c := last];
    SameBoards(t.lines, t.runs, c, done.line, last, done.note);
  }

  lemma SameBoards(lines: map<ConnId, Line>, runs: map<RunId, Run>, c: ConnId, line: Line, other: Line, note: RunNote)
    requires line.targets == other.targets
    ensures NoteRuns(runs, lines[c := line], note) == NoteRuns(runs, lines[c := other], note)
  {
    if note.Ended? {
      assert BoardOf(lines[c := line], note.run) == BoardOf(lines[c := other], note.run);
    }
  }

  // ---- Counting the targets of a run -----------------------------------------------------------------

  /** The connections among `some` whose target of the run has property `p`. */
  function Who(lines: map<ConnId, Line>, run: RunId, some: set<ConnId>, p: Target -> bool): set<ConnId> {
    set c | c in some && c in lines && run in lines[c].targets && p(lines[c].targets[run])
  }

  function Anyone(t: Target): bool { true }

  lemma CountOne(lines: map<ConnId, Line>, run: RunId, todo: set<ConnId>, c: ConnId, p: Target -> bool)
    requires c in todo && todo <= lines.Keys
    ensures |Who(lines, run, lines.Keys - (todo - {c}), p)| ==
            |Who(lines, run, lines.Keys - todo, p)| + (if run in lines[c].targets && p(lines[c].targets[run]) then 1 else 0)
  {
    var before := Who(lines, run, lines.Keys - todo, p);
    var own := if run in lines[c].targets && p(lines[c].targets[run]) then {c} else {};
    assert Who(lines, run, lines.Keys - (todo - {c}), p) == before + own;
    assert c !in before;
  }

  lemma CountAll(lines: map<ConnId, Line>, run: RunId)
    ensures var board := BoardOf(lines, run);
            && Who(lines, run, lines.Keys, Anyone) == board.Keys
            && Who(lines, run, lines.Keys, TargetActive) == ActiveOn(board)
            && Who(lines, run, lines.Keys, Acceptable) == AcceptableOn(board)
  {
  }

  lemma {:induction false} FirstActive(jobs: seq<Job>, i: nat)
    requires i < |jobs| && JobActive(jobs[i]) && ActiveJob(jobs[..i]) == None
    ensures ActiveJob(jobs) == Some(i)
    decreases |jobs|
  {
    var init := jobs[..|jobs| - 1];
    if i < |init| {
      assert init[..i] == jobs[..i];
      FirstActive(init, i);
    } else {
      assert init == jobs[..i];
    }
  }
}
