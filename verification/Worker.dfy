/** One turn of a worker that nobody interrupts (`run_once` in backend/app/services/sync_worker.py):
    claim a job, refresh its target if one is due, collect the pages, commit, or record the failure. */
module Worker {
  import opened Wrappers
  import opened Reconcile
  import opened Provider
  import opened PageLoop
  import opened Lines
  import opened Lanes
  import opened LaneInvariant
  import opened Fleet
  import opened Spelled
  import opened Database

  /** What the world answers during one turn: fresh token, clock readings, decryption, the
      refresh call and the page calls. */
  datatype World = World(
    token: Token, claimAt: int, prepareAt: int, finishAt: int, lease: nat,
    decryptsForRefresh: bool, decryptsForSync: bool, refresh: RefreshReply, gateway: Gateway)

  /** The claim of the turn still stands as it was made. */
  predicate Standing(line: Line, j: nat, w: World) {
    Held(line, j, w.token) && line.jobs[j].leaseExpires == w.claimAt + w.lease
  }

  /** Whoever holds a job under the token held it before. */
  ghost predicate NoNewHolder(before: map<ConnId, Line>, after: map<ConnId, Line>, token: Token) {
    after.Keys == before.Keys && forall c, j :: c in before && Held(after[c], j, token) ==> Held(before[c], j, token)
  }

  function OutcomeOf(reply: RefreshReply): (Outcome, Option<string>) {
    match reply
    case RefreshAccepted => (Accepted, None)
    case RefreshUnsupported => (Unsupported, Some("PRODUCTS_NOT_SUPPORTED"))
    case RefreshTimeout => (Unknown, Some("REFRESH_OUTCOME_UNKNOWN"))
    case RefreshRefused(code, _) => (RefreshFailed, Some(code))
  }

  // ---- What a turn is for ---------------------------------------------------------------------------

  /** The queued target that a claim of this generation covers. */
  predicate DueTarget(line: Line, generation: nat, run: RunId) {
    run in line.targets && line.targets[run].state == TargetQueued && line.targets[run].required <= generation
  }

  /** The last refresh call is less than fifteen minutes ago. */
  predicate TooSoon(line: Line, w: World) {
    line.lastRefreshAt.Some? && w.prepareAt < line.lastRefreshAt.value + 900
  }

  /** The provider is asked for a refresh: the connection allows one, is not cooling down, and its
      token can be read. */
  predicate Calls(line: Line, w: World) {
    line.active && line.refreshSupported && !TooSoon(line, w) && w.decryptsForRefresh
  }

  /** A refresh does not stand in the way of the sync: there was none due, or the connection is
      there and the refresh was skipped, or it was called without a refusal that its owner must act on. */
  ghost predicate GoesOn(line: Line, generation: nat, w: World) {
    (exists run :: DueTarget(line, generation, run)) ==>
      && line.active
      && (line.refreshSupported && !TooSoon(line, w) ==>
            w.decryptsForRefresh && !(w.refresh.RefreshRefused? && w.refresh.cls == OwnerAction))
  }

  /** What the refresh makes of its target. */
  predicate TargetTells(line: Line, t: Target, w: World) {
    if !line.active then t.state == Disconnected && t.errorCode == Some("CONNECTION_DISCONNECTED")
    else if !line.refreshSupported then t.state == Syncing && t.outcome == Unsupported
    else if TooSoon(line, w) then t.state == Syncing && t.outcome == Cooldown && t.nextEligible == Some(line.lastRefreshAt.value + 900)
    else if !w.decryptsForRefresh then t.state == ReconnectRequired && t.errorCode == Some("CONNECTION_TOKEN_MISSING")
    else t.nextEligible == Some(w.prepareAt + 900) && AnswerTells(t, w.refresh)
  }

  predicate AnswerTells(t: Target, reply: RefreshReply) {
    match reply
    case RefreshAccepted => t.state == Syncing && t.outcome == Accepted && t.errorCode == None
    case RefreshUnsupported => t.state == Syncing && t.outcome == Unsupported && t.errorCode == Some("PRODUCTS_NOT_SUPPORTED")
    case RefreshTimeout => t.state == Syncing && t.outcome == Unknown && t.errorCode == Some("REFRESH_OUTCOME_UNKNOWN")
    case RefreshRefused(code, _) =>
      t.state == (if OwnerMustAct(code) then ReconnectRequired else Syncing) && t.outcome == RefreshFailed && t.errorCode == Some(code)
  }

  /** What the refresh of a turn makes of its connection: the queued target that the claim covers
      tells the outcome, and nothing but that target and the memory of the call changes. */
  ghost predicate RefreshDone(line: Line, after: Line, generation: nat, w: World) {
    && ((forall run :: !DueTarget(line, generation, run)) ==> after == line)
    && forall run :: DueTarget(line, generation, run) ==> OneRefreshed(line, after, run, w)
  }

  predicate OneRefreshed(line: Line, after: Line, run: RunId, w: World) {
    && run in line.targets && run in after.targets && after.targets[run].required == line.targets[run].required
    && TargetTells(line, after.targets[run], w)
    && after == line.(targets := line.targets[run := after.targets[run]],
                      lastRefreshAt := if Calls(line, w) then Some(w.prepareAt) else line.lastRefreshAt,
                      refreshSupported := line.refreshSupported && !(Calls(line, w) && w.refresh == RefreshUnsupported))
  }

  /** The three transactions of a refresh, one after the other. */
  ghost function Refreshed(line: Line, j: nat, w: World): Line {
    var reserved := ReserveTarget(line, j, w.token);
    if !reserved.note.Started? then reserved.line
    else
      var run := reserved.note.run;
      var prepared := PrepareTarget(reserved.line, run, j, w.token, w.decryptsForRefresh, w.prepareAt).line;
      if PrepareKind(reserved.line, run, j, w.token, w.decryptsForRefresh, w.prepareAt).Dispatch?
      then RecordOutcome(prepared, run, j, w.token, OutcomeOf(w.refresh).0, OutcomeOf(w.refresh).1).line
      else prepared
  }

  lemma OneCalled(line: Line, j: nat, run: RunId, w: World)
    requires Held(line, j, w.token) && Calls(line, w) && FindReservable(line.targets, line.jobs[j].targetGeneration) == Some(run)
    ensures OneRefreshed(line, Refreshed(line, j, w), run, w)
  {
    var after := Refreshed(line, j, w);
    CalledTells(line, j, run, w);
    assert after.targets == line.targets[run := after.targets[run]];
  }

  lemma CalledTells(line: Line, j: nat, run: RunId, w: World)
    requires Held(line, j, w.token) && Calls(line, w) && FindReservable(line.targets, line.jobs[j].targetGeneration) == Some(run)
    ensures var after := Refreshed(line, j, w);
            && run in after.targets && after.targets[run].required == line.targets[run].required
            && TargetTells(line, after.targets[run], w)
  {
    CallIsPrepared(line, j, run, w);
  }

  /** The connection as it is when the provider is called. */
  lemma CallIsPrepared(line: Line, j: nat, run: RunId, w: World)
    requires Held(line, j, w.token) && Calls(line, w) && FindReservable(line.targets, line.jobs[j].targetGeneration) == Some(run)
    ensures var reserved := ReserveTarget(line, j, w.token);
            var t := line.targets[run].(state := Refreshing, outcome := Dispatching, nextEligible := Some(w.prepareAt + 900));
            && reserved.note == Started(run)
            && PrepareKind(reserved.line, run, j, w.token, w.decryptsForRefresh, w.prepareAt).Dispatch?
            && PrepareTarget(reserved.line, run, j, w.token, w.decryptsForRefresh, w.prepareAt).line ==
               line.(targets := line.targets[run := t], lastRefreshAt := Some(w.prepareAt))
  {
  }

  lemma OneSkipped(line: Line, j: nat, run: RunId, w: World)
    requires Held(line, j, w.token) && !Calls(line, w) && FindReservable(line.targets, line.jobs[j].targetGeneration) == Some(run)
    ensures OneRefreshed(line, Refreshed(line, j, w), run, w)
  {
    var after := Refreshed(line, j, w);
    assert after.targets == line.targets[run := after.targets[run]];
  }

  lemma RefreshedIsDone(line: Line, j: nat, w: World)
    requires Held(line, j, w.token) && OneActive(line.targets)
    ensures RefreshDone(line, Refreshed(line, j, w), line.jobs[j].targetGeneration, w)
  {
    var generation := line.jobs[j].targetGeneration;
    var found := FindReservable(line.targets, generation);
    if found.Some? {
      assert DueTarget(line, generation, found.value);
      if Calls(line, w) {
        OneCalled(line, j, found.value, w);
      } else {
        OneSkipped(line, j, found.value, w);
      }
      OnlyDue(line, generation, found.value);
    }
  }

  lemma OnlyDue(line: Line, generation: nat, due: RunId)
    requires OneActive(line.targets) && DueTarget(line, generation, due)
    ensures forall run :: DueTarget(line, generation, run) ==> run == due
  {
  }

  /** What decides on a sync, by the target that was reserved. */
  lemma ReservedGoesOn(line: Line, j: nat, w: World)
    requires Held(line, j, w.token)
    ensures var generation := line.jobs[j].targetGeneration;
            FindReservable(line.targets, generation).Some? <==> exists run :: DueTarget(line, generation, run)
  {
    var found := FindReservable(line.targets, line.jobs[j].targetGeneration);
    if found.Some? {
      assert DueTarget(line, line.jobs[j].targetGeneration, found.value);
    }
  }

  lemma DecidesOnSync(line: Line, run: RunId, j: nat, w: World)
    requires Held(line, j, w.token) && FindReservable(line.targets, line.jobs[j].targetGeneration) == Some(run)
    ensures var kind := PrepareKind(ReserveTarget(line, j, w.token).line, run, j, w.token, w.decryptsForRefresh, w.prepareAt);
            GoesOn(line, line.jobs[j].targetGeneration, w) <==>
            !kind.SkipSync? && (kind.Dispatch? ==> !(w.refresh.RefreshRefused? && w.refresh.cls.OwnerAction?))
  {
    ReservedGoesOn(line, j, w);
  }

  /** Reserve and prepare the target, call the provider if it comes to that, and record the
      answer; true if a sync is to follow. */
  method ProcessRefreshTarget(db: Database, c: ConnId, j: nat, w: World) returns (goOn: bool)
    requires db.Valid() && c in db.lines && Standing(db.lines[c], j, w)
    modifies db
    ensures db.Valid() && c in db.lines && db.lines == old(db.lines)[c := db.lines[c]]
    ensures RefreshDone(old(db.lines)[c], db.lines[c], old(db.lines)[c].jobs[j].targetGeneration, w)
    ensures goOn <==> GoesOn(old(db.lines)[c], old(db.lines)[c].jobs[j].targetGeneration, w)
  {
    assert FitsAt(db.lines, db.runs, c);
    ReservedGoesOn(db.lines[c], j, w);
    RefreshedIsDone(db.lines[c], j, w);
    var reserved := db.ReserveTargetForJob(c, j, w.token);
    assert db.lines == old(db.lines)[c := db.lines[c]];
    if reserved.None? {
      return true;
    }
    DecidesOnSync(old(db.lines)[c], reserved.value, j, w);
    goOn := PrepareAndCall(db, c, reserved.value, j, w);
  }

  method PrepareAndCall(db: Database, c: ConnId, run: RunId, j: nat, w: World) returns (goOn: bool)
    requires db.Valid() && c in db.lines && Prepares(db.lines[c], run, j, w.token) && TargetActive(db.lines[c].targets[run])
    modifies db
    ensures db.Valid() && c in db.lines && db.lines == old(db.lines)[c := db.lines[c]]
    ensures var line := old(db.lines)[c];
            var prepared := PrepareTarget(line, run, j, w.token, w.decryptsForRefresh, w.prepareAt).line;
            var kind := PrepareKind(line, run, j, w.token, w.decryptsForRefresh, w.prepareAt);
            && db.lines[c] == (if kind.Dispatch?
                               then RecordOutcome(prepared, run, j, w.token, OutcomeOf(w.refresh).0, OutcomeOf(w.refresh).1).line
                               else prepared)
            && (goOn <==> !kind.SkipSync? && (kind.Dispatch? ==> !(w.refresh.RefreshRefused? && w.refresh.cls.OwnerAction?)))
  {
    var kind := db.PrepareReservedTarget(c, run, j, w.token, w.decryptsForRefresh, w.prepareAt);
    assert db.lines == old(db.lines)[c := db.lines[c]];
    if kind.SkipSync? {
      return false;
    }
    goOn := true;
    if kind.Dispatch? {
      goOn := CallRefresh(db, c, run, j, w);
    }
  }

  /** The refresh call and the record of its outcome, which nobody can refuse to an undisturbed holder. */
  method CallRefresh(db: Database, c: ConnId, run: RunId, j: nat, w: World) returns (goOn: bool)
    requires db.Valid() && c in db.lines && Records(db.lines[c], run, j, w.token) && TargetActive(db.lines[c].targets[run])
    modifies db
    ensures db.Valid() && c in db.lines
    ensures db.lines == old(db.lines)[c := RecordOutcome(old(db.lines)[c], run, j, w.token, OutcomeOf(w.refresh).0, OutcomeOf(w.refresh).1).line]
    ensures goOn <==> !(w.refresh.RefreshRefused? && w.refresh.cls.OwnerAction?)
  {
    var (outcome, code) := OutcomeOf(w.refresh);
    var recorded := db.RecordDispatchOutcome(c, run, j, w.token, outcome, code);
    assert recorded;
    goOn := !(w.refresh.RefreshRefused? && w.refresh.cls.OwnerAction?);
  }

  /** The failure is recorded: the cache, the cursor and the generations stay as they are. */
  method GiveBack(db: Database, c: ConnId, j: nat, w: World, code: string, cls: RetryClass)
    requires db.Valid() && c in db.lines && Held(db.lines[c], j, w.token)
    modifies db
    ensures db.Valid() && c in db.lines && db.lines == old(db.lines)[c := db.lines[c]]
    ensures Kept(old(db.lines)[c], db.lines[c]) && !Held(db.lines[c], j, w.token)
    ensures FailureSays(old(db.lines)[c], db.lines[c], j, code, cls, w.finishAt)
    ensures NoNewHolder(old(db.lines), db.lines, w.token)
  {
    assert FitsAt(db.lines, db.runs, c);
    FailureIsSpelled(db.lines[c], j, w.token, code, cls, w.finishAt);
    var held := db.RecordFailure(c, j, w.token, code, cls, w.finishAt);
    assert db.lines == old(db.lines)[c := db.lines[c]];
  }

  predicate Kept(line: Line, now: Line) {
    now.cursor == line.cursor && now.completed == line.completed && now.requested == line.requested
  }

  /** The attempt of this turn collects its pages, and in time. */
  predicate SyncWorks(line: Line, w: World) {
    line.active && w.decryptsForSync && w.finishAt < w.claimAt + w.lease && Collect(w.gateway, Start(CursorText(line))).0.Done?
  }

  /** Where a finished attempt from this connection's cursor ends. */
  function EndOfAttempt(line: Line, w: World): Cursor {
    match Collect(w.gateway, Start(CursorText(line))).0
    case Done(_, ending) => ending
    case Failed(_, _) => CursorText(line)
  }

  function PagesOfAttempt(line: Line, w: World): seq<SyncPage> {
    match Collect(w.gateway, Start(CursorText(line))).0
    case Done(pages, _) => pages
    case Failed(_, _) => []
  }

  /** Why an attempt from this connection records a failure, if it does. */
  function FailureOf(line: Line, w: World): Option<(string, RetryClass)> {
    if !line.active then Some(("CONNECTION_NOT_ACTIVE", Permanent))
    else if !w.decryptsForSync then Some(("CONNECTION_TOKEN_MISSING", Permanent))
    else
      match Collect(w.gateway, Start(CursorText(line))).0
      case Failed(code, cls) => Some((code, cls))
      case Done(_, _) => None
  }

  /** What a successful sync of a generation achieves. */
  predicate Achieved(line: Line, rows: Table, now: Line, after: Table, j: nat, generation: nat, w: World) {
    && after == ApplyPages(rows, PagesOfAttempt(line, w), line.cards)
    && now.cursor == Some(EndOfAttempt(line, w)) && now.requested == line.requested
    && now.completed == (if generation > 0 then generation else line.completed)
    && j < |now.jobs| && now.jobs[j].state == (if line.requested > generation then JobQueued else JobSucceeded)
    && now.jobs[j].runAfter == w.finishAt && now.jobs[j].leaseToken == None
  }

  lemma SyncAchieves(t: Tables, c: ConnId, j: nat, generation: nat, w: World)
    requires c in t.lines && Standing(t.lines[c], j, w) && SyncWorks(t.lines[c], w) && LineFits(t.lines[c], t.runs)
    ensures var line := t.lines[c];
            var pages := PagesOfAttempt(line, w);
            var after := SyncOf(t, c, j, w.token, CursorText(line), pages, EndOfAttempt(line, w), generation, w.finishAt);
            && after.lines == t.lines[c := after.lines[c]]
            && Achieved(line, t.rows, after.lines[c], after.rows, j, generation, w)
            && TargetsEnd(line.targets, after.lines[c].targets, generation, Summarize(t.rows, pages, line.cards))
            && NoNewHolder(t.lines, after.lines, w.token) && !Held(after.lines[c], j, w.token)
  {
    var line, pages := t.lines[c], PagesOfAttempt(t.lines[c], w);
    CommitIsSpelled(line, j, w.token, CursorText(line), EndOfAttempt(line, w), generation, Summarize(t.rows, pages, line.cards), w.finishAt);
  }

  /** The sync after the refresh: read the connection, collect the pages, commit or record why not. */
  method SyncConnection(db: Database, claim: Claim, w: World) returns (summary: Option<Summary>)
    requires db.Valid() && claim.conn in db.lines && Standing(db.lines[claim.conn], claim.job, w)
    modifies db, db.cache
    ensures db.Valid() && claim.conn in db.lines && db.lines == old(db.lines)[claim.conn := db.lines[claim.conn]]
    ensures NoNewHolder(old(db.lines), db.lines, w.token)
    ensures w.finishAt < w.claimAt + w.lease ==> !Held(db.lines[claim.conn], claim.job, w.token)
    ensures summary.Some? <==> SyncWorks(old(db.lines)[claim.conn], w)
    ensures summary.Some? ==>
              var line, now := old(db.lines)[claim.conn], db.lines[claim.conn];
              && Achieved(line, old(db.cache.rows), now, db.cache.rows, claim.job, claim.generation, w)
              && summary.value == Summarize(old(db.cache.rows), PagesOfAttempt(line, w), line.cards)
              && TargetsEnd(line.targets, now.targets, claim.generation, summary.value)
    ensures summary.None? ==> db.cache.rows == old(db.cache.rows) && Kept(old(db.lines)[claim.conn], db.lines[claim.conn])
    ensures var line, now := old(db.lines)[claim.conn], db.lines[claim.conn];
            match FailureOf(line, w)
            case Some((code, cls)) => FailureSays(line, now, claim.job, code, cls, w.finishAt)
            case None => summary.None? ==> now == line
  {
    var c, j := claim.conn, claim.job;
    if !db.lines[c].active {
      GiveBack(db, c, j, w, "CONNECTION_NOT_ACTIVE", Permanent);
      return None;
    }
    if !w.decryptsForSync {
      GiveBack(db, c, j, w, "CONNECTION_TOKEN_MISSING", Permanent);
      return None;
    }
    var attempt := CursorText(db.lines[c]);
    var collected, calls := CollectPages(w.gateway, attempt);
    match collected
    case Failed(code, cls) =>
      GiveBack(db, c, j, w, code, cls);
      return None;
    case Done(pages, ending) =>
      assert FitsAt(db.lines, db.runs, c);
      if SyncWorks(db.lines[c], w) {
        SyncAchieves(db.View(), c, j, claim.generation, w);
      }
      summary := db.Synchronize(c, j, w.token, attempt, pages, ending, claim.generation, w.finishAt);
  }

  /** What a turn does with the due job it claims: nothing outside its connection changes; if
      neither the refresh nor the provider stands in the way, everything the claim covers is
      completed, and otherwise nothing is. */
  ghost predicate TurnOf(before: Tables, after: Tables, c: ConnId, j: nat, w: World) {
    && Due(before, c, j, w.claimAt) && c in after.lines && after.lines == before.lines[c := after.lines[c]]
    && var job := before.lines[c].jobs[j];
       AllOrNothing(before.lines[c], before.rows, after.lines[c], after.rows, j, job.targetGeneration, job.attempts + 1, w)
  }

  ghost predicate AllOrNothing(line: Line, rows: Table, now: Line, after: Table, j: nat, generation: nat, attempt: nat, w: World) {
    if GoesOn(line, generation, w) && SyncWorks(line, w)
    then
      && Achieved(line, rows, now, after, j, generation, w) && NoneCovered(now.targets, generation)
      && TargetsTurn(line, now.targets, generation, Summarize(rows, PagesOfAttempt(line, w), line.cards), w)
    else Kept(line, now) && after == rows && JobTurns(line, now, j, generation, attempt, w)
  }

  /** What becomes of the job of a turn without a sync: it succeeds if the refresh decided against one; a
      recorded failure puts it back or fails it. */
  ghost predicate JobTurns(line: Line, now: Line, j: nat, generation: nat, attempt: nat, w: World) {
    && j < |now.jobs|
    && (!GoesOn(line, generation, w) ==> now.jobs[j].state == JobSucceeded)
    && (GoesOn(line, generation, w) && FailureOf(line, w).Some? ==>
          now.jobs[j].state == if FailureOf(line, w).value.1 == Transient && attempt <= 4 then JobQueued else JobFailed)
  }

  /** No target that the generation covers is waiting to be refreshed or synced. */
  ghost predicate NoneCovered(targets: map<RunId, Target>, generation: nat) {
    forall run :: run in targets && targets[run].required <= generation ==> targets[run].state != TargetQueued && targets[run].state != Syncing
  }

  /** How the targets of a connection end in a turn that refreshes and syncs it. */
  ghost predicate TargetsTurn(line: Line, now: map<RunId, Target>, generation: nat, counts: Summary, w: World) {
    && now.Keys == line.targets.Keys
    && forall run :: run in line.targets && run in now ==>
         if DueTarget(line, generation, run) then EndsByTurn(line, now[run].state, counts, w)
         else if CoveredSyncing(line.targets[run], generation) then EndsAs(line.targets[run].outcome, counts, now[run].state)
         else now[run] == line.targets[run]
  }

  /** The end of the target that the turn refreshes, by what kept it from the call or what was answered. */
  predicate EndsByTurn(line: Line, state: TargetState, counts: Summary, w: World) {
    if !line.refreshSupported then state == AutomaticOnly
    else if TooSoon(line, w) then state == InCooldown
    else
      match w.refresh
      case RefreshAccepted => state == if counts.added + counts.modified + counts.removed > 0 then Updated else NoChanges
      case RefreshUnsupported => state == AutomaticOnly
      case RefreshTimeout => state == OutcomeUnknown
      case RefreshRefused(code, _) => state == if OwnerMustAct(code) then ReconnectRequired else TargetFailed
  }

  /** The refresh and the sync of a turn, one after the other, on the targets. */
  lemma TargetsTurnEnds(line: Line, refreshed: Line, now: map<RunId, Target>, generation: nat, counts: Summary, w: World)
    requires OneActive(line.targets) && RefreshDone(line, refreshed, generation, w) && GoesOn(line, generation, w)
    requires TargetsEnd(refreshed.targets, now, generation, counts)
    ensures TargetsTurn(line, now, generation, counts, w) && NoneCovered(now, generation)
  {
    if run :| DueTarget(line, generation, run) {
      assert OneRefreshed(line, refreshed, run, w);
      OneTurnEnds(line, refreshed, now, run, generation, counts, w);
    }
  }

  lemma OneTurnEnds(line: Line, refreshed: Line, now: map<RunId, Target>, due: RunId, generation: nat, counts: Summary, w: World)
    requires OneActive(line.targets) && DueTarget(line, generation, due) && OneRefreshed(line, refreshed, due, w)
    requires GoesOn(line, generation, w) && TargetsEnd(refreshed.targets, now, generation, counts)
    ensures TargetsTurn(line, now, generation, counts, w) && NoneCovered(now, generation)
  {
    assert due in now;
    forall run | run in now
      ensures run in line.targets && run in refreshed.targets
      ensures run != due ==> now[run] == line.targets[run] && !UnderWay(now[run])
    {
      assert run in refreshed.targets;
      if run != due {
        assert refreshed.targets[run] == line.targets[run];
        assert !TargetActive(line.targets[run]);
      }
    }
  }

  lemma TurnWithSync(line: Line, refreshed: Line, rows: Table, now: Line, after: Table, j: nat, generation: nat, attempt: nat, w: World)
    requires OneActive(line.targets) && RefreshDone(line, refreshed, generation, w) && GoesOn(line, generation, w)
    requires SyncWorks(refreshed, w) && Achieved(refreshed, rows, now, after, j, generation, w)
    requires TargetsEnd(refreshed.targets, now.targets, generation, Summarize(rows, PagesOfAttempt(refreshed, w), refreshed.cards))
    ensures AllOrNothing(line, rows, now, after, j, generation, attempt, w)
  {
    TargetsTurnEnds(line, refreshed, now.targets, generation, Summarize(rows, PagesOfAttempt(refreshed, w), refreshed.cards), w);
    SameAttempt(line, refreshed, generation, w);
  }

  /** A refresh leaves alone what the attempt starts from. */
  lemma SameAttempt(line: Line, refreshed: Line, generation: nat, w: World)
    requires RefreshDone(line, refreshed, generation, w)
    ensures refreshed.active == line.active && refreshed.cards == line.cards && refreshed.cursor == line.cursor
    ensures refreshed.requested == line.requested && refreshed.completed == line.completed && refreshed.jobs == line.jobs
  {
    if run :| DueTarget(line, generation, run) {
      assert OneRefreshed(line, refreshed, run, w);
    }
  }

  lemma TurnFails(line: Line, refreshed: Line, rows: Table, now: Line, j: nat, generation: nat, w: World)
    requires RefreshDone(line, refreshed, generation, w) && GoesOn(line, generation, w) && !SyncWorks(refreshed, w)
    requires Kept(refreshed, now) && j < |line.jobs|
    requires match FailureOf(refreshed, w)
             case Some((code, cls)) => FailureSays(refreshed, now, j, code, cls, w.finishAt)
             case None => now == refreshed
    ensures AllOrNothing(line, rows, now, rows, j, generation, line.jobs[j].attempts, w)
  {
    SameAttempt(line, refreshed, generation, w);
  }

  lemma TurnWithoutSync(line: Line, refreshed: Line, rows: Table, now: Line, j: nat, generation: nat, attempt: nat, w: World)
    requires RefreshDone(line, refreshed, generation, w) && !GoesOn(line, generation, w) && Kept(refreshed, now)
    requires j < |now.jobs| && now.jobs[j].state == JobSucceeded
    ensures AllOrNothing(line, rows, now, rows, j, generation, attempt, w)
  {
    SameAttempt(line, refreshed, generation, w);
  }

  /** Only the job is different before the claim. */
  lemma TurnBeforeClaim(line: Line, claimed: Line, rows: Table, now: Line, after: Table, j: nat, generation: nat, attempt: nat, w: World)
    requires claimed == line.(jobs := claimed.jobs) && AllOrNothing(claimed, rows, now, after, j, generation, attempt, w)
    ensures AllOrNothing(line, rows, now, after, j, generation, attempt, w)
  {
    SameTurn(line, claimed, generation, w);
  }

  lemma SameTurn(line: Line, claimed: Line, generation: nat, w: World)
    requires claimed == line.(jobs := claimed.jobs)
    ensures forall run :: DueTarget(line, generation, run) == DueTarget(claimed, generation, run)
    ensures GoesOn(line, generation, w) == GoesOn(claimed, generation, w) && SyncWorks(line, w) == SyncWorks(claimed, w)
    ensures PagesOfAttempt(line, w) == PagesOfAttempt(claimed, w) && EndOfAttempt(line, w) == EndOfAttempt(claimed, w)
    ensures FailureOf(line, w) == FailureOf(claimed, w)
  {
  }

  /** Whatever the provider answers, a turn that nobody interrupts does all or nothing of its
      work, and if it ends inside its lease, no job is left running under its token. */
  method RunOnce(db: Database, w: World) returns (worked: bool)
    requires db.Valid() && FreshToken(db.lines, w.token)
    modifies db, db.cache
    ensures db.Valid()
    ensures worked <==> exists c, j :: Due(old(db.View()), c, j, w.claimAt)
    ensures worked ==> exists c, j :: TurnOf(old(db.View()), db.View(), c, j, w)
    ensures !worked ==> db.View() == old(db.View())
    ensures w.finishAt < w.claimAt + w.lease ==> FreshToken(db.lines, w.token)
  {
    var found := db.ClaimNext(w.token, w.claimAt, w.lease);
    if found.None? {
      return false;
    }
    var claim := found.value;
    ClaimIsOnlyHold(old(db.lines), claim.conn, claim.job, w);
    ghost var claimed := db.lines[claim.conn];
    WorkOnClaim(db, claim, w);
    TurnBeforeClaim(old(db.lines)[claim.conn], claimed, old(db.cache.rows), db.lines[claim.conn], db.cache.rows, claim.job,
                    claim.generation, claimed.jobs[claim.job].attempts, w);
    assert TurnOf(old(db.View()), db.View(), claim.conn, claim.job, w);
    return true;
  }

  /** The turn after its claim. */
  method WorkOnClaim(db: Database, claim: Claim, w: World)
    requires db.Valid() && claim.conn in db.lines && Standing(db.lines[claim.conn], claim.job, w)
    requires OnlyHolder(db.lines, claim.conn, claim.job, w.token)
    requires claim.generation == db.lines[claim.conn].jobs[claim.job].targetGeneration
    modifies db, db.cache
    ensures db.Valid() && claim.conn in db.lines && db.lines == old(db.lines)[claim.conn := db.lines[claim.conn]]
    ensures w.finishAt < w.claimAt + w.lease ==> FreshToken(db.lines, w.token)
    ensures AllOrNothing(old(db.lines)[claim.conn], old(db.cache.rows), db.lines[claim.conn], db.cache.rows,
                         claim.job, claim.generation, old(db.lines)[claim.conn].jobs[claim.job].attempts, w)
  {
    ghost var lines := db.lines;
    assert FitsAt(lines, db.runs, claim.conn);
    var goOn := ProcessRefreshTarget(db, claim.conn, claim.job, w);
    SameHolders(lines, db.lines, claim.conn, w.token);
    FinishTurn(db, claim, goOn, lines[claim.conn], w);
    if w.finishAt < w.claimAt + w.lease {
      HolderLetsGo(lines, db.lines, claim.conn, claim.job, w.token);
    }
  }

  method FinishTurn(db: Database, claim: Claim, goOn: bool, ghost line: Line, w: World)
    requires db.Valid() && claim.conn in db.lines && Standing(db.lines[claim.conn], claim.job, w)
    requires OneActive(line.targets) && RefreshDone(line, db.lines[claim.conn], claim.generation, w) && claim.job < |line.jobs|
    requires goOn <==> GoesOn(line, claim.generation, w)
    modifies db, db.cache
    ensures db.Valid() && claim.conn in db.lines && db.lines == old(db.lines)[claim.conn := db.lines[claim.conn]]
    ensures AllOrNothing(line, old(db.cache.rows), db.lines[claim.conn], db.cache.rows,
                         claim.job, claim.generation, line.jobs[claim.job].attempts, w)
    ensures NoNewHolder(old(db.lines), db.lines, w.token)
    ensures w.finishAt < w.claimAt + w.lease ==> !Held(db.lines[claim.conn], claim.job, w.token)
  {
    ghost var refreshed, rows := db.lines[claim.conn], db.cache.rows;
    if goOn {
      var summary := SyncConnection(db, claim, w);
      if summary.Some? {
        TurnWithSync(line, refreshed, rows, db.lines[claim.conn], db.cache.rows, claim.job, claim.generation,
                     line.jobs[claim.job].attempts, w);
      } else {
        TurnFails(line, refreshed, rows, db.lines[claim.conn], claim.job, claim.generation, w);
      }
    } else {
      StopHere(db, claim, w);
      TurnWithoutSync(line, refreshed, rows, db.lines[claim.conn], claim.job, claim.generation, line.jobs[claim.job].attempts, w);
    }
  }

  method StopHere(db: Database, claim: Claim, w: World)
    requires db.Valid() && claim.conn in db.lines && Standing(db.lines[claim.conn], claim.job, w)
    modifies db
    ensures db.Valid() && claim.conn in db.lines && db.lines == old(db.lines)[claim.conn := db.lines[claim.conn]]
    ensures Kept(old(db.lines)[claim.conn], db.lines[claim.conn])
    ensures FinishSays(old(db.lines)[claim.conn], db.lines[claim.conn], claim.job)
    ensures NoNewHolder(old(db.lines), db.lines, w.token) && !Held(db.lines[claim.conn], claim.job, w.token)
  {
    FinishIsSpelled(db.lines[claim.conn], claim.job, w.token);
    var held := db.FinishWithoutSync(claim.conn, claim.job, w.token);
    assert db.lines == old(db.lines)[claim.conn := db.lines[claim.conn]];
  }

  /** No job runs under this token. */
  ghost predicate FreshToken(lines: map<ConnId, Line>, token: Token) {
    forall c, j :: c in lines ==> !Held(lines[c], j, token)
  }

  ghost predicate OnlyHolder(lines: map<ConnId, Line>, c: ConnId, j: nat, token: Token) {
    forall d, k :: d in lines && Held(lines[d], k, token) ==> d == c && k == j
  }

  lemma ClaimIsOnlyHold(lines: map<ConnId, Line>, c: ConnId, j: nat, w: World)
    requires FreshToken(lines, w.token) && c in lines && j < |lines[c].jobs|
    ensures OnlyHolder(lines[c := ClaimJob(lines[c], j, w.token, w.claimAt, w.lease)], c, j, w.token)
  {
    var after := lines[c := ClaimJob(lines[c], j, w.token, w.claimAt, w.lease)];
    forall d, k: nat | d in after && !(d == c && k == j)
      ensures !Held(after[d], k, w.token)
    {
      assert !Held(lines[d], k, w.token);
    }
  }

  lemma SameHolders(before: map<ConnId, Line>, after: map<ConnId, Line>, c: ConnId, token: Token)
    requires c in before && c in after && after == before[c := after[c]] && after[c].jobs == before[c].jobs
    ensures NoNewHolder(before, after, token)
  {
  }

  lemma HolderLetsGo(before: map<ConnId, Line>, after: map<ConnId, Line>, c: ConnId, j: nat, token: Token)
    requires OnlyHolder(before, c, j, token) && NoNewHolder(before, after, token)
    requires c in after && !Held(after[c], j, token)
    ensures FreshToken(after, token)
  {
  }
}
