/** What every action of the service keeps: every connection's own invariant, the agreement of
    the cache with the provider, and the agreement of every run with its targets. */
module FleetInvariant {
  import opened Wrappers
  import opened Reconcile
  import opened Provider
  import opened PageLoop
  import opened Lines
  import opened Lanes
  import opened LaneInvariant
  import opened LaneSteps
  import opened LaneEffects
  import opened Fleet

  // ---- The cache -------------------------------------------------------------------------------

  /** No account belongs to two logins. */
  ghost predicate Exclusive(pv: Provider) {
    forall c: ConnId, d: ConnId, account :: pv.offers(c, account) && pv.offers(d, account) ==> c == d
  }

  /** The cached rows under an active connection's cards are what the provider has told up to
      its cursor, restricted to those cards. */
  ghost predicate LaneCache(pv: Provider, c: ConnId, line: Line, rows: Table) {
    if line.active then
      && (forall account :: account in line.cards ==> pv.offers(c, account))
      && SnapshotOk(pv, c, pv.snapshot(c, CursorText(line)))
      && Own(rows, line.cards) == Visible(pv.snapshot(c, CursorText(line)), line.cards)
    else line.cards == {}
  }

  ghost predicate Shown(lanes: map<ConnId, Lane>, account: AccountId) {
    exists c :: c in lanes && account in lanes[c].line.cards
  }

  ghost predicate RowShown(lanes: map<ConnId, Lane>, rows: Table, t: TxnId) {
    t in rows ==> Shown(lanes, rows[t].account)
  }

  ghost predicate CachedAt(pv: Provider, lanes: map<ConnId, Lane>, rows: Table, c: ConnId) {
    c in lanes ==> LaneCache(pv, c, lanes[c].line, rows)
  }

  ghost predicate CacheOk(pv: Provider, lanes: map<ConnId, Lane>, rows: Table) {
    && FiledRight(pv, rows)
    && (forall t :: RowShown(lanes, rows, t))
    && (forall c :: CachedAt(pv, lanes, rows, c))
  }

  /** Cards and cursors as the cache sees them. */
  predicate SameCards(line: Line, after: Line) {
    line.active == after.active && line.cards == after.cards && line.cursor == after.cursor
  }

  lemma SameCache(pv: Provider, lanes: map<ConnId, Lane>, after: map<ConnId, Lane>, rows: Table)
    requires CacheOk(pv, lanes, rows) && after.Keys == lanes.Keys
    requires forall c :: c in lanes && c in after ==> SameCards(lanes[c].line, after[c].line)
    ensures CacheOk(pv, after, rows)
  {
    forall t
      ensures RowShown(after, rows, t)
    {
      assert RowShown(lanes, rows, t);
      if t in rows {
        var c :| c in lanes && rows[t].account in lanes[c].line.cards;
        assert c in after;
      }
    }
    forall c
      ensures CachedAt(pv, after, rows, c)
    {
      assert CachedAt(pv, lanes, rows, c);
    }
  }

  lemma {:induction false} UpsertedAccounts(rows: Table, s: seq<PlaidRow>, cards: set<AccountId>, t: TxnId)
    requires t in UpsertAll(rows, s, cards)
    ensures UpsertAll(rows, s, cards)[t].account in cards || (t in rows && UpsertAll(rows, s, cards)[t] == rows[t])
  {
    if s != [] && t in UpsertAll(rows, s[..|s| - 1], cards) {
      UpsertedAccounts(rows, s[..|s| - 1], cards, t);
    }
  }

  lemma {:induction false} AppliedAccounts(rows: Table, pages: seq<SyncPage>, cards: set<AccountId>, t: TxnId)
    requires t in ApplyPages(rows, pages, cards)
    ensures ApplyPages(rows, pages, cards)[t].account in cards || (t in rows && ApplyPages(rows, pages, cards)[t] == rows[t])
  {
    if pages != [] {
      var page, before := pages[|pages| - 1], ApplyPages(rows, pages[..|pages| - 1], cards);
      var added := UpsertAll(before, page.added, cards);
      UpsertedAccounts(added, page.modified, cards, t);
      if t in added {
        UpsertedAccounts(before, page.added, cards, t);
      }
      if t in before {
        AppliedAccounts(rows, pages[..|pages| - 1], cards, t);
      }
    }
  }

  lemma OthersKeepCache(pv: Provider, c: ConnId, d: ConnId, line: Line, other: Line, pages: seq<SyncPage>, rows: Table)
    requires Exclusive(pv) && c != d && FiledRight(pv, rows)
    requires line.active && LaneCache(pv, c, line, rows) && LaneCache(pv, d, other, rows)
    requires Chain(pv, c, CursorText(line), pages)
    ensures LaneCache(pv, d, other, ApplyPages(rows, pages, line.cards))
  {
    if other.cards == {} {
      assert Own(rows, {}) == map[] == Own(ApplyPages(rows, pages, line.cards), {});
    } else if other.active {
      var account :| account in other.cards;
      ChainMovesCache(pv, c, CursorText(line), pages, rows, line.cards, other.cards);
    }
  }

  /** A commit moves the cache of its connection to the cursor it writes, and no other's. */
  lemma CommitKeepsCache(pv: Provider, lanes: map<ConnId, Lane>, c: ConnId, after: Lane, pages: seq<SyncPage>, rows: Table)
    requires Exclusive(pv) && CacheOk(pv, lanes, rows) && c in lanes && lanes[c].line.active
    requires Chain(pv, c, CursorText(lanes[c].line), pages)
    requires after.line.active && after.line.cards == lanes[c].line.cards
    requires after.line.cursor == Some(EndOf(CursorText(lanes[c].line), pages))
    ensures CacheOk(pv, lanes[c := after], ApplyPages(rows, pages, lanes[c].line.cards))
  {
    var line := lanes[c].line;
    var applied := ApplyPages(rows, pages, line.cards);
    var now := lanes[c := after];
    assert CachedAt(pv, lanes, rows, c);
    ChainMovesCache(pv, c, CursorText(line), pages, rows, line.cards, line.cards);
    forall d
      ensures CachedAt(pv, now, applied, d)
    {
      assert CachedAt(pv, lanes, rows, d);
      if d != c && d in lanes {
        OthersKeepCache(pv, c, d, line, lanes[d].line, pages, rows);
      }
    }
    forall t
      ensures RowShown(now, applied, t)
    {
      assert RowShown(lanes, rows, t);
      if t in applied {
        AppliedAccounts(rows, pages, line.cards, t);
        if applied[t].account in line.cards {
          assert c in now;
        } else {
          var d :| d in lanes && rows[t].account in lanes[d].line.cards;
          assert d in now;
        }
      }
    }
  }

  lemma DisconnectKeepsCache(pv: Provider, lanes: map<ConnId, Lane>, c: ConnId, rows: Table)
    requires Exclusive(pv) && CacheOk(pv, lanes, rows) && c in lanes && lanes[c].line.active
    ensures CacheOk(pv, lanes[c := DisconnectStep(lanes[c])], HideCards(rows, lanes[c].line.cards))
  {
    var after, left := lanes[c := DisconnectStep(lanes[c])], HideCards(rows, lanes[c].line.cards);
    assert CachedAt(pv, lanes, rows, c);
    forall d
      ensures CachedAt(pv, after, left, d)
    {
      assert CachedAt(pv, lanes, rows, d);
      if d != c && d in lanes && lanes[d].line.active {
        assert Own(left, lanes[d].line.cards) == Own(rows, lanes[d].line.cards);
      }
    }
    forall t
      ensures RowShown(after, left, t)
    {
      assert RowShown(lanes, rows, t);
      if t in left {
        var d :| d in lanes && rows[t].account in lanes[d].line.cards;
        assert d in after;
      }
    }
  }

  lemma LinkKeepsCache(pv: Provider, lanes: map<ConnId, Lane>, c: ConnId, owner: OwnerId, cards: set<AccountId>, now: int, rows: Table)
    requires Exclusive(pv) && StartsEmpty(pv) && CacheOk(pv, lanes, rows) && c !in lanes
    requires forall account :: account in cards ==> pv.offers(c, account)
    ensures CacheOk(pv, lanes[c := NewLane(owner, cards, now)], rows)
  {
    var after := lanes[c := NewLane(owner, cards, now)];
    forall t
      ensures RowShown(after, rows, t) && (t in rows ==> rows[t].account !in cards)
    {
      assert RowShown(lanes, rows, t);
      if t in rows {
        var d :| d in lanes && rows[t].account in lanes[d].line.cards;
        assert CachedAt(pv, lanes, rows, d) && d in after;
      }
    }
    assert Own(rows, cards) == map[];
    forall d
      ensures CachedAt(pv, after, rows, d)
    {
      assert CachedAt(pv, lanes, rows, d);
    }
  }

  // ---- Runs and their targets -----------------------------------------------------------------------

  /** A run is under way exactly while a target of it is; a finished run says what its targets say. */
  ghost predicate RunOk(run: Run, board: Board) {
    && board != map[]
    && (RunActive(run) <==> ActiveOn(board) != {})
    && (!RunActive(run) ==> run.state == Verdict(board))
  }

  ghost predicate TargetsFiled(line: Line, runs: map<RunId, Run>) {
    forall run :: run in line.targets ==> run in runs && runs[run].owner == line.owner
  }

  ghost predicate FiledAt(lanes: map<ConnId, Lane>, runs: map<RunId, Run>, c: ConnId) {
    c in lanes ==> TargetsFiled(lanes[c].line, runs)
  }

  ghost predicate TargetsHaveRuns(lanes: map<ConnId, Lane>, runs: map<RunId, Run>) {
    forall c :: FiledAt(lanes, runs, c)
  }

  ghost predicate NewestAt(lanes: map<ConnId, Lane>, nextRun: RunId, c: ConnId) {
    c in lanes ==> forall run :: run in lanes[c].hist.created ==> run < nextRun
  }

  ghost predicate IdsOk(lanes: map<ConnId, Lane>, runs: map<RunId, Run>, nextRun: RunId) {
    && (forall run :: run in runs ==> run < nextRun)
    && (forall c :: NewestAt(lanes, nextRun, c))
  }

  ghost predicate RequestsOk(requests: map<RequestKey, Mapping>, runs: map<RunId, Run>) {
    forall key :: key in requests ==> requests[key].run in runs && runs[requests[key].run].owner == key.owner
  }

  ghost predicate MatchAt(lanes: map<ConnId, Lane>, runs: map<RunId, Run>, run: RunId) {
    run in runs ==> RunOk(runs[run], TargetsOf(lanes, run))
  }

  ghost predicate RunsMatch(lanes: map<ConnId, Lane>, runs: map<RunId, Run>) {
    forall run :: MatchAt(lanes, runs, run)
  }

  ghost predicate RunsOk(lanes: map<ConnId, Lane>, runs: map<RunId, Run>, requests: map<RequestKey, Mapping>, nextRun: RunId) {
    && TargetsHaveRuns(lanes, runs) && RunsMatch(lanes, runs) && OneRunPerOwner(runs)
    && IdsOk(lanes, runs, nextRun) && RequestsOk(requests, runs)
  }

  ghost predicate LaneAt(pv: Provider, lease: nat, lanes: map<ConnId, Lane>, tick: nat, c: ConnId) {
    c in lanes ==> LaneInv(pv, c, lanes[c], tick, lease)
  }

  ghost predicate LanesOk(pv: Provider, lease: nat, lanes: map<ConnId, Lane>, tick: nat) {
    forall c :: LaneAt(pv, lease, lanes, tick, c)
  }

  ghost predicate FleetInv(pv: Provider, lease: nat, f: Fleet) {
    && LanesOk(pv, lease, f.lanes, f.tick) && CacheOk(pv, f.lanes, f.rows)
    && RunsOk(f.lanes, f.runs, f.requests, f.nextRun)
  }

  // ---- Runs under steps of the workers ------------------------------------------------------------

  /** The board of a run before and after a step on one connection. */
  lemma BoardMoves(lanes: map<ConnId, Lane>, c: ConnId, after: Lane, run: RunId)
    requires c in lanes && after.line.targets.Keys == lanes[c].line.targets.Keys
    ensures TargetsOf(lanes[c := after], run) ==
            if run in lanes[c].line.targets then TargetsOf(lanes, run)[c := after.line.targets[run]] else TargetsOf(lanes, run)
  {
  }

  /** What a note makes of one run. */
  function Noted(run: Run, id: RunId, board: Board, note: RunNote): Run {
    if note == Started(id) then run.(state := RunRunning)
    else if note == Ended(id) then Derive(run, board)
    else run
  }

  lemma NoteKeepsRun(run: Run, id: RunId, board: Board, c: ConnId, t: Target, note: RunNote)
    requires RunOk(run, board) && c in board && TargetSettles(board[c], t, note, id)
    ensures RunOk(Noted(run, id, board[c := t], note), board[c := t])
    ensures RunActive(Noted(run, id, board[c := t], note)) ==> RunActive(run)
    ensures !RunActive(run) ==> Noted(run, id, board[c := t], note) == run && t == board[c]
  {
    var after := board[c := t];
    assert c in ActiveOn(board) <==> TargetActive(board[c]);
    if TargetActive(board[c]) {
      if note == Ended(id) {
        assert ActiveOn(after) == ActiveOn(board) - {c};
      } else {
        assert ActiveOn(after) == ActiveOn(board);
      }
    } else {
      assert after == board;
    }
  }

  /** A run that a note could touch but whose board has no target here does not exist. */
  lemma WorkKeepsRun(lanes: map<ConnId, Lane>, runs: map<RunId, Run>, c: ConnId, after: Lane, note: RunNote, run: RunId)
    requires RunsMatch(lanes, runs) && c in lanes && run in runs
    requires Settles(lanes[c].line.targets, after.line.targets, note)
    ensures var moved := AfterNote(runs, lanes[c := after], note);
            && run in moved && moved[run] == Noted(runs[run], run, TargetsOf(lanes[c := after], run), note)
            && RunOk(moved[run], TargetsOf(lanes[c := after], run))
            && (RunActive(moved[run]) ==> RunActive(runs[run]))
            && (!RunActive(runs[run]) ==> moved[run] == runs[run])
            && moved[run].owner == runs[run].owner && moved[run].expires == runs[run].expires
  {
    BoardMoves(lanes, c, after, run);
    var board := TargetsOf(lanes, run);
    assert MatchAt(lanes, runs, run);
    if run in lanes[c].line.targets {
      NoteKeepsRun(runs[run], run, board, c, after.line.targets[run], note);
    }
  }

  /** Runs keep their owners, and none comes back to life. */
  ghost predicate RunsMove(runs: map<RunId, Run>, after: map<RunId, Run>) {
    && after.Keys == runs.Keys
    && forall run :: run in runs && run in after ==>
         after[run].owner == runs[run].owner && (RunActive(after[run]) ==> RunActive(runs[run]))
  }

  ghost predicate SameIds(lanes: map<ConnId, Lane>, after: map<ConnId, Lane>) {
    && after.Keys == lanes.Keys
    && forall c :: c in lanes && c in after ==>
         && after[c].line.targets.Keys == lanes[c].line.targets.Keys
         && after[c].line.owner == lanes[c].line.owner && after[c].hist.created == lanes[c].hist.created
  }

  lemma SameIdsKeep(lanes: map<ConnId, Lane>, runs: map<RunId, Run>, requests: map<RequestKey, Mapping>, nextRun: RunId,
                    after: map<ConnId, Lane>, moved: map<RunId, Run>)
    requires RunsOk(lanes, runs, requests, nextRun) && SameIds(lanes, after) && RunsMove(runs, moved)
    requires RunsMatch(after, moved)
    ensures RunsOk(after, moved, requests, nextRun)
  {
    forall c
      ensures FiledAt(after, moved, c) && NewestAt(after, nextRun, c)
    {
      assert FiledAt(lanes, runs, c) && NewestAt(lanes, nextRun, c);
    }
  }

  lemma WorkKeepsRuns(lanes: map<ConnId, Lane>, runs: map<RunId, Run>, c: ConnId, after: Lane, note: RunNote)
    requires RunsMatch(lanes, runs) && c in lanes
    requires Settles(lanes[c].line.targets, after.line.targets, note)
    ensures RunsMatch(lanes[c := after], AfterNote(runs, lanes[c := after], note))
    ensures RunsMove(runs, AfterNote(runs, lanes[c := after], note))
  {
    var now := lanes[c := after];
    var moved := AfterNote(runs, now, note);
    assert moved.Keys == runs.Keys;
    forall run
      ensures MatchAt(now, moved, run)
      ensures run in runs ==> moved[run].owner == runs[run].owner && (RunActive(moved[run]) ==> RunActive(runs[run]))
    {
      if run in runs {
        WorkKeepsRun(lanes, runs, c, after, note, run);
      }
    }
  }

  // ---- Runs under steps that touch many connections ------------------------------------------------

  /** All connections settle at once, with nothing to note. */
  ghost predicate AllSettle(lanes: map<ConnId, Lane>, after: map<ConnId, Lane>) {
    && after.Keys == lanes.Keys
    && forall c :: c in lanes && c in after ==> Settles(lanes[c].line.targets, after[c].line.targets, NoNote)
  }

  lemma SettledBoard(lanes: map<ConnId, Lane>, after: map<ConnId, Lane>, id: RunId, run: Run)
    requires AllSettle(lanes, after) && RunOk(run, TargetsOf(lanes, id))
    ensures RunOk(run, TargetsOf(after, id))
    ensures !RunActive(run) ==> TargetsOf(after, id) == TargetsOf(lanes, id)
  {
    var before, now := TargetsOf(lanes, id), TargetsOf(after, id);
    assert now.Keys == before.Keys;
    forall c | c in before
      ensures TargetSettles(before[c], now[c], NoNote, id)
    {
      assert Settles(lanes[c].line.targets, after[c].line.targets, NoNote);
    }
    assert ActiveOn(now) == ActiveOn(before);
    if !RunActive(run) {
      forall c | c in before
        ensures now[c] == before[c]
      {
        assert c !in ActiveOn(before);
      }
      assert now == before;
    }
  }

  lemma SettledRuns(lanes: map<ConnId, Lane>, runs: map<RunId, Run>, after: map<ConnId, Lane>)
    requires RunsMatch(lanes, runs) && AllSettle(lanes, after)
    ensures RunsMatch(after, runs)
  {
    forall run
      ensures MatchAt(after, runs, run)
    {
      assert MatchAt(lanes, runs, run);
      if run in runs {
        SettledBoard(lanes, after, run, runs[run]);
      }
    }
  }

  // ---- Creating a run --------------------------------------------------------------------------------

  lemma HasActive(board: Board, c: ConnId)
    requires c in board && TargetActive(board[c])
    ensures ActiveOn(board) != {}
  {
    assert c in ActiveOn(board);
  }

  /** No connection the new run would snapshot has a target under way. */
  lemma SnapshotIsFree(lanes: map<ConnId, Lane>, runs: map<RunId, Run>, owner: OwnerId, c: ConnId)
    requires TargetsHaveRuns(lanes, runs) && RunsMatch(lanes, runs)
    requires FindActiveRun(runs, owner).None? && c in Snapshot(lanes, owner)
    ensures FindActive(lanes[c].line.targets).None?
  {
    var found := FindActive(lanes[c].line.targets);
    if found.Some? {
      assert FiledAt(lanes, runs, c) && MatchAt(lanes, runs, found.value);
      HasActive(TargetsOf(lanes, found.value), c);
    }
  }

  /** Other runs keep their targets; the new one has one queued target for each active
      connection of the owner, and its generation is the one just requested there. */
  lemma OpenedBoards(lanes: map<ConnId, Lane>, owner: OwnerId, run: RunId, now: int, tick: nat, other: RunId)
    requires forall c :: c in lanes ==> run !in lanes[c].line.targets
    ensures var after := Opened(lanes, owner, run, now, tick);
            if other != run then TargetsOf(after, other) == TargetsOf(lanes, other)
            else
              var board := TargetsOf(after, run);
              && board.Keys == Snapshot(lanes, owner)
              && forall c :: c in board ==> NewTargetOk(lanes[c].line, after[c].line, board[c])
  {
    var after := Opened(lanes, owner, run, now, tick);
    forall c | c in lanes
      ensures other != run ==> (other in after[c].line.targets <==> other in lanes[c].line.targets)
      ensures other != run && other in lanes[c].line.targets ==> after[c].line.targets[other] == lanes[c].line.targets[other]
      ensures run in after[c].line.targets <==> c in Snapshot(lanes, owner)
    {
      if c in Snapshot(lanes, owner) {
        OpenedLane(lanes[c], run, now, tick);
      }
    }
    if other != run {
      assert TargetsOf(after, other) == TargetsOf(lanes, other);
    } else {
      assert TargetsOf(after, run).Keys == Snapshot(lanes, owner);
      forall c | c in TargetsOf(after, run)
        ensures NewTargetOk(lanes[c].line, after[c].line, after[c].line.targets[run])
      {
        OpenedLane(lanes[c], run, now, tick);
      }
    }
  }

  predicate NewTargetOk(before: Line, after: Line, t: Target) {
    && t.state.TargetQueued? && t.outcome.NotAttempted?
    && t.required == before.requested + 1 == after.requested
  }

  lemma OpenedLane(lane: Lane, run: RunId, now: int, tick: nat)
    requires lane.line.active
    ensures var after := TargetStep(lane, run, now, tick);
            && after.line.targets.Keys == lane.line.targets.Keys + {run}
            && after.line.targets - {run} == lane.line.targets - {run}
            && NewTargetOk(lane.line, after.line, after.line.targets[run])
            && after.line.owner == lane.line.owner && SameCards(lane.line, after.line)
            && after.hist.created == lane.hist.created[run := tick]
  {
  }

  lemma CreatedMatch(lanes: map<ConnId, Lane>, runs: map<RunId, Run>, run: RunId, created: Run, now: int, tick: nat)
    requires RunsMatch(lanes, runs) && run !in runs && created.state.RunQueued?
    requires forall c :: c in lanes ==> run !in lanes[c].line.targets
    requires Snapshot(lanes, created.owner) != {}
    ensures RunsMatch(Opened(lanes, created.owner, run, now, tick), runs[run := created])
  {
    var after, more := Opened(lanes, created.owner, run, now, tick), runs[run := created];
    forall other
      ensures MatchAt(after, more, other)
    {
      assert MatchAt(lanes, runs, other);
      OpenedBoards(lanes, created.owner, run, now, tick, other);
      if other == run {
        var board := TargetsOf(after, run);
        var c :| c in Snapshot(lanes, created.owner);
        assert NewTargetOk(lanes[c].line, after[c].line, board[c]);
        assert c in ActiveOn(board);
      }
    }
  }

  lemma CreatedIds(lanes: map<ConnId, Lane>, runs: map<RunId, Run>, run: RunId, created: Run, now: int, tick: nat)
    requires TargetsHaveRuns(lanes, runs) && IdsOk(lanes, runs, run)
    ensures var after := Opened(lanes, created.owner, run, now, tick);
            TargetsHaveRuns(after, runs[run := created]) && IdsOk(after, runs[run := created], run + 1)
  {
    var more, next := runs[run := created], run + 1;
    var after := Opened(lanes, created.owner, run, now, tick);
    forall c
      ensures FiledAt(after, more, c) && NewestAt(after, next, c)
    {
      assert FiledAt(lanes, runs, c) && NewestAt(lanes, run, c);
      if c in Snapshot(lanes, created.owner) {
        OpenedLane(lanes[c], run, now, tick);
      }
    }
  }

  lemma CreatedRuns(lanes: map<ConnId, Lane>, runs: map<RunId, Run>, requests: map<RequestKey, Mapping>, nextRun: RunId,
                    key: RequestKey, expires: int, now: int, tick: nat)
    requires RunsOk(lanes, runs, requests, nextRun)
    requires FindActiveRun(runs, key.owner).None? && Snapshot(lanes, key.owner) != {}
    ensures RunsOk(Opened(lanes, key.owner, nextRun, now, tick), runs[nextRun := Run(key.owner, RunQueued, expires)],
                   requests[key := Mapping(nextRun, expires)], nextRun + 1)
  {
    var created := Run(key.owner, RunQueued, expires);
    forall c | c in lanes
      ensures nextRun !in lanes[c].line.targets
    {
      assert FiledAt(lanes, runs, c);
    }
    CreatedMatch(lanes, runs, nextRun, created, now, tick);
    CreatedIds(lanes, runs, nextRun, created, now, tick);
  }

  /** No connection has heard of the next run. */
  ghost predicate Unheard(lanes: map<ConnId, Lane>, run: RunId) {
    forall c :: NewestAt(lanes, run, c)
  }

  lemma CreatedLanes(pv: Provider, lease: nat, lanes: map<ConnId, Lane>, runs: map<RunId, Run>, owner: OwnerId,
                     run: RunId, now: int, tick: nat)
    requires LanesOk(pv, lease, lanes, tick) && TargetsHaveRuns(lanes, runs) && RunsMatch(lanes, runs) && Unheard(lanes, run)
    requires FindActiveRun(runs, owner).None?
    ensures LanesOk(pv, lease, Opened(lanes, owner, run, now, tick), tick + 1)
  {
    var next := tick + 1;
    var after := Opened(lanes, owner, run, now, tick);
    forall c
      ensures LaneAt(pv, lease, after, next, c)
    {
      assert LaneAt(pv, lease, lanes, tick, c) && NewestAt(lanes, run, c);
      if c in Snapshot(lanes, owner) {
        SnapshotIsFree(lanes, runs, owner, c);
        TargetKeeps(pv, c, lanes[c], tick, lease, now, run);
      } else if c in lanes {
        TickMove(pv, c, lanes[c], tick, lease);
      }
    }
  }

  lemma CreatedCache(pv: Provider, lanes: map<ConnId, Lane>, rows: Table, owner: OwnerId, run: RunId, now: int, tick: nat)
    requires CacheOk(pv, lanes, rows)
    ensures CacheOk(pv, Opened(lanes, owner, run, now, tick), rows)
  {
    var after := Opened(lanes, owner, run, now, tick);
    forall c | c in lanes
      ensures SameCards(lanes[c].line, after[c].line)
    {
      if c in Snapshot(lanes, owner) {
        OpenedLane(lanes[c], run, now, tick);
      }
    }
    SameCache(pv, lanes, after, rows);
  }

  // ---- Every action ------------------------------------------------------------------------------------

  lemma TicksMove(pv: Provider, lease: nat, lanes: map<ConnId, Lane>, tick: nat)
    requires LanesOk(pv, lease, lanes, tick)
    ensures LanesOk(pv, lease, lanes, tick + 1)
  {
    var next := tick + 1;
    forall c
      ensures LaneAt(pv, lease, lanes, next, c)
    {
      assert LaneAt(pv, lease, lanes, tick, c);
      if c in lanes {
        TickMove(pv, c, lanes[c], tick, lease);
      }
    }
  }

  lemma OneLane(pv: Provider, lease: nat, lanes: map<ConnId, Lane>, tick: nat, c: ConnId, after: Lane)
    requires LanesOk(pv, lease, lanes, tick) && LaneInv(pv, c, after, tick + 1, lease)
    ensures LanesOk(pv, lease, lanes[c := after], tick + 1)
  {
    var next := tick + 1;
    TicksMove(pv, lease, lanes, tick);
    var now := lanes[c := after];
    forall d
      ensures LaneAt(pv, lease, now, next, d)
    {
      assert LaneAt(pv, lease, lanes, next, d);
    }
  }

  lemma NewLaneOk(pv: Provider, c: ConnId, owner: OwnerId, cards: set<AccountId>, now: int, tick: nat, lease: nat)
    ensures LaneInv(pv, c, NewLane(owner, cards, now), tick, lease)
  {
    var empty := Lane(Line(owner, true, cards, None, 0, 0, None, true, [], map[]), map[], map[], NO_HISTORY);
    assert LaneInv(pv, c, empty, tick, lease);
    EnqueueKeeps(pv, c, empty, tick, lease, now);
  }

  lemma LinkRuns(lanes: map<ConnId, Lane>, runs: map<RunId, Run>, requests: map<RequestKey, Mapping>, nextRun: RunId,
                 c: ConnId, owner: OwnerId, cards: set<AccountId>, now: int)
    requires RunsOk(lanes, runs, requests, nextRun) && c !in lanes
    ensures RunsOk(lanes[c := NewLane(owner, cards, now)], runs, requests, nextRun)
  {
    var lane := NewLane(owner, cards, now);
    assert lane.line.targets == map[] && lane.hist.created == map[];
    var after := lanes[c := lane];
    forall run
      ensures MatchAt(after, runs, run)
    {
      assert MatchAt(lanes, runs, run) && TargetsOf(after, run) == TargetsOf(lanes, run);
    }
    forall d
      ensures FiledAt(after, runs, d) && NewestAt(after, nextRun, d)
    {
      assert FiledAt(lanes, runs, d) && NewestAt(lanes, nextRun, d);
    }
  }

  lemma LinkLanes(pv: Provider, lease: nat, lanes: map<ConnId, Lane>, tick: nat, c: ConnId, owner: OwnerId,
                  cards: set<AccountId>, now: int)
    requires LanesOk(pv, lease, lanes, tick)
    ensures LanesOk(pv, lease, lanes[c := NewLane(owner, cards, now)], tick + 1)
  {
    NewLaneOk(pv, c, owner, cards, now, tick + 1, lease);
    OneLane(pv, lease, lanes, tick, c, NewLane(owner, cards, now));
  }

  lemma LinkKeeps(pv: Provider, lease: nat, f: Fleet, c: ConnId, owner: OwnerId, cards: set<AccountId>)
    requires Exclusive(pv) && StartsEmpty(pv) && FleetInv(pv, lease, f) && CanDo(pv, lease, f, Link(c, owner, cards))
    ensures FleetInv(pv, lease, Next(pv, lease, f, Link(c, owner, cards)))
  {
    LinkLanes(pv, lease, f.lanes, f.tick, c, owner, cards, f.now);
    LinkKeepsCache(pv, f.lanes, c, owner, cards, f.now, f.rows);
    LinkRuns(f.lanes, f.runs, f.requests, f.nextRun, c, owner, cards, f.now);
    assert Next(pv, lease, f, Link(c, owner, cards)) == f.(tick := f.tick + 1, lanes := f.lanes[c := NewLane(owner, cards, f.now)]);
  }

  lemma WorkCache(pv: Provider, lease: nat, f: Fleet, c: ConnId, token: Token, step: LaneAction)
    requires Exclusive(pv) && CacheOk(pv, f.lanes, f.rows) && CanDo(pv, lease, f, Work(c, token, step))
    requires PagesOk(pv, c, f.lanes[c].pcs)
    ensures var after := WorkStep(pv, lease, f, c, token, step); CacheOk(pv, after.lanes, after.rows)
  {
    var lane, moved := f.lanes[c], Step(pv, c, f.lanes[c], token, step, Clock(f, lease));
    StepFrame(pv, c, lane, token, step, Clock(f, lease));
    if step.Commit? && Commits(lane, token, f.now) {
      assert PagesOf(pv, c, lane.pcs[token]);
      CommitKeepsCache(pv, f.lanes, c, moved.lane, lane.pcs[token].pages, f.rows);
    } else {
      SameCache(pv, f.lanes, f.lanes[c := moved.lane], f.rows);
    }
  }

  lemma WorkRuns(pv: Provider, lease: nat, f: Fleet, c: ConnId, token: Token, step: LaneAction)
    requires RunsOk(f.lanes, f.runs, f.requests, f.nextRun) && CanDo(pv, lease, f, Work(c, token, step))
    requires WorkOk(f.lanes[c]) && RefreshOk(f.lanes[c])
    ensures var after := WorkStep(pv, lease, f, c, token, step);
            RunsOk(after.lanes, after.runs, f.requests, f.nextRun)
  {
    var m := Clock(f, lease);
    var moved := Step(pv, c, f.lanes[c], token, step, m);
    StepSettles(pv, c, f.lanes[c], token, step, m);
    StepFrame(pv, c, f.lanes[c], token, step, m);
    WorkKeepsRuns(f.lanes, f.runs, c, moved.lane, moved.note);
    SameIdsKeep(f.lanes, f.runs, f.requests, f.nextRun, f.lanes[c := moved.lane],
                AfterNote(f.runs, f.lanes[c := moved.lane], moved.note));
  }

  lemma StepInv(pv: Provider, lanes: map<ConnId, Lane>, c: ConnId, token: Token, step: LaneAction, m: Moment) returns (after: Lane)
    requires LanesOk(pv, m.lease, lanes, m.tick) && c in lanes && Enabled(pv, c, lanes[c], token, step, m)
    ensures after == Step(pv, c, lanes[c], token, step, m).lane && LaneInv(pv, c, after, m.tick + 1, m.lease)
  {
    LaneHolds(pv, m.lease, lanes, m.tick, c);
    StepKeeps(pv, c, lanes[c], token, step, m);
    after := Step(pv, c, lanes[c], token, step, m).lane;
  }

  lemma WorkLanes(pv: Provider, lanes: map<ConnId, Lane>, c: ConnId, token: Token, step: LaneAction, m: Moment) returns (after: Lane)
    requires LanesOk(pv, m.lease, lanes, m.tick) && c in lanes && Enabled(pv, c, lanes[c], token, step, m)
    ensures after == Step(pv, c, lanes[c], token, step, m).lane && LanesOk(pv, m.lease, lanes[c := after], m.tick + 1)
  {
    after := StepInv(pv, lanes, c, token, step, m);
    OneLane(pv, m.lease, lanes, m.tick, c, after);
  }

  lemma LaneHolds(pv: Provider, lease: nat, lanes: map<ConnId, Lane>, tick: nat, c: ConnId)
    requires LanesOk(pv, lease, lanes, tick) && c in lanes
    ensures LaneInv(pv, c, lanes[c], tick, lease)
  {
    assert LaneAt(pv, lease, lanes, tick, c);
  }

  lemma LaneParts(pv: Provider, lease: nat, lanes: map<ConnId, Lane>, tick: nat, c: ConnId)
    requires LanesOk(pv, lease, lanes, tick) && c in lanes
    ensures WorkOk(lanes[c]) && RefreshOk(lanes[c]) && PagesOk(pv, c, lanes[c].pcs)
  {
    assert LaneAt(pv, lease, lanes, tick, c);
  }

  lemma WorkLanesOk(pv: Provider, lease: nat, f: Fleet, c: ConnId, token: Token, step: LaneAction)
    requires LanesOk(pv, lease, f.lanes, f.tick) && CanDo(pv, lease, f, Work(c, token, step))
    ensures LanesOk(pv, lease, WorkStep(pv, lease, f, c, token, step).lanes, f.tick + 1)
  {
    var after := WorkLanes(pv, f.lanes, c, token, step, Clock(f, lease));
    assert WorkStep(pv, lease, f, c, token, step).lanes == f.lanes[c := after];
  }

  lemma Ticked(pv: Provider, lease: nat, f: Fleet, tick: nat)
    requires LanesOk(pv, lease, f.lanes, tick) && CacheOk(pv, f.lanes, f.rows) && RunsOk(f.lanes, f.runs, f.requests, f.nextRun)
    ensures FleetInv(pv, lease, f.(tick := tick))
  {
  }

  lemma WorkKeeps(pv: Provider, lease: nat, f: Fleet, c: ConnId, token: Token, step: LaneAction)
    requires Exclusive(pv) && FleetInv(pv, lease, f) && CanDo(pv, lease, f, Work(c, token, step))
    ensures FleetInv(pv, lease, Next(pv, lease, f, Work(c, token, step)))
  {
    LaneParts(pv, lease, f.lanes, f.tick, c);
    WorkLanesOk(pv, lease, f, c, token, step);
    WorkRuns(pv, lease, f, c, token, step);
    WorkCache(pv, lease, f, c, token, step);
    Ticked(pv, lease, WorkStep(pv, lease, f, c, token, step), f.tick + 1);
  }

  lemma RecoveredLanes(pv: Provider, lease: nat, lanes: map<ConnId, Lane>, after: map<ConnId, Lane>, tick: nat, now: int)
    requires LanesOk(pv, lease, lanes, tick) && after == Recovered(lanes, now)
    ensures LanesOk(pv, lease, after, tick + 1)
  {
    var next := tick + 1;
    forall c
      ensures LaneAt(pv, lease, after, next, c)
    {
      assert LaneAt(pv, lease, lanes, tick, c);
      if c in lanes {
        TickMove(pv, c, lanes[c], tick, lease);
        RecoverKeeps(pv, c, lanes[c], next, lease, now);
      }
    }
  }

  lemma RecoveredSettle(lanes: map<ConnId, Lane>, after: map<ConnId, Lane>, now: int)
    requires after == Recovered(lanes, now)
    ensures AllSettle(lanes, after) && SameIds(lanes, after)
    ensures forall c :: c in lanes && c in after ==> SameCards(lanes[c].line, after[c].line)
  {
    forall c | c in lanes
      ensures Settles(lanes[c].line.targets, after[c].line.targets, NoNote)
    {
      RecoverSettles(lanes[c], now);
    }
  }

  lemma RecoverAllKeeps(pv: Provider, lease: nat, f: Fleet)
    requires FleetInv(pv, lease, f)
    ensures FleetInv(pv, lease, Next(pv, lease, f, RecoverAll))
  {
    var after := Recovered(f.lanes, f.now);
    RecoveredLanes(pv, lease, f.lanes, after, f.tick, f.now);
    RecoveredSettle(f.lanes, after, f.now);
    SettledRuns(f.lanes, f.runs, after);
    SameIdsKeep(f.lanes, f.runs, f.requests, f.nextRun, after, f.runs);
    SameCache(pv, f.lanes, after, f.rows);
  }

  lemma DisconnectRuns(lanes: map<ConnId, Lane>, runs: map<RunId, Run>, requests: map<RequestKey, Mapping>, nextRun: RunId, c: ConnId)
    requires RunsOk(lanes, runs, requests, nextRun) && c in lanes
    ensures RunsOk(lanes[c := DisconnectStep(lanes[c])], runs, requests, nextRun)
  {
    var after := lanes[c := DisconnectStep(lanes[c])];
    forall d | d in lanes
      ensures Settles(lanes[d].line.targets, after[d].line.targets, NoNote)
    {
    }
    SettledRuns(lanes, runs, after);
    SameIdsKeep(lanes, runs, requests, nextRun, after, runs);
  }

  lemma DisconnectLanes(pv: Provider, lease: nat, lanes: map<ConnId, Lane>, tick: nat, c: ConnId)
    requires LanesOk(pv, lease, lanes, tick) && c in lanes
    ensures LanesOk(pv, lease, lanes[c := DisconnectStep(lanes[c])], tick + 1)
  {
    assert LaneAt(pv, lease, lanes, tick, c);
    TickMove(pv, c, lanes[c], tick, lease);
    DisconnectKeeps(pv, c, lanes[c], tick + 1, lease);
    OneLane(pv, lease, lanes, tick, c, DisconnectStep(lanes[c]));
  }

  lemma DisconnectConnKeeps(pv: Provider, lease: nat, f: Fleet, c: ConnId)
    requires Exclusive(pv) && FleetInv(pv, lease, f) && CanDo(pv, lease, f, DisconnectConn(c))
    ensures FleetInv(pv, lease, Next(pv, lease, f, DisconnectConn(c)))
  {
    DisconnectLanes(pv, lease, f.lanes, f.tick, c);
    DisconnectRuns(f.lanes, f.runs, f.requests, f.nextRun, c);
    DisconnectKeepsCache(pv, f.lanes, c, f.rows);
  }

  lemma CoalescedRuns(lanes: map<ConnId, Lane>, runs: map<RunId, Run>, requests: map<RequestKey, Mapping>, nextRun: RunId,
                      key: RequestKey, m: Mapping)
    requires RunsOk(lanes, runs, requests, nextRun) && m.run in runs && runs[m.run].owner == key.owner
    ensures RunsOk(lanes, runs, requests[key := m], nextRun)
  {
  }

  lemma CreatedKeeps(pv: Provider, lease: nat, f: Fleet, key: RequestKey, run: RunId, expires: int)
    requires FleetInv(pv, lease, f) && run == f.nextRun
    requires FindActiveRun(f.runs, key.owner).None? && Snapshot(f.lanes, key.owner) != {}
    ensures FleetInv(pv, lease, Fleet(
              f.now, f.tick + 1, Opened(f.lanes, key.owner, run, f.now, f.tick), f.runs[run := Run(key.owner, RunQueued, expires)],
              f.requests[key := Mapping(run, expires)], f.rows, run + 1))
  {
    CreatedLanes(pv, lease, f.lanes, f.runs, key.owner, run, f.now, f.tick);
    CreatedRuns(f.lanes, f.runs, f.requests, run, key, expires, f.now, f.tick);
    CreatedCache(pv, f.lanes, f.rows, key.owner, run, f.now, f.tick);
  }

  lemma OpenedKeeps(pv: Provider, lease: nat, f: Fleet, key: RequestKey)
    requires FleetInv(pv, lease, f) && FindActiveRun(f.runs, key.owner).None? && Snapshot(f.lanes, key.owner) != {}
    ensures FleetInv(pv, lease, OpenRun(f, key).(tick := f.tick + 1))
  {
    var run, expires := f.nextRun, f.now + RETENTION_SECONDS;
    CreatedKeeps(pv, lease, f, key, run, expires);
    assert OpenRun(f, key).(tick := f.tick + 1) == Fleet(
        f.now, f.tick + 1, Opened(f.lanes, key.owner, run, f.now, f.tick), f.runs[run := Run(key.owner, RunQueued, expires)],
        f.requests[key := Mapping(run, expires)], f.rows, run + 1);
  }

  lemma MappedKeeps(pv: Provider, lease: nat, f: Fleet, key: RequestKey)
    requires FleetInv(pv, lease, f) && !Answer(f, key).Created?
    ensures FleetInv(pv, lease, CreateRun(f, key).(tick := f.tick + 1))
  {
    TicksMove(pv, lease, f.lanes, f.tick);
    var answer := Answer(f, key);
    if answer.Coalesced? {
      CoalescedRuns(f.lanes, f.runs, f.requests, f.nextRun, key, Mapping(answer.run, f.now + RETENTION_SECONDS));
    }
  }

  lemma CreateKeeps(pv: Provider, lease: nat, f: Fleet, key: RequestKey)
    requires FleetInv(pv, lease, f)
    ensures FleetInv(pv, lease, CreateRun(f, key).(tick := f.tick + 1))
  {
    var answer := Answer(f, key);
    if answer.Created? {
      OpenedKeeps(pv, lease, f, key);
    } else {
      MappedKeeps(pv, lease, f, key);
    }
  }

  /** A run that is over has no target under way anywhere. */
  lemma GoneAreDone(lanes: map<ConnId, Lane>, runs: map<RunId, Run>, gone: set<RunId>, c: ConnId)
    requires RunsMatch(lanes, runs) && c in lanes
    requires forall run :: run in gone ==> run in runs && !RunActive(runs[run])
    ensures forall run :: run in gone && run in lanes[c].line.targets ==> !TargetActive(lanes[c].line.targets[run])
  {
    forall run | run in gone && run in lanes[c].line.targets
      ensures !TargetActive(lanes[c].line.targets[run])
    {
      assert MatchAt(lanes, runs, run);
      assert c !in ActiveOn(TargetsOf(lanes, run));
    }
  }

  lemma CleanupLanes(pv: Provider, lease: nat, lanes: map<ConnId, Lane>, runs: map<RunId, Run>, gone: set<RunId>, tick: nat)
    requires LanesOk(pv, lease, lanes, tick) && RunsMatch(lanes, runs)
    requires forall run :: run in gone ==> run in runs && !RunActive(runs[run])
    ensures LanesOk(pv, lease, Dropped(lanes, gone), tick + 1)
  {
    var next := tick + 1;
    var after := Dropped(lanes, gone);
    forall c
      ensures LaneAt(pv, lease, after, next, c)
    {
      assert LaneAt(pv, lease, lanes, tick, c);
      if c in lanes {
        GoneAreDone(lanes, runs, gone, c);
        TickMove(pv, c, lanes[c], tick, lease);
        DropKeeps(pv, c, lanes[c], next, lease, gone);
      }
    }
  }

  lemma CleanupMatch(lanes: map<ConnId, Lane>, runs: map<RunId, Run>, gone: set<RunId>)
    requires RunsMatch(lanes, runs)
    ensures RunsMatch(Dropped(lanes, gone), runs - gone)
  {
    var after := Dropped(lanes, gone);
    forall run
      ensures MatchAt(after, runs - gone, run)
    {
      assert MatchAt(lanes, runs, run);
      if run in runs - gone {
        assert TargetsOf(after, run) == TargetsOf(lanes, run);
      }
    }
  }

  lemma CleanupRuns(lanes: map<ConnId, Lane>, runs: map<RunId, Run>, requests: map<RequestKey, Mapping>, nextRun: RunId, gone: set<RunId>)
    requires RunsOk(lanes, runs, requests, nextRun)
    ensures RunsOk(Dropped(lanes, gone), runs - gone, Forgotten(requests, gone), nextRun)
  {
    var after := Dropped(lanes, gone);
    CleanupMatch(lanes, runs, gone);
    forall c
      ensures FiledAt(after, runs - gone, c) && NewestAt(after, nextRun, c)
    {
      assert FiledAt(lanes, runs, c) && NewestAt(lanes, nextRun, c);
    }
  }

  lemma CleanupKeeps(pv: Provider, lease: nat, f: Fleet, gone: set<RunId>)
    requires FleetInv(pv, lease, f) && CleanupBatch(f.runs, f.now, gone)
    ensures FleetInv(pv, lease, Next(pv, lease, f, Cleanup(gone)))
  {
    CleanupLanes(pv, lease, f.lanes, f.runs, gone, f.tick);
    CleanupRuns(f.lanes, f.runs, f.requests, f.nextRun, gone);
    SameCache(pv, f.lanes, Dropped(f.lanes, gone), f.rows);
  }

  /** Every action keeps the invariant of the service. */
  lemma NextKeeps(pv: Provider, lease: nat, f: Fleet, a: Action)
    requires Exclusive(pv) && StartsEmpty(pv) && FleetInv(pv, lease, f) && CanDo(pv, lease, f, a)
    ensures FleetInv(pv, lease, Next(pv, lease, f, a))
  {
    match a
    case Wait(_) => TicksMove(pv, lease, f.lanes, f.tick);
    case Link(c, owner, cards) => LinkKeeps(pv, lease, f, c, owner, cards);
    case Work(c, token, step) => WorkKeeps(pv, lease, f, c, token, step);
    case RecoverAll => RecoverAllKeeps(pv, lease, f);
    case DisconnectConn(c) => DisconnectConnKeeps(pv, lease, f, c);
    case Create(key) => CreateKeeps(pv, lease, f, key);
    case Cleanup(gone) => CleanupKeeps(pv, lease, f, gone);
  }
}
