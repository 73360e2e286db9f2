/** Refresh runs over whole runs of the service: a run follows its targets, what is finished
    stays as it is, and a request that is repeated gets the run it got before. */
module Refreshes {
  import opened Wrappers
  import opened Reconcile
  import opened Provider
  import opened PageLoop
  import opened Lines
  import opened Lanes
  import opened LaneInvariant
  import opened LaneSteps
  import opened LaneEffects
  import opened Fleet
  import opened FleetInvariant
  import opened Reach
  import opened Spelled

  // ---- A run follows its targets --------------------------------------------------------------

  lemma SubsetSize<T>(small: set<T>, big: set<T>)
    requires small <= big
    ensures |small| <= |big| && (|small| == |big| <==> small == big)
  {
    assert big == small + (big - small);
  }

  /** The verdict in plain words: all, none, or some of the targets are acceptable. */
  lemma VerdictMeans(board: Board)
    requires board != map[]
    ensures Verdict(board) == RunSucceeded <==> forall c :: c in board ==> Acceptable(board[c])
    ensures Verdict(board) == RunFailed <==> forall c :: c in board ==> !Acceptable(board[c])
    ensures Verdict(board) == RunPartial <==>
              (exists c :: c in board && Acceptable(board[c])) && (exists c :: c in board && !Acceptable(board[c]))
  {
    SubsetSize(AcceptableOn(board), board.Keys);
    assert |board| == |board.Keys|;
    forall c | c in board
      ensures Acceptable(board[c]) <==> c in AcceptableOn(board)
    {
    }
    assert AcceptableOn(board) == board.Keys <==> forall c :: c in board ==> c in AcceptableOn(board);
    assert AcceptableOn(board) == {} <==> forall c :: c in board ==> c !in AcceptableOn(board);
    var c :| c in board;
  }

  /** In every state of every run of the service: a refresh run has targets, it is queued or
      running exactly while one of them is active, and once over it is succeeded, failed or
      partial exactly as all, none or some of them are acceptable. */
  lemma RunFollowsTargets(pv: Provider, lease: nat, trace: seq<Fleet>, acts: seq<Action>, n: nat, run: RunId)
    requires Sound(pv) && IsRun(pv, lease, trace, acts) && n <= |acts| && run in trace[n].runs
    ensures var board, state := TargetsOf(trace[n].lanes, run), trace[n].runs[run].state;
            && board != map[]
            && (state == RunQueued || state == RunRunning <==> exists c :: c in board && UnderWay(board[c]))
            && ((forall c :: c in board ==> !UnderWay(board[c])) ==>
                  && (state == RunSucceeded <==> forall c :: c in board ==> EndedWell(board[c]))
                  && (state == RunFailed <==> forall c :: c in board ==> !EndedWell(board[c]))
                  && (state == RunPartial <==>
                        (exists c :: c in board && EndedWell(board[c])) && (exists c :: c in board && !EndedWell(board[c]))))
  {
    Reached(pv, lease, trace, acts, n);
    assert MatchAt(trace[n].lanes, trace[n].runs, run);
    RunInWords(trace[n].runs[run], TargetsOf(trace[n].lanes, run));
  }

  lemma RunInWords(run: Run, board: Board)
    requires RunOk(run, board)
    ensures run.state == RunQueued || run.state == RunRunning <==> exists c :: c in board && UnderWay(board[c])
    ensures (forall c :: c in board ==> !UnderWay(board[c])) ==>
              && (run.state == RunSucceeded <==> forall c :: c in board ==> EndedWell(board[c]))
              && (run.state == RunFailed <==> forall c :: c in board ==> !EndedWell(board[c]))
              && (run.state == RunPartial <==>
                    (exists c :: c in board && EndedWell(board[c])) && (exists c :: c in board && !EndedWell(board[c])))
  {
    VerdictMeans(board);
    forall c | c in board
      ensures Acceptable(board[c]) <==> EndedWell(board[c])
      ensures c in ActiveOn(board) <==> UnderWay(board[c])
    {
    }
    if c :| c in board && UnderWay(board[c]) {
      assert c in ActiveOn(board);
    } else {
      assert ActiveOn(board) == {};
    }
  }

  /** Updated, no changes, automatic updates only and cooldown are good ends. */
  predicate EndedWell(t: Target) {
    t.state == Updated || t.state == NoChanges || t.state == AutomaticOnly || t.state == InCooldown
  }

  /** The unique indexes never fire: one active run per owner, one active target per connection. */
  lemma IndexesNeverFire(pv: Provider, lease: nat, trace: seq<Fleet>, acts: seq<Action>, n: nat)
    requires Sound(pv) && IsRun(pv, lease, trace, acts) && n <= |acts|
    ensures OneRunPerOwner(trace[n].runs)
    ensures forall c :: c in trace[n].lanes ==> OneActive(trace[n].lanes[c].line.targets)
  {
    Reached(pv, lease, trace, acts, n);
    forall c | c in trace[n].lanes
      ensures OneActive(trace[n].lanes[c].line.targets)
    {
      LaneParts(pv, lease, trace[n].lanes, n, c);
    }
  }

  // ---- What is finished stays ----------------------------------------------------------------------

  ghost predicate Rests(f: Fleet, g: Fleet, run: RunId)
    requires run in f.runs && run in g.runs
  {
    g.runs[run] == f.runs[run] && TargetsOf(g.lanes, run) == TargetsOf(f.lanes, run)
  }

  lemma WorkRests(pv: Provider, lease: nat, f: Fleet, c: ConnId, token: Token, step: LaneAction, run: RunId)
    requires RunsMatch(f.lanes, f.runs) && CanDo(pv, lease, f, Work(c, token, step))
    requires WorkOk(f.lanes[c]) && RefreshOk(f.lanes[c]) && run in f.runs && !RunActive(f.runs[run])
    ensures var g := WorkStep(pv, lease, f, c, token, step); run in g.runs && Rests(f, g, run)
  {
    var m := Clock(f, lease);
    var moved := Step(pv, c, f.lanes[c], token, step, m);
    StepSettles(pv, c, f.lanes[c], token, step, m);
    WorkKeepsRun(f.lanes, f.runs, c, moved.lane, moved.note, run);
    BoardMoves(f.lanes, c, moved.lane, run);
    assert MatchAt(f.lanes, f.runs, run);
    if run in f.lanes[c].line.targets {
      NoteKeepsRun(f.runs[run], run, TargetsOf(f.lanes, run), c, moved.lane.line.targets[run], moved.note);
    }
  }

  lemma RecoveryRests(f: Fleet, run: RunId)
    requires RunsMatch(f.lanes, f.runs) && run in f.runs && !RunActive(f.runs[run])
    ensures TargetsOf(Recovered(f.lanes, f.now), run) == TargetsOf(f.lanes, run)
  {
    assert MatchAt(f.lanes, f.runs, run);
    RecoveredSettle(f.lanes, Recovered(f.lanes, f.now), f.now);
    SettledBoard(f.lanes, Recovered(f.lanes, f.now), run, f.runs[run]);
  }

  lemma CreateRests(f: Fleet, key: RequestKey, run: RunId)
    requires RunsOk(f.lanes, f.runs, f.requests, f.nextRun) && run in f.runs
    ensures run in CreateRun(f, key).runs && Rests(f, CreateRun(f, key), run)
  {
    if Answer(f, key).Created? {
      forall c | c in f.lanes
        ensures f.nextRun !in f.lanes[c].line.targets
      {
        assert FiledAt(f.lanes, f.runs, c);
      }
      OpenedBoards(f.lanes, key.owner, f.nextRun, f.now, f.tick, run);
    }
  }

  lemma CleanupRests(f: Fleet, gone: set<RunId>, run: RunId)
    requires run in f.runs && run !in gone
    ensures run in DeleteRuns(f, gone).runs && Rests(f, DeleteRuns(f, gone), run)
  {
  }

  lemma LinkRests(lanes: map<ConnId, Lane>, c: ConnId, owner: OwnerId, cards: set<AccountId>, now: int, run: RunId)
    requires c !in lanes
    ensures TargetsOf(lanes[c := NewLane(owner, cards, now)], run) == TargetsOf(lanes, run)
  {
  }

  lemma FinishedRests(pv: Provider, lease: nat, f: Fleet, a: Action, run: RunId)
    requires FleetInv(pv, lease, f) && CanDo(pv, lease, f, a)
    requires run in f.runs && !RunActive(f.runs[run]) && run in Next(pv, lease, f, a).runs
    ensures Rests(f, Next(pv, lease, f, a), run)
  {
    if a.Work? {
      LaneParts(pv, lease, f.lanes, f.tick, a.conn);
      WorkRests(pv, lease, f, a.conn, a.token, a.step, run);
    } else {
      QuietRests(pv, lease, f, a, run);
    }
  }

  lemma DisconnectRests(lanes: map<ConnId, Lane>, c: ConnId, run: RunId)
    requires c in lanes
    ensures TargetsOf(lanes[c := DisconnectStep(lanes[c])], run) == TargetsOf(lanes, run)
  {
  }

  lemma QuietRests(pv: Provider, lease: nat, f: Fleet, a: Action, run: RunId)
    requires RunsOk(f.lanes, f.runs, f.requests, f.nextRun) && CanDo(pv, lease, f, a) && !a.Work?
    requires run in f.runs && !RunActive(f.runs[run]) && run in Next(pv, lease, f, a).runs
    ensures Rests(f, Next(pv, lease, f, a), run)
  {
    match a
    case RecoverAll => RecoveryRests(f, run);
    case DisconnectConn(c) => DisconnectRests(f.lanes, c, run);
    case Create(key) => CreateRests(f, key, run);
    case Cleanup(gone) => CleanupRests(f, gone, run);
    case Link(c, owner, cards) => LinkRests(f.lanes, c, owner, cards, f.now, run);
    case Wait(_) =>
  }

  lemma FinishedRestsAt(pv: Provider, lease: nat, trace: seq<Fleet>, acts: seq<Action>, n: nat, run: RunId)
    requires Sound(pv) && IsRun(pv, lease, trace, acts) && n < |acts|
    requires run in trace[n].runs && !RunActive(trace[n].runs[run]) && run in trace[n + 1].runs
    ensures Rests(trace[n], trace[n + 1], run)
  {
    Reached(pv, lease, trace, acts, n);
    StepAt(pv, lease, trace, acts, n);
    FinishedRests(pv, lease, trace[n], acts[n], run);
  }

  lemma RunsComeAndGo(pv: Provider, lease: nat, f: Fleet, a: Action, run: RunId)
    requires CanDo(pv, lease, f, a) && run in Next(pv, lease, f, a).runs
    ensures run in f.runs || (run == f.nextRun && f.nextRun < Next(pv, lease, f, a).nextRun)
  {
  }

  lemma NumbersGrow(pv: Provider, lease: nat, f: Fleet, a: Action)
    requires CanDo(pv, lease, f, a)
    ensures f.nextRun <= Next(pv, lease, f, a).nextRun && f.now <= Next(pv, lease, f, a).now
  {
  }

  lemma NumbersAt(pv: Provider, lease: nat, trace: seq<Fleet>, acts: seq<Action>, n: nat, run: RunId)
    requires IsRun(pv, lease, trace, acts) && n < |acts|
    ensures trace[n].nextRun <= trace[n + 1].nextRun && trace[n].now <= trace[n + 1].now
    ensures run in trace[n + 1].runs && run < trace[n].nextRun ==> run in trace[n].runs
  {
    StepAt(pv, lease, trace, acts, n);
    NumbersGrow(pv, lease, trace[n], acts[n]);
    if run in trace[n + 1].runs {
      RunsComeAndGo(pv, lease, trace[n], acts[n], run);
    }
  }

  /** A run known at `i` and still retained at `j` is retained in between. */
  lemma InBetween(pv: Provider, lease: nat, trace: seq<Fleet>, acts: seq<Action>, i: nat, m: nat, j: nat, run: RunId)
    requires Sound(pv) && IsRun(pv, lease, trace, acts) && i <= m <= j <= |acts|
    requires run in trace[i].runs && run in trace[j].runs
    ensures run in trace[m].runs
  {
    Numbered(pv, lease, trace, acts, i, run);
    StillThere(pv, lease, trace, acts, i, m, run);
    StillThere(pv, lease, trace, acts, m, j, run);
  }

  lemma Numbered(pv: Provider, lease: nat, trace: seq<Fleet>, acts: seq<Action>, n: nat, run: RunId)
    requires Sound(pv) && IsRun(pv, lease, trace, acts) && n <= |acts| && run in trace[n].runs
    ensures run < trace[n].nextRun
  {
    Reached(pv, lease, trace, acts, n);
  }

  /** Run numbers and the clock only grow; a run that is gone does not come back. */
  lemma {:induction false} StillThere(pv: Provider, lease: nat, trace: seq<Fleet>, acts: seq<Action>, i: nat, j: nat, run: RunId)
    requires Sound(pv) && IsRun(pv, lease, trace, acts) && i <= j <= |acts|
    ensures trace[i].nextRun <= trace[j].nextRun && trace[i].now <= trace[j].now
    ensures run in trace[j].runs && run < trace[i].nextRun ==> run in trace[i].runs
    decreases j
  {
    if i < j {
      StillThere(pv, lease, trace, acts, i, j - 1, run);
      NumbersAt(pv, lease, trace, acts, j - 1, run);
    }
  }

  /** A run that is over never changes while it is retained, and neither does any target of it. */
  lemma {:induction false} FinishedStays(pv: Provider, lease: nat, trace: seq<Fleet>, acts: seq<Action>, i: nat, j: nat, run: RunId)
    requires Sound(pv) && IsRun(pv, lease, trace, acts) && i <= j <= |acts|
    requires run in trace[i].runs && !RunActive(trace[i].runs[run]) && run in trace[j].runs
    ensures Rests(trace[i], trace[j], run)
    decreases j
  {
    if i < j {
      InBetween(pv, lease, trace, acts, i, j - 1, j, run);
      FinishedStays(pv, lease, trace, acts, i, j - 1, run);
      FinishedRestsAt(pv, lease, trace, acts, j - 1, run);
    }
  }

  lemma TargetRests(pv: Provider, lease: nat, f: Fleet, a: Action, c: ConnId, run: RunId)
    requires CanDo(pv, lease, f, a) && c in f.lanes && WorkOk(f.lanes[c]) && RefreshOk(f.lanes[c])
    requires run in f.lanes[c].line.targets && !TargetActive(f.lanes[c].line.targets[run])
    requires run in Next(pv, lease, f, a).runs && run < f.nextRun
    ensures var targets := LaneAfter(pv, lease, f, a, c).line.targets;
            run in targets && targets[run] == f.lanes[c].line.targets[run]
  {
    match a
    case Work(conn, token, step) =>
      if conn == c {
        StepSettles(pv, c, f.lanes[c], token, step, Clock(f, lease));
      }
    case RecoverAll => RecoverSettles(f.lanes[c], f.now);
    case _ =>
  }

  lemma TargetRestsAt(pv: Provider, lease: nat, trace: seq<Fleet>, acts: seq<Action>, n: nat, c: ConnId, run: RunId)
    requires Sound(pv) && IsRun(pv, lease, trace, acts) && n < |acts| && c in trace[n].lanes
    requires run in trace[n].lanes[c].line.targets && !TargetActive(trace[n].lanes[c].line.targets[run])
    requires run in trace[n].runs && run in trace[n + 1].runs
    ensures c in trace[n + 1].lanes && run in trace[n + 1].lanes[c].line.targets
    ensures trace[n + 1].lanes[c].line.targets[run] == trace[n].lanes[c].line.targets[run]
  {
    Numbered(pv, lease, trace, acts, n, run);
    Reached(pv, lease, trace, acts, n);
    LaneParts(pv, lease, trace[n].lanes, n, c);
    StepAt(pv, lease, trace, acts, n);
    LaneMoves(pv, lease, trace, acts, n, c);
    TargetRests(pv, lease, trace[n], acts[n], c, run);
  }

  /** A finished target never changes while its run is retained, even if the run still goes on. */
  lemma {:induction false} FinishedTargetStays(pv: Provider, lease: nat, trace: seq<Fleet>, acts: seq<Action>, i: nat, j: nat,
                                               c: ConnId, run: RunId)
    requires Sound(pv) && IsRun(pv, lease, trace, acts) && i <= j <= |acts| && c in trace[i].lanes
    requires run in trace[i].lanes[c].line.targets && !TargetActive(trace[i].lanes[c].line.targets[run])
    requires run in trace[i].runs && run in trace[j].runs
    ensures c in trace[j].lanes && run in trace[j].lanes[c].line.targets
    ensures trace[j].lanes[c].line.targets[run] == trace[i].lanes[c].line.targets[run]
    decreases j
  {
    if i < j {
      InBetween(pv, lease, trace, acts, i, j - 1, j, run);
      FinishedTargetStays(pv, lease, trace, acts, i, j - 1, c, run);
      TargetRestsAt(pv, lease, trace, acts, j - 1, c, run);
    }
  }

  // ---- Requests with the same key ------------------------------------------------------------------

  /** The run a request is answered with. */
  function AnsweredRun(answer: CreateAnswer): Option<RunId> {
    match answer
    case Replayed(run) => Some(run)
    case Coalesced(run) => Some(run)
    case Created(run) => Some(run)
    case _ => None
  }

  ghost predicate MappedTo(f: Fleet, key: RequestKey, run: RunId, expires: int) {
    key in f.requests && f.requests[key] == Mapping(run, expires) && run in f.runs
  }

  lemma MappingStep(pv: Provider, lease: nat, f: Fleet, a: Action, key: RequestKey, run: RunId, expires: int)
    requires CanDo(pv, lease, f, a) && MappedTo(f, key, run, expires) && run in Next(pv, lease, f, a).runs
    ensures MappedTo(Next(pv, lease, f, a), key, run, expires)
  {
    if a.Create? && a.key == key {
      assert Answer(f, key).Replayed? || Answer(f, key).KeyTaken? || Answer(f, key).NoConnections?;
    }
  }

  /** A mapping stays as it is as long as its run is retained. */
  lemma {:induction false} MappingStays(pv: Provider, lease: nat, trace: seq<Fleet>, acts: seq<Action>, i: nat, j: nat,
                                        key: RequestKey, run: RunId, expires: int)
    requires Sound(pv) && IsRun(pv, lease, trace, acts) && i <= j <= |acts|
    requires MappedTo(trace[i], key, run, expires) && run in trace[j].runs
    ensures MappedTo(trace[j], key, run, expires)
    decreases j
  {
    if i < j {
      InBetween(pv, lease, trace, acts, i, j - 1, j, run);
      MappingStays(pv, lease, trace, acts, i, j - 1, key, run, expires);
      StepAt(pv, lease, trace, acts, j - 1);
      MappingStep(pv, lease, trace[j - 1], acts[j - 1], key, run, expires);
    }
  }

  /** Action `n` is a request under this key, answered with this run. */
  ghost predicate AnsweredAt(trace: seq<Fleet>, acts: seq<Action>, n: nat, key: RequestKey, run: RunId)
    requires |trace| == |acts| + 1
  {
    n < |acts| && acts[n] == Create(key) && AnsweredRun(Answer(trace[n], key)) == Some(run)
  }

  lemma AnswerIsMapped(pv: Provider, lease: nat, f: Fleet, key: RequestKey)
    requires FleetInv(pv, lease, f) && AnsweredRun(Answer(f, key)).Some?
    ensures var run, g := AnsweredRun(Answer(f, key)).value, Next(pv, lease, f, Create(key));
            && key in g.requests && MappedTo(g, key, run, g.requests[key].expires) && run < g.nextRun
            && g.runs[run].owner == key.owner
            && (if Answer(f, key).Replayed? then g.requests == f.requests
                else g.requests[key].expires == f.now + 604800)
            && (Answer(f, key).Created? ==> g.runs[run].expires == f.now + 604800)
  {
    if Answer(f, key).Created? {
      NewRunIsMapped(f, key);
    }
  }

  lemma NewRunIsMapped(f: Fleet, key: RequestKey)
    ensures var run, expires, g := f.nextRun, f.now + RETENTION_SECONDS, OpenRun(f, key);
            && MappedTo(g, key, run, expires) && run < g.nextRun && g.runs[run] == Run(key.owner, RunQueued, expires)
  {
  }

  /** Idempotence: once a request was answered with a run, its key stays mapped to that run, under
      any interleaving, as long as the run is retained; until the mapping expires, the same
      request is answered with the same run. */
  lemma RepeatGetsTheSameRun(pv: Provider, lease: nat, trace: seq<Fleet>, acts: seq<Action>, i: nat, j: nat,
                             key: RequestKey, run: RunId)
    requires Sound(pv) && IsRun(pv, lease, trace, acts) && i < j <= |acts|
    requires AnsweredAt(trace, acts, i, key, run) && run in trace[j].runs
    ensures key in trace[i + 1].requests && key in trace[j].requests
    ensures trace[j].requests[key] == trace[i + 1].requests[key] && trace[j].requests[key].run == run
    ensures trace[j].now < trace[j].requests[key].expires <==> Answer(trace[j], key) == Replayed(run)
    ensures !Answer(trace[i], key).Replayed? ==> trace[j].requests[key].expires == trace[i].now + 604800
  {
    Reached(pv, lease, trace, acts, i);
    StepAt(pv, lease, trace, acts, i);
    AnswerIsMapped(pv, lease, trace[i], key);
    MappingStays(pv, lease, trace, acts, i + 1, j, key, run, trace[i + 1].requests[key].expires);
  }

  predicate SameTerms(run: Run, after: Run) {
    after.owner == run.owner && after.expires == run.expires
  }

  lemma NoteKeepsTerms(runs: map<RunId, Run>, lanes: map<ConnId, Lane>, note: RunNote, run: RunId)
    requires run in runs
    ensures run in AfterNote(runs, lanes, note) && SameTerms(runs[run], AfterNote(runs, lanes, note)[run])
  {
  }

  /** Owner and expiry of a run never change, and no run is removed before it expires. */
  lemma TermsRest(pv: Provider, lease: nat, f: Fleet, a: Action, run: RunId)
    requires CanDo(pv, lease, f, a) && run in f.runs && run < f.nextRun
    ensures var g := Next(pv, lease, f, a);
            && (run in g.runs ==> SameTerms(f.runs[run], g.runs[run]))
            && (f.now < f.runs[run].expires ==> run in g.runs)
  {
    match a
    case Work(c, token, step) =>
      NoteKeepsTerms(f.runs, WorkStep(pv, lease, f, c, token, step).lanes,
                     Step(pv, c, f.lanes[c], token, step, Clock(f, lease)).note, run);
    case Cleanup(_) => assert f.now < f.runs[run].expires ==> !Removable(f.runs, f.now, run);
    case _ =>
  }

  lemma TermsRestAt(pv: Provider, lease: nat, trace: seq<Fleet>, acts: seq<Action>, n: nat, run: RunId)
    requires Sound(pv) && IsRun(pv, lease, trace, acts) && n < |acts| && run in trace[n].runs
    ensures run in trace[n + 1].runs ==> SameTerms(trace[n].runs[run], trace[n + 1].runs[run])
    ensures trace[n].now < trace[n].runs[run].expires ==> run in trace[n + 1].runs
  {
    Numbered(pv, lease, trace, acts, n, run);
    StepAt(pv, lease, trace, acts, n);
    TermsRest(pv, lease, trace[n], acts[n], run);
  }

  lemma {:induction false} TermsStay(pv: Provider, lease: nat, trace: seq<Fleet>, acts: seq<Action>, i: nat, j: nat, run: RunId)
    requires Sound(pv) && IsRun(pv, lease, trace, acts) && i <= j <= |acts| && run in trace[i].runs && run in trace[j].runs
    ensures SameTerms(trace[i].runs[run], trace[j].runs[run])
    decreases j
  {
    if i < j {
      InBetween(pv, lease, trace, acts, i, j - 1, j, run);
      TermsStay(pv, lease, trace, acts, i, j - 1, run);
      TermsRestAt(pv, lease, trace, acts, j - 1, run);
    }
  }

  /** No run is removed before it expires. */
  lemma {:induction false} RetainedUntilExpired(pv: Provider, lease: nat, trace: seq<Fleet>, acts: seq<Action>, i: nat, j: nat, run: RunId)
    requires Sound(pv) && IsRun(pv, lease, trace, acts) && i <= j <= |acts|
    requires run in trace[i].runs && trace[j].now < trace[i].runs[run].expires
    ensures run in trace[j].runs
    decreases j
  {
    if i < j {
      NumbersAt(pv, lease, trace, acts, j - 1, run);
      RetainedUntilExpired(pv, lease, trace, acts, i, j - 1, run);
      TermsStay(pv, lease, trace, acts, i, j - 1, run);
      TermsRestAt(pv, lease, trace, acts, j - 1, run);
    }
  }

  /** For seven days after a request created a run, its key gets that run back. */
  lemma CreatorGetsItsRunBack(pv: Provider, lease: nat, trace: seq<Fleet>, acts: seq<Action>, i: nat, j: nat,
                              key: RequestKey, run: RunId)
    requires Sound(pv) && IsRun(pv, lease, trace, acts) && i < j <= |acts|
    requires acts[i] == Create(key) && Answer(trace[i], key) == Created(run)
    requires trace[j].now < trace[i].now + 604800
    ensures Answer(trace[j], key) == Replayed(run)
  {
    Reached(pv, lease, trace, acts, i);
    StepAt(pv, lease, trace, acts, i);
    AnswerIsMapped(pv, lease, trace[i], key);
    RetainedUntilExpired(pv, lease, trace, acts, i + 1, j, run);
    RepeatGetsTheSameRun(pv, lease, trace, acts, i, j, key, run);
  }

  /** While a run of an owner is active, no request of that owner creates another: it is
      answered by its own mapping, mapped to the active run, or refused because of its key. */
  lemma OneCreationPerActivePeriod(pv: Provider, lease: nat, trace: seq<Fleet>, acts: seq<Action>, n: nat, key: RequestKey, run: RunId)
    requires Sound(pv) && IsRun(pv, lease, trace, acts) && n <= |acts|
    requires run in trace[n].runs && RunActive(trace[n].runs[run]) && trace[n].runs[run].owner == key.owner
    ensures var answer := Answer(trace[n], key);
            if Remembered(trace[n], key) then answer == Replayed(trace[n].requests[key].run)
            else answer == if key in trace[n].requests then KeyTaken else Coalesced(run)
  {
    Reached(pv, lease, trace, acts, n);
  }

  /** Between two creations for one owner the first run came to its end. */
  lemma CreationsAreApart(pv: Provider, lease: nat, trace: seq<Fleet>, acts: seq<Action>, i: nat, k: nat, first: RequestKey, second: RequestKey)
    requires Sound(pv) && IsRun(pv, lease, trace, acts) && i < k < |acts| && first.owner == second.owner
    requires acts[i] == Create(first) && acts[k] == Create(second)
    requires Answer(trace[i], first).Created? && Answer(trace[k], second).Created?
    ensures var run := Answer(trace[i], first).run;
            && (run in trace[k].runs ==> !RunActive(trace[k].runs[run]))
            && run < Answer(trace[k], second).run
  {
    var run := trace[i].nextRun;
    Reached(pv, lease, trace, acts, i);
    StepAt(pv, lease, trace, acts, i);
    AnswerIsMapped(pv, lease, trace[i], first);
    StillThere(pv, lease, trace, acts, i + 1, k, run);
    if run in trace[k].runs {
      TermsStay(pv, lease, trace, acts, i + 1, k, run);
    }
  }

  /** A new run has one queued target for every active connection of its owner, and each
      target's generation is the one just requested there. */
  lemma NewRunSnapshotsConnections(f: Fleet, key: RequestKey)
    requires RunsOk(f.lanes, f.runs, f.requests, f.nextRun) && Answer(f, key).Created?
    ensures var after := CreateRun(f, key).lanes;
            var board := TargetsOf(after, f.nextRun);
            && board != map[] && board.Keys == Snapshot(f.lanes, key.owner)
            && forall c :: c in board ==> NewTargetOk(f.lanes[c].line, after[c].line, board[c])
  {
    forall c | c in f.lanes
      ensures f.nextRun !in f.lanes[c].line.targets
    {
      assert FiledAt(f.lanes, f.runs, c);
    }
    OpenedBoards(f.lanes, key.owner, f.nextRun, f.now, f.tick, f.nextRun);
    assert TargetsOf(CreateRun(f, key).lanes, f.nextRun).Keys != {};
  }

  /** An active run of the owner. */
  predicate GoesFor(run: Run, owner: OwnerId) {
    run.owner == owner && (run.state == RunQueued || run.state == RunRunning)
  }

  /** Every answer a request can get, and exactly when it does. */
  ghost predicate AnswersRight(f: Fleet, key: RequestKey) {
    var answer := Answer(f, key);
    var mapped := key in f.requests && f.now < f.requests[key].expires;
    var running := exists run :: run in f.runs && GoesFor(f.runs[run], key.owner);
    var connected := exists c :: c in f.lanes && f.lanes[c].line.owner == key.owner && f.lanes[c].line.active;
    && (answer.Replayed? <==> mapped) && (mapped ==> f.requests[key].run in f.runs && answer == Replayed(f.requests[key].run))
    && (answer == NoConnections <==> !mapped && !running && !connected)
    && (answer == KeyTaken <==> !mapped && (running || connected) && key in f.requests)
    && (answer.Coalesced? <==> !mapped && running && key !in f.requests)
    && (answer.Coalesced? ==> answer.run in f.runs && GoesFor(f.runs[answer.run], key.owner))
    && (answer.Created? <==> !mapped && !running && connected && key !in f.requests)
    && (answer.Created? ==> answer.run !in f.runs)
  }

  lemma AnswerIs(pv: Provider, lease: nat, trace: seq<Fleet>, acts: seq<Action>, n: nat, key: RequestKey)
    requires Sound(pv) && IsRun(pv, lease, trace, acts) && n <= |acts|
    ensures AnswersRight(trace[n], key)
  {
    Reached(pv, lease, trace, acts, n);
    AnswerOf(trace[n], key);
  }

  lemma AnswerOf(f: Fleet, key: RequestKey)
    requires RequestsOk(f.requests, f.runs) && forall run :: run in f.runs ==> run < f.nextRun
    ensures AnswersRight(f, key)
  {
    var snapshot := Snapshot(f.lanes, key.owner);
    assert forall c :: c in snapshot <==> c in f.lanes && f.lanes[c].line.owner == key.owner && f.lanes[c].line.active;
    assert forall run :: run in f.runs ==> (GoesFor(f.runs[run], key.owner) <==> RunActive(f.runs[run]) && f.runs[run].owner == key.owner);
  }

  lemma RefusedExactly(f: Fleet, key: RequestKey)
    requires RequestsOk(f.requests, f.runs)
    ensures Answer(f, key).KeyTaken? <==>
            && key in f.requests && f.requests[key].expires <= f.now
            && ((exists run :: run in f.runs && RunActive(f.runs[run]) && f.runs[run].owner == key.owner) ||
                (exists c :: c in f.lanes && f.lanes[c].line.owner == key.owner && f.lanes[c].line.active))
  {
    var snapshot := Snapshot(f.lanes, key.owner);
    assert forall c :: c in snapshot <==> c in f.lanes && f.lanes[c].line.owner == key.owner && f.lanes[c].line.active;
  }

  /** The unique index on owner and key refuses a request exactly when its mapping has expired
      but has not been cleaned up, and there is work it could have been given. */
  lemma KeyIsRefusedExactly(pv: Provider, lease: nat, trace: seq<Fleet>, acts: seq<Action>, n: nat, key: RequestKey)
    requires Sound(pv) && IsRun(pv, lease, trace, acts) && n <= |acts|
    ensures var f := trace[n];
            Answer(f, key).KeyTaken? <==>
            && key in f.requests && f.requests[key].expires <= f.now
            && ((exists run :: run in f.runs && RunActive(f.runs[run]) && f.runs[run].owner == key.owner) ||
                (exists c :: c in f.lanes && f.lanes[c].line.owner == key.owner && f.lanes[c].line.active))
  {
    Reached(pv, lease, trace, acts, n);
    RefusedExactly(trace[n], key);
  }
}
