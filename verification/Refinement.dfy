/** The step machine and the tables do the same: on the tables, every action of the service is
    the transaction that the `Database` methods are proved to run. */
module Refinement {
  import opened Wrappers
  import opened Reconcile
  import opened Provider
  import opened PageLoop
  import opened Lines
  import opened Lanes
  import opened LaneInvariant
  import opened Fleet
  import opened FleetInvariant
  import opened Reach
  import opened Database

  function LinesOf(lanes: map<ConnId, Lane>): map<ConnId, Line> {
    map c | c in lanes :: lanes[c].line
  }

  function TablesOf(f: Fleet): Tables {
    Tables(LinesOf(f.lanes), f.runs, f.requests, f.rows, f.nextRun)
  }

  /** The transaction behind a worker's step; steps that are no transaction leave the tables alone. */
  ghost function WorkOn(t: Tables, c: ConnId, lane: Lane, token: Token, step: LaneAction, m: Moment): Tables
    requires c in t.lines && t.lines[c] == lane.line
    requires step.Enqueue? ==> lane.line.active
    requires step.Claim? ==> step.job < |lane.line.jobs|
    requires !step.Enqueue? && !step.Claim? ==> Known(lane, token)
    requires step.Prepare? ==> lane.pcs[token].AtPrepare?
    requires step.Record? ==> lane.pcs[token].AtRecord?
    requires step.Commit? ==> lane.pcs[token].AtCommit?
    requires step.RecordFailure? ==> lane.pcs[token].AtFailure?
  {
    var line := lane.line;
    match step
    case Enqueue => Edited(t, c, EnqueueSync(line, m.now))
    case Claim(j) => Edited(t, c, ClaimJob(line, j, token, m.now, m.lease))
    case Heartbeat => Edited(t, c, RenewLease(line, lane.claims[token].job, token, m.now, m.lease))
    case Reserve => Told(t, c, ReserveTarget(line, lane.claims[token].job, token))
    case Prepare(decrypts) =>
      Told(t, c, PrepareTarget(line, lane.pcs[token].run, lane.claims[token].job, token, decrypts, m.now))
    case Record =>
      var pc := lane.pcs[token];
      Told(t, c, RecordOutcome(line, pc.run, lane.claims[token].job, token, pc.outcome, pc.code))
    case Finish => Edited(t, c, FinishWithoutSync(line, lane.claims[token].job, token))
    case Commit(_) =>
      var claim, pc := lane.claims[token], lane.pcs[token];
      SyncOf(t, c, claim.job, token, pc.attempt, pc.pages, pc.ending, claim.generation, m.now)
    case RecordFailure =>
      var pc := lane.pcs[token];
      Told(t, c, FailJob(line, lane.claims[token].job, token, pc.failure, pc.cls, m.now))
    case _ => t
  }

  lemma NotesAgree(runs: map<RunId, Run>, lanes: map<ConnId, Lane>, note: RunNote)
    ensures AfterNote(runs, lanes, note) == NoteRuns(runs, LinesOf(lanes), note)
  {
    if note.Ended? {
      assert TargetsOf(lanes, note.run) == BoardOf(LinesOf(lanes), note.run);
    }
  }

  lemma OneLine(lanes: map<ConnId, Lane>, c: ConnId, after: Lane)
    requires c in lanes
    ensures LinesOf(lanes[c := after]) == LinesOf(lanes)[c := after.line]
  {
  }

  lemma SameLine(lines: map<ConnId, Line>, c: ConnId)
    requires c in lines
    ensures lines[c := lines[c]] == lines
  {
  }

  /** A worker's step does to the tables what its transaction does. */
  lemma WorkRefines(pv: Provider, lease: nat, f: Fleet, c: ConnId, token: Token, step: LaneAction)
    requires CanDo(pv, lease, f, Work(c, token, step))
    ensures TablesOf(Next(pv, lease, f, Work(c, token, step))) ==
            WorkOn(TablesOf(f), c, f.lanes[c], token, step, Clock(f, lease))
  {
    var moved := Step(pv, c, f.lanes[c], token, step, Clock(f, lease));
    OneLine(f.lanes, c, moved.lane);
    SameLine(LinesOf(f.lanes), c);
    NotesAgree(f.runs, f.lanes[c := moved.lane], moved.note);
  }

  lemma AnswersAgree(f: Fleet, key: RequestKey)
    ensures Answer(f, key) == AnswerTo(TablesOf(f), key, f.now)
  {
  }

  lemma OpensAgree(lanes: map<ConnId, Lane>, owner: OwnerId, run: RunId, now: int, tick: nat)
    ensures LinesOf(Opened(lanes, owner, run, now, tick)) == WithTargets(LinesOf(lanes), ActiveOf(LinesOf(lanes), owner), run, now)
  {
  }

  lemma CreateRefines(f: Fleet, key: RequestKey)
    ensures TablesOf(CreateRun(f, key)) == CreateOf(TablesOf(f), key, f.now)
  {
    AnswersAgree(f, key);
    OpeningRefines(f, key);
  }

  lemma OpeningRefines(f: Fleet, key: RequestKey)
    ensures TablesOf(OpenRun(f, key)) == NewRunOf(TablesOf(f), key, f.now)
  {
    OpensAgree(f.lanes, key.owner, f.nextRun, f.now, f.tick);
  }

  /** What every other action does to the tables. */
  ghost function ActOn(t: Tables, a: Action, now: int): Tables
    requires !a.Work? && (a.DisconnectConn? ==> a.conn in t.lines)
  {
    match a
    case Wait(_) => t
    case Link(c, owner, cards) => Edited(t, c, NewLane(owner, cards, now).line)
    case RecoverAll => RecoveryOf(t, now)
    case DisconnectConn(c) => DisconnectOf(t, c)
    case Create(key) => CreateOf(t, key, now)
    case Cleanup(gone) => RemovalOf(t, gone)
    case Work(_, _, _) => t
  }

  lemma ActionRefines(pv: Provider, lease: nat, f: Fleet, a: Action)
    requires CanDo(pv, lease, f, a) && !a.Work?
    ensures TablesOf(Next(pv, lease, f, a)) == ActOn(TablesOf(f), a, f.now)
  {
    match a
    case Create(key) => CreateRefines(f, key);
    case RecoverAll => RecoveryRefines(f);
    case Cleanup(gone) => CleanupRefines(f, gone);
    case DisconnectConn(c) => OneLine(f.lanes, c, DisconnectStep(f.lanes[c]));
    case _ =>
  }

  lemma RecoveryRefines(f: Fleet)
    ensures LinesOf(Recovered(f.lanes, f.now)) == RecoveryOf(TablesOf(f), f.now).lines
  {
  }

  lemma CleanupRefines(f: Fleet, gone: set<RunId>)
    ensures LinesOf(Dropped(f.lanes, gone)) == RemovalOf(TablesOf(f), gone).lines
  {
  }

  // ---- What the methods require is always so ----------------------------------------------------

  lemma LaneFits(pv: Provider, lease: nat, f: Fleet, c: ConnId)
    requires FleetInv(pv, lease, f) && c in f.lanes
    ensures LineFits(f.lanes[c].line, f.runs)
  {
    var line := f.lanes[c].line;
    LaneHolds(pv, lease, f.lanes, f.tick, c);
    assert FiledAt(f.lanes, f.runs, c);
    forall run | run in line.targets && TargetActive(line.targets[run])
      ensures run in f.runs && RunActive(f.runs[run])
    {
      assert MatchAt(f.lanes, f.runs, run);
      HasActive(TargetsOf(f.lanes, run), c);
    }
  }

  /** In every state of every run the tables are valid for the methods. */
  lemma TablesAlwaysFit(pv: Provider, lease: nat, trace: seq<Fleet>, acts: seq<Action>, n: nat)
    requires Sound(pv) && IsRun(pv, lease, trace, acts) && n <= |acts|
    ensures TablesFit(TablesOf(trace[n]))
  {
    var f := trace[n];
    Reached(pv, lease, trace, acts, n);
    forall c
      ensures FitsAt(LinesOf(f.lanes), f.runs, c)
    {
      if c in f.lanes {
        LaneFits(pv, lease, f, c);
      }
    }
  }

  /** A worker about to prepare or to record, stale or not, meets what these two methods ask:
      as long as it holds its job, the target it was given is under way. */
  lemma WorkersMayCall(pv: Provider, lease: nat, trace: seq<Fleet>, acts: seq<Action>, n: nat, c: ConnId, token: Token)
    requires Sound(pv) && IsRun(pv, lease, trace, acts) && n <= |acts|
    requires c in trace[n].lanes && Known(trace[n].lanes[c], token)
    ensures var lane := trace[n].lanes[c];
            var j, pc := lane.claims[token].job, lane.pcs[token];
            && (pc.AtPrepare? && Prepares(lane.line, pc.run, j, token) ==> TargetActive(lane.line.targets[pc.run]))
            && (pc.AtRecord? && Records(lane.line, pc.run, j, token) ==> TargetActive(lane.line.targets[pc.run]))
  {
    LaneReached(pv, lease, trace, acts, n, c);
    HoldsIsHolder(trace[n].lanes[c], token);
  }
}
