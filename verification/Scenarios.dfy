/** Runs of the service that end where the documentation says they cannot: a webhook's request
    that is lost, and a request key that is refused. */
module Scenarios {
  import opened Wrappers
  import opened Reconcile
  import opened Provider
  import opened PageLoop
  import opened Lines
  import opened Lanes
  import opened Fleet
  import opened Requests

  /** A provider with nothing to tell. */
  const SILENT: Provider := Provider((c: ConnId, u: Cursor) => map[], (t: TxnId) => "", (c: ConnId, a: AccountId) => false)

  const KEY: RequestKey := RequestKey("owner", "key")

  /** The owner asks for a refresh; a worker reserves it; a webhook asks for a sync; the token
      cannot be decrypted, so the worker ends the job without one, and the run fails. Seven days
      later the owner uses the same key again. */
  const ACTS: seq<Action> := [
    Link(0, "owner", {}), Create(KEY), Work(0, 1, Claim(0)), Work(0, 1, Reserve), Work(0, 1, Enqueue),
    Work(0, 1, Prepare(false)), Work(0, 1, Finish), Wait(RETENTION_SECONDS), Create(KEY)]

  function TheLine(requested: nat, job: Job, targets: map<RunId, Target>): Line {
    Line("owner", true, {}, None, requested, 0, None, true, [job], targets)
  }

  function TheTarget(state: TargetState, outcome: Outcome, code: Option<string>): Target {
    Target(state, outcome, 2, Summary(0, 0, 0), code, None)
  }

  /** The only connection and the only run of a state. */
  ghost predicate Stage(f: Fleet, line: Line, claims: map<Token, JobClaim>, pcs: map<Token, Pc>, state: RunState) {
    && f.lanes.Keys == {0} && f.lanes[0].line == line && f.lanes[0].claims == claims && f.lanes[0].pcs == pcs
    && f.runs == map[0 := Run("owner", state, RETENTION_SECONDS)]
    && f.requests == map[KEY := Mapping(0, RETENTION_SECONDS)]
  }

  const JOB: Job := Job(JobQueued, 0, 1, 0, None, 0)
  const RUNNING: Job := Job(JobRunning, 1, 2, 0, Some(1), 60)
  const RAISED: Job := JOB.(targetGeneration := 2)
  const OVERTAKEN: Job := RUNNING.(targetGeneration := 3)
  const ENDED: Job := Job(JobSucceeded, 1, 3, 0, None, 60)
  const CLAIMS: map<Token, JobClaim> := map[1 := JobClaim(0, 2, 2)]

  const WAITING: Target := TheTarget(TargetQueued, NotAttempted, None)
  const PREPARING: Target := TheTarget(Refreshing, Reserved, None)
  const REFUSED: Target := TheTarget(ReconnectRequired, RefreshFailed, Some("CONNECTION_TOKEN_MISSING"))

  /** The first `n` actions are a run, and lead to the last state of the trace. */
  ghost predicate Led(trace: seq<Fleet>, n: nat) {
    n <= |ACTS| && IsRun(SILENT, 60, trace, ACTS[..n]) && trace[n].tick == n && trace[n].now == if n < 8 then 0 else RETENTION_SECONDS
  }

  lemma Extend(trace: seq<Fleet>, n: nat) returns (longer: seq<Fleet>)
    requires n < |ACTS| && Led(trace, n) && CanDo(SILENT, 60, trace[n], ACTS[n])
    ensures Led(longer, n + 1) && longer[..n + 1] == trace
    ensures longer[n] == trace[n] && longer[n + 1] == Next(SILENT, 60, trace[n], ACTS[n])
  {
    longer := trace + [Next(SILENT, 60, trace[n], ACTS[n])];
    var next := ACTS[..n + 1];
    forall k
      ensures StepOf(SILENT, 60, longer, next, k)
    {
      assert StepOf(SILENT, 60, trace, ACTS[..n], k);
    }
  }

  lemma Linked() returns (trace: seq<Fleet>)
    ensures Led(trace, 1) && trace[1].lanes.Keys == {0} && trace[1].runs == map[] && trace[1].requests == map[] && trace[1].nextRun == 0
    ensures var lane := trace[1].lanes[0]; lane.line == TheLine(1, JOB, map[]) && lane.claims == map[] && lane.pcs == map[]
  {
    assert IsRun(SILENT, 60, [START], ACTS[..0]);
    trace := Extend([START], 0);
  }

  lemma Asked(before: seq<Fleet>) returns (trace: seq<Fleet>)
    requires Led(before, 1) && before[1].lanes.Keys == {0}
    requires before[1].runs == map[] && before[1].requests == map[] && before[1].nextRun == 0
    requires var lane := before[1].lanes[0]; lane.line == TheLine(1, JOB, map[]) && lane.claims == map[] && lane.pcs == map[]
    ensures Led(trace, 2) && Stage(trace[2], TheLine(2, RAISED, map[0 := WAITING]), map[], map[], RunQueued)
    ensures Answer(trace[1], KEY) == Created(0)
  {
    var f := before[1];
    assert 0 in Snapshot(f.lanes, "owner");
    assert Answer(f, KEY) == Created(0);
    trace := Extend(before, 1);
    AskedLine(f);
  }

  lemma AskedLine(f: Fleet)
    requires f.lanes.Keys == {0} && f.lanes[0].line == TheLine(1, JOB, map[]) && f.now == 0
    ensures AddTarget(f.lanes[0].line, 0, 0) == TheLine(2, RAISED, map[0 := WAITING])
  {
  }

  lemma Taken(before: seq<Fleet>) returns (trace: seq<Fleet>)
    requires Led(before, 2) && Stage(before[2], TheLine(2, RAISED, map[0 := WAITING]), map[], map[], RunQueued)
    ensures Led(trace, 3) && trace[..3] == before
    ensures Stage(trace[3], TheLine(2, RUNNING, map[0 := WAITING]), CLAIMS, map[1 := Claimed], RunQueued)
  {
    trace := Extend(before, 2);
  }

  lemma Reserves(before: seq<Fleet>) returns (trace: seq<Fleet>)
    requires Led(before, 3) && Stage(before[3], TheLine(2, RUNNING, map[0 := WAITING]), CLAIMS, map[1 := Claimed], RunQueued)
    ensures Led(trace, 4) && trace[..4] == before
    ensures Stage(trace[4], TheLine(2, RUNNING, map[0 := PREPARING]), CLAIMS, map[1 := AtPrepare(0)], RunRunning)
  {
    var f := before[3];
    assert CanReserve(f.lanes[0].line.targets[0], 2);
    assert FindReservable(f.lanes[0].line.targets, 2) == Some(0);
    trace := Extend(before, 3);
  }

  /** The webhook's request is folded into the running job. */
  lemma Webhook(before: seq<Fleet>) returns (trace: seq<Fleet>)
    requires Led(before, 4) && Stage(before[4], TheLine(2, RUNNING, map[0 := PREPARING]), CLAIMS, map[1 := AtPrepare(0)], RunRunning)
    ensures Led(trace, 5) && trace[..5] == before
    ensures Stage(trace[5], TheLine(3, OVERTAKEN, map[0 := PREPARING]), CLAIMS, map[1 := AtPrepare(0)], RunRunning)
  {
    trace := Extend(before, 4);
  }

  lemma DecidesAgainst(before: seq<Fleet>) returns (trace: seq<Fleet>)
    requires Led(before, 5) && Stage(before[5], TheLine(3, OVERTAKEN, map[0 := PREPARING]), CLAIMS, map[1 := AtPrepare(0)], RunRunning)
    ensures Led(trace, 6) && trace[..6] == before
    ensures Stage(trace[6], TheLine(3, OVERTAKEN, map[0 := REFUSED]), CLAIMS, map[1 := AtFinish], RunFailed)
  {
    PrepareFails(before[5]);
    trace := Extend(before, 5);
  }

  lemma PrepareFails(f: Fleet)
    requires f.now == 0 && Stage(f, TheLine(3, OVERTAKEN, map[0 := PREPARING]), CLAIMS, map[1 := AtPrepare(0)], RunRunning)
    ensures CanDo(SILENT, 60, f, Work(0, 1, Prepare(false)))
    ensures var g := WorkStep(SILENT, 60, f, 0, 1, Prepare(false));
            Stage(g, TheLine(3, OVERTAKEN, map[0 := REFUSED]), CLAIMS, map[1 := AtFinish], RunFailed)
  {
    PreparedLane(f.lanes[0]);
    RunFails(f.runs, f.lanes[0 := PrepareStep(f.lanes[0], 1, false, 0).lane]);
  }

  lemma PreparedLane(lane: Lane)
    requires lane.line == TheLine(3, OVERTAKEN, map[0 := PREPARING]) && lane.claims == CLAIMS && lane.pcs == map[1 := AtPrepare(0)]
    ensures var moved := PrepareStep(lane, 1, false, 0);
            && moved.lane.line == TheLine(3, OVERTAKEN, map[0 := REFUSED]) && moved.lane.claims == CLAIMS
            && moved.lane.pcs == map[1 := AtFinish] && moved.note == Ended(0)
  {
  }

  lemma RunFails(runs: map<RunId, Run>, lanes: map<ConnId, Lane>)
    requires runs == map[0 := Run("owner", RunRunning, RETENTION_SECONDS)]
    requires lanes.Keys == {0} && lanes[0].line.targets == map[0 := REFUSED]
    ensures AfterNote(runs, lanes, Ended(0)) == map[0 := Run("owner", RunFailed, RETENTION_SECONDS)]
  {
    var board := TargetsOf(lanes, 0);
    assert board == map[0 := REFUSED] && |board| == 1;
    assert ActiveOn(board) == {} && AcceptableOn(board) == {};
  }

  lemma Finishes(before: seq<Fleet>) returns (trace: seq<Fleet>)
    requires Led(before, 6) && Stage(before[6], TheLine(3, OVERTAKEN, map[0 := REFUSED]), CLAIMS, map[1 := AtFinish], RunFailed)
    ensures Led(trace, 7) && trace[..7] == before
    ensures Stage(trace[7], TheLine(3, ENDED, map[0 := REFUSED]), CLAIMS, map[1 := Gone], RunFailed)
  {
    trace := Extend(before, 6);
  }

  /** The run up to the end of the job. */
  lemma Story() returns (trace: seq<Fleet>)
    ensures Led(trace, 7) && Answer(trace[1], KEY) == Created(0)
    ensures Stage(trace[7], TheLine(3, ENDED, map[0 := REFUSED]), CLAIMS, map[1 := Gone], RunFailed)
  {
    trace := Linked();
    trace := Asked(trace);
    var first := trace;
    trace := Taken(trace);
    trace := Reserves(trace);
    trace := Webhook(trace);
    trace := DecidesAgainst(trace);
    trace := Finishes(trace);
    assert trace[1] == trace[..7][..6][..5][..4][..3][1] == first[1];
  }

  /** A request made while a worker prepares a refresh is lost: the connection is active, the
      request is not completed, and no job is left for it. */
  lemma WebhookRequestCanBeLost() returns (trace: seq<Fleet>)
    ensures IsRun(SILENT, 60, trace, ACTS[..7]) && ACTS[4] == Work(0, 1, Enqueue)
    ensures 0 in trace[7].lanes && trace[7].lanes[0].line.active && Lost(trace[7].lanes[0].line)
  {
    trace := Story();
    assert ActiveJob([ENDED]).None?;
  }

  /** A key that created a run is refused: the run is over, the mapping has expired, and no cleanup
      has come by yet. */
  lemma RepeatedKeyIsRefused() returns (trace: seq<Fleet>)
    ensures IsRun(SILENT, 60, trace, ACTS) && ACTS[1] == Create(KEY) && ACTS[8] == Create(KEY)
    ensures Answer(trace[1], KEY) == Created(0) && Answer(trace[8], KEY) == KeyTaken
  {
    var first := Story();
    var later := Extend(first, 7);
    assert 0 in Snapshot(later[8].lanes, "owner");
    trace := Extend(later, 8);
    assert later[1] == later[..8][1] && trace[1] == trace[..9][1];
    assert ACTS[..9] == ACTS;
  }
}
