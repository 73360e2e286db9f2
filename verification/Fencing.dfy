/** What the lease fence promises over whole runs: a worker whose claim was taken away changes
    nothing any more, commits of a connection form one chain of cursors, and the cache agrees
    with the provider in every state. */
module Fencing {
  import opened Wrappers
  import opened Reconcile
  import opened Provider
  import opened PageLoop
  import opened Lines
  import opened Lanes
  import opened LaneInvariant
  import opened LaneSteps
  import opened LaneEffects
  import opened Fleet
  import opened FleetInvariant
  import opened Reach

  // ---- The cache --------------------------------------------------------------------------------

  /** In every state of every run the rows cached for an active connection are the provider's
      snapshot at that connection's cursor, cut down to its cards, whatever workers crashed,
      stalled, retried or started over; and no row is cached that no active connection shows. */
  lemma CacheAgreesWithProvider(pv: Provider, lease: nat, trace: seq<Fleet>, acts: seq<Action>, n: nat)
    requires Sound(pv) && IsRun(pv, lease, trace, acts) && n <= |acts|
    ensures forall c :: c in trace[n].lanes && trace[n].lanes[c].line.active ==>
              var line := trace[n].lanes[c].line;
              Own(trace[n].rows, line.cards) == Visible(pv.snapshot(c, CursorText(line)), line.cards)
    ensures forall t :: t in trace[n].rows ==> ShownByActive(trace[n], trace[n].rows[t].account)
  {
    var f := trace[n];
    Reached(pv, lease, trace, acts, n);
    forall c | c in f.lanes && f.lanes[c].line.active
      ensures Own(f.rows, f.lanes[c].line.cards) ==
              Visible(pv.snapshot(c, CursorText(f.lanes[c].line)), f.lanes[c].line.cards)
    {
      assert CachedAt(pv, f.lanes, f.rows, c);
    }
    forall t | t in f.rows
      ensures ShownByActive(f, f.rows[t].account)
    {
      assert RowShown(f.lanes, f.rows, t);
      var c :| c in f.lanes && f.rows[t].account in f.lanes[c].line.cards;
      assert CachedAt(pv, f.lanes, f.rows, c);
    }
  }

  /** Field by field: a cached row of an active connection says what the provider's row at the
      connection's cursor says, and every row the provider has there for its cards is cached. */
  lemma CachedRowsShowTheProviders(pv: Provider, lease: nat, trace: seq<Fleet>, acts: seq<Action>, n: nat, c: ConnId, t: TxnId)
    requires Sound(pv) && IsRun(pv, lease, trace, acts) && n <= |acts| && c in trace[n].lanes && trace[n].lanes[c].line.active
    ensures var line, rows := trace[n].lanes[c].line, trace[n].rows;
            var told := pv.snapshot(c, CursorText(line));
            && (t in rows && rows[t].account in line.cards <==> t in told && told[t].account in line.cards)
            && (t in rows && rows[t].account in line.cards ==> Shows(rows[t], told[t]))
  {
    var line, rows := trace[n].lanes[c].line, trace[n].rows;
    CacheAgreesWithProvider(pv, lease, trace, acts, n);
    var own, visible := Own(rows, line.cards), Visible(pv.snapshot(c, CursorText(line)), line.cards);
    assert own == visible;
    assert t in own <==> t in visible;
  }

  ghost predicate ShownByActive(f: Fleet, account: AccountId) {
    exists c :: c in f.lanes && f.lanes[c].line.active && account in f.lanes[c].line.cards
  }

  // ---- The fence ---------------------------------------------------------------------------------

  /** A worker without its lease changes no row of any table. */
  lemma StaleWorkerWritesNothing(pv: Provider, lease: nat, f: Fleet, c: ConnId, token: Token, step: LaneAction)
    requires FleetInv(pv, lease, f) && CanDo(pv, lease, f, Work(c, token, step))
    requires NeedsFence(step) && !Holds(f.lanes[c], token)
    ensures var g := Next(pv, lease, f, Work(c, token, step));
            && g.rows == f.rows && g.runs == f.runs && g.requests == f.requests
            && g.lanes.Keys == f.lanes.Keys
            && forall d :: d in f.lanes ==> g.lanes[d].line == f.lanes[d].line
  {
    LaneParts(pv, lease, f.lanes, f.tick, c);
    FencedOut(pv, c, f.lanes[c], token, step, Clock(f, lease));
  }

  lemma RecoveryTakesOnly(lane: Lane, now: int, token: Token)
    requires WorkOk(lane) && token in lane.claims && !Holds(lane, token)
    ensures !Holds(RecoverStep(lane, now), token)
  {
    RecoverShape(lane.line, now);
  }

  lemma TargetTakesOnly(lane: Lane, run: RunId, now: int, tick: nat, token: Token)
    requires WorkOk(lane) && lane.line.active && token in lane.claims && !Holds(lane, token)
    ensures !Holds(TargetStep(lane, run, now, tick), token)
  {
    OnlyLastActive(lane.line.jobs);
    assert ClaimOk(lane.claims[token], |lane.line.jobs|, lane.line.requested);
  }

  lemma LostStaysLost(pv: Provider, lease: nat, f: Fleet, a: Action, c: ConnId, token: Token)
    requires CanDo(pv, lease, f, a) && c in f.lanes && WorkOk(f.lanes[c])
    requires token in f.lanes[c].claims && !Holds(f.lanes[c], token)
    ensures token in LaneAfter(pv, lease, f, a, c).claims && !Holds(LaneAfter(pv, lease, f, a, c), token)
  {
    var lane := f.lanes[c];
    match a
    case Work(conn, worker, step) =>
      if conn == c {
        LostForGood(pv, c, lane, worker, step, Clock(f, lease), token);
      }
    case RecoverAll => RecoveryTakesOnly(lane, f.now, token);
    case Create(key) =>
      if Opens(f, key, c) {
        TargetTakesOnly(lane, f.nextRun, f.now, f.tick, token);
      }
    case _ =>
  }

  /** A worker whose token was replaced or withdrawn never holds its job again. */
  lemma {:induction false} LostForever(pv: Provider, lease: nat, trace: seq<Fleet>, acts: seq<Action>, i: nat, j: nat, c: ConnId, token: Token)
    requires Sound(pv) && IsRun(pv, lease, trace, acts) && i <= j <= |acts|
    requires c in trace[i].lanes && token in trace[i].lanes[c].claims && !Holds(trace[i].lanes[c], token)
    ensures c in trace[j].lanes && token in trace[j].lanes[c].claims && !Holds(trace[j].lanes[c], token)
    decreases j
  {
    if i < j {
      LostForever(pv, lease, trace, acts, i, j - 1, c, token);
      LaneMoves(pv, lease, trace, acts, j - 1, c);
      Reached(pv, lease, trace, acts, j - 1);
      LaneParts(pv, lease, trace[j - 1].lanes, j - 1, c);
      LostStaysLost(pv, lease, trace[j - 1], acts[j - 1], c, token);
    }
  }

  // ---- One chain of cursors -------------------------------------------------------------------------

  /** Action `n` is a commit on connection `c` that the fence lets through. */
  ghost predicate CommitAt(trace: seq<Fleet>, acts: seq<Action>, n: nat, c: ConnId)
    requires |trace| == |acts| + 1
  {
    && n < |acts| && acts[n].Work? && acts[n].conn == c && acts[n].step.Commit?
    && c in trace[n].lanes && Commits(trace[n].lanes[c], acts[n].token, trace[n].now)
  }

  ghost function CursorAt(f: Fleet, c: ConnId): Cursor {
    if c in f.lanes then CursorText(f.lanes[c].line) else ""
  }

  /** The cursor moves only in a commit: from where the committing worker started to where its
      pages end. Generations never go back, and completed ones never pass requested ones. */
  lemma LaneProgress(pv: Provider, lease: nat, trace: seq<Fleet>, acts: seq<Action>, n: nat, c: ConnId)
    requires Sound(pv) && IsRun(pv, lease, trace, acts) && n < |acts| && c in trace[n].lanes
    ensures c in trace[n + 1].lanes
    ensures var lane, after := trace[n].lanes[c], trace[n + 1].lanes[c];
            && (after.line.active ==> lane.line.active)
            && lane.line.requested <= after.line.requested
            && lane.line.completed <= after.line.completed <= after.line.requested
            && (if CommitAt(trace, acts, n, c)
                then lane.pcs[acts[n].token].attempt == CursorAt(trace[n], c) &&
                     CursorAt(trace[n + 1], c) == lane.pcs[acts[n].token].ending
                else after.line.active ==> CursorAt(trace[n + 1], c) == CursorAt(trace[n], c))
  {
    LaneMoves(pv, lease, trace, acts, n, c);
    LaneReached(pv, lease, trace, acts, n, c);
    LaneReached(pv, lease, trace, acts, n + 1, c);
    ProgressOf(pv, lease, trace[n], acts[n], c);
  }

  lemma ProgressOf(pv: Provider, lease: nat, f: Fleet, a: Action, c: ConnId)
    requires CanDo(pv, lease, f, a) && c in f.lanes && WorkOk(f.lanes[c])
    ensures var line, after := f.lanes[c].line, LaneAfter(pv, lease, f, a, c).line;
            && (after.active ==> line.active)
            && line.requested <= after.requested && line.completed <= after.completed
            && (if a.Work? && a.conn == c && a.step.Commit? && Commits(f.lanes[c], a.token, f.now)
                then f.lanes[c].pcs[a.token].attempt == CursorText(line) && CursorText(after) == f.lanes[c].pcs[a.token].ending
                else after.active ==> CursorText(after) == CursorText(line))
  {
    if a.Work? && a.conn == c {
      StepFrame(pv, c, f.lanes[c], a.token, a.step, Clock(f, lease));
      if a.step.Commit? && Commits(f.lanes[c], a.token, f.now) {
        CommitShape(f.lanes[c], a.token, a.step.counts, f.now);
      }
    }
  }

  ghost predicate NoCommitBetween(trace: seq<Fleet>, acts: seq<Action>, i: nat, k: nat, c: ConnId)
    requires |trace| == |acts| + 1
  {
    forall n: nat :: i < n < k ==> !CommitAt(trace, acts, n, c)
  }

  /** Between two states without a commit in between, the cursor of a connection that is still
      active has not moved. */
  lemma {:induction false} CursorRests(pv: Provider, lease: nat, trace: seq<Fleet>, acts: seq<Action>, i: nat, k: nat, c: ConnId)
    requires Sound(pv) && IsRun(pv, lease, trace, acts) && i < k <= |acts| && c in trace[i + 1].lanes
    requires NoCommitBetween(trace, acts, i, k, c)
    ensures c in trace[k].lanes
    ensures trace[k].lanes[c].line.active ==>
              trace[i + 1].lanes[c].line.active && CursorAt(trace[k], c) == CursorAt(trace[i + 1], c)
    decreases k
  {
    if i + 1 < k {
      CursorRests(pv, lease, trace, acts, i, k - 1, c);
      LaneProgress(pv, lease, trace, acts, k - 1, c);
    }
  }

  /** The commits of a connection form one unbroken chain: each starts at the cursor the one
      before it wrote, whichever workers made them. */
  lemma CommitsFormAChain(pv: Provider, lease: nat, trace: seq<Fleet>, acts: seq<Action>, i: nat, k: nat, c: ConnId)
    requires Sound(pv) && IsRun(pv, lease, trace, acts) && i < k
    requires CommitAt(trace, acts, i, c) && CommitAt(trace, acts, k, c) && NoCommitBetween(trace, acts, i, k, c)
    ensures trace[k].lanes[c].pcs[acts[k].token].attempt == trace[i].lanes[c].pcs[acts[i].token].ending
  {
    LaneProgress(pv, lease, trace, acts, i, c);
    LaneProgress(pv, lease, trace, acts, k, c);
    CursorRests(pv, lease, trace, acts, i, k, c);
  }

  /** Over a whole run the completed generation never falls and never passes the requested one. */
  lemma {:induction false} GenerationsNeverFall(pv: Provider, lease: nat, trace: seq<Fleet>, acts: seq<Action>, i: nat, j: nat, c: ConnId)
    requires Sound(pv) && IsRun(pv, lease, trace, acts) && i <= j <= |acts| && c in trace[i].lanes
    ensures c in trace[j].lanes
    ensures var before, after := trace[i].lanes[c].line, trace[j].lanes[c].line;
            before.requested <= after.requested && before.completed <= after.completed <= after.requested
    decreases j
  {
    if i < j {
      GenerationsNeverFall(pv, lease, trace, acts, i, j - 1, c);
      LaneProgress(pv, lease, trace, acts, j - 1, c);
    } else {
      Reached(pv, lease, trace, acts, i);
      LaneParts(pv, lease, trace[i].lanes, i, c);
    }
  }

  // ---- The lease clock --------------------------------------------------------------------------------

  /** A commit happens strictly inside one lease length after the lease was last granted. */
  lemma CommitInsideLease(pv: Provider, lease: nat, trace: seq<Fleet>, acts: seq<Action>, n: nat, c: ConnId)
    requires Sound(pv) && IsRun(pv, lease, trace, acts) && CommitAt(trace, acts, n, c)
    ensures trace[n].now < trace[n].lanes[c].hist.renewed + lease
  {
    LaneReached(pv, lease, trace, acts, n, c);
    HoldsIsHolder(trace[n].lanes[c], acts[n].token);
  }

  /** The worker's claim is over: its token is gone, or its lease has run out. */
  predicate Over(lane: Lane, token: Token, now: int) {
    token in lane.claims && (Holds(lane, token) ==> lane.line.jobs[lane.claims[token].job].leaseExpires <= now)
  }

  lemma CommitStaysOver(lane: Lane, token: Token, counts: Summary, now: int, other: Token)
    requires WorkOk(lane) && Known(lane, token) && lane.pcs[token].AtCommit? && Over(lane, other, now)
    ensures Over(CommitStep(lane, token, counts, now).lane, other, now)
  {
    HoldsIsHolder(lane, token);
    HoldsIsHolder(lane, other);
    if Commits(lane, token, now) {
      CommitShape(lane, token, counts, now);
    }
  }

  lemma EnqueueStaysOver(lane: Lane, now: int, token: Token)
    requires WorkOk(lane) && lane.line.active && Over(lane, token, now)
    ensures Over(EnqueueStep(lane, now), token, now)
  {
    EnqueueShape(lane, now);
    HoldsIsHolder(lane, token);
    assert ClaimOk(lane.claims[token], |lane.line.jobs|, lane.line.requested);
  }

  lemma StepStaysOver(pv: Provider, c: ConnId, lane: Lane, token: Token, a: LaneAction, m: Moment, other: Token)
    requires WorkOk(lane) && Enabled(pv, c, lane, token, a, m) && Over(lane, other, m.now)
    ensures Over(Step(pv, c, lane, token, a, m).lane, other, m.now)
  {
    match a
    case Commit(counts) => CommitStaysOver(lane, token, counts, m.now, other);
    case Enqueue => EnqueueStaysOver(lane, m.now, other);
    case _ => QuietStaysOver(pv, c, lane, token, a, m, other);
  }

  lemma QuietStaysOver(pv: Provider, c: ConnId, lane: Lane, token: Token, a: LaneAction, m: Moment, other: Token)
    requires WorkOk(lane) && Enabled(pv, c, lane, token, a, m) && Over(lane, other, m.now) && !a.Commit? && !a.Enqueue?
    ensures Over(Step(pv, c, lane, token, a, m).lane, other, m.now)
  {
    if token in lane.claims {
      HoldsIsHolder(lane, token);
    }
    HoldsIsHolder(lane, other);
    assert ClaimOk(lane.claims[other], |lane.line.jobs|, lane.line.requested);
  }

  lemma RecoveryStaysOver(lane: Lane, now: int, token: Token)
    requires WorkOk(lane) && Over(lane, token, now)
    ensures Over(RecoverStep(lane, now), token, now)
  {
    RecoverShape(lane.line, now);
    HoldsIsHolder(lane, token);
  }

  lemma StaysOver(pv: Provider, lease: nat, f: Fleet, a: Action, c: ConnId, token: Token)
    requires CanDo(pv, lease, f, a) && c in f.lanes && WorkOk(f.lanes[c]) && Over(f.lanes[c], token, f.now)
    ensures Over(LaneAfter(pv, lease, f, a, c), token, Next(pv, lease, f, a).now)
  {
    match a
    case Work(conn, worker, step) =>
      if conn == c {
        StepStaysOver(pv, c, f.lanes[c], worker, step, Clock(f, lease), token);
      }
    case RecoverAll => RecoveryStaysOver(f.lanes[c], f.now, token);
    case Create(key) =>
      if Opens(f, key, c) {
        EnqueueStaysOver(f.lanes[c], f.now, token);
      }
    case _ =>
  }

  lemma {:induction false} OverForever(pv: Provider, lease: nat, trace: seq<Fleet>, acts: seq<Action>, i: nat, j: nat,
                                       c: ConnId, token: Token)
    requires Sound(pv) && IsRun(pv, lease, trace, acts) && i <= j <= |acts|
    requires c in trace[i].lanes && Over(trace[i].lanes[c], token, trace[i].now)
    ensures c in trace[j].lanes && Over(trace[j].lanes[c], token, trace[j].now)
    decreases j
  {
    if i < j {
      OverForever(pv, lease, trace, acts, i, j - 1, c, token);
      LaneMoves(pv, lease, trace, acts, j - 1, c);
      StepAt(pv, lease, trace, acts, j - 1);
      Reached(pv, lease, trace, acts, j - 1);
      LaneParts(pv, lease, trace[j - 1].lanes, j - 1, c);
      StaysOver(pv, lease, trace[j - 1], acts[j - 1], c, token);
    }
  }

  /** A lease that has run out cannot be renewed: from then on, over any run, its worker commits
      nothing, even if nobody has taken the job from it yet. */
  lemma ExpiredNeverCommits(pv: Provider, lease: nat, trace: seq<Fleet>, acts: seq<Action>, i: nat, k: nat, c: ConnId, token: Token)
    requires Sound(pv) && IsRun(pv, lease, trace, acts) && i <= k && CommitAt(trace, acts, k, c) && acts[k].token == token
    ensures c in trace[i].lanes && token in trace[i].lanes[c].claims ==>
              Holds(trace[i].lanes[c], token) &&
              trace[i].now < trace[i].lanes[c].line.jobs[trace[i].lanes[c].claims[token].job].leaseExpires
  {
    if c in trace[i].lanes && Over(trace[i].lanes[c], token, trace[i].now) {
      OverForever(pv, lease, trace, acts, i, k, c, token);
      assert false;
    }
  }
}
