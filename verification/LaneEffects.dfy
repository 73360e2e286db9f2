/** What one step of a connection's workers can do to the rest of the service: to the runs its
    targets belong to, to the cursor and cards the cache depends on, and to the fence. */
module LaneEffects {
  import opened Wrappers
  import opened Reconcile
  import opened Provider
  import opened PageLoop
  import opened Lines
  import opened Lanes
  import opened LaneInvariant

  // ---- Targets ---------------------------------------------------------------------------------

  predicate TargetSettles(before: Target, after: Target, note: RunNote, run: RunId) {
    && after.required == before.required
    && (!TargetActive(before) ==> after == before && note != Ended(run) && note != Started(run))
    && (TargetActive(before) ==> (TargetActive(after) <==> note != Ended(run)))
  }

  /** No target appears or goes; a finished one never changes; the run that is noted as started
      has an active target here, and the run noted as ended is the one whose target ended. */
  ghost predicate Settles(before: map<RunId, Target>, after: map<RunId, Target>, note: RunNote) {
    && after.Keys == before.Keys
    && (note.Started? ==> note.run in before) && (note.Ended? ==> note.run in before)
    && forall run :: run in before && run in after ==> TargetSettles(before[run], after[run], note, run)
  }

  lemma OneSettles(before: map<RunId, Target>, run: RunId, t: Target, note: RunNote)
    requires run in before && TargetSettles(before[run], t, note, run)
    requires note.Started? ==> note.run == run
    requires note.Ended? ==> note.run == run
    ensures Settles(before, before[run := t], note)
  {
  }

  lemma PrepareSettles(lane: Lane, token: Token, decrypts: bool, now: int)
    requires WorkOk(lane) && RefreshOk(lane) && Known(lane, token) && lane.pcs[token].AtPrepare?
    ensures var moved := PrepareStep(lane, token, decrypts, now);
            Settles(lane.line.targets, moved.lane.line.targets, moved.note)
  {
    HoldsIsHolder(lane, token);
    var run := lane.pcs[token].run;
    var moved := PrepareStep(lane, token, decrypts, now);
    if Prepares(lane.line, run, lane.claims[token].job, token) {
      assert Waiting(lane.line.targets, run, Reserved);
      OneSettles(lane.line.targets, run, moved.lane.line.targets[run], moved.note);
    }
  }

  lemma RecordSettles(lane: Lane, token: Token)
    requires WorkOk(lane) && RefreshOk(lane) && Known(lane, token) && lane.pcs[token].AtRecord?
    ensures var moved := RecordStep(lane, token);
            Settles(lane.line.targets, moved.lane.line.targets, moved.note)
  {
    HoldsIsHolder(lane, token);
    var run := lane.pcs[token].run;
    var moved := RecordStep(lane, token);
    if Records(lane.line, run, lane.claims[token].job, token) {
      assert Waiting(lane.line.targets, run, Dispatching);
      OneSettles(lane.line.targets, run, moved.lane.line.targets[run], moved.note);
    }
  }

  lemma CommitSettles(lane: Lane, token: Token, counts: Summary, now: int)
    requires Known(lane, token) && lane.pcs[token].AtCommit?
    ensures var moved := CommitStep(lane, token, counts, now);
            Settles(lane.line.targets, moved.lane.line.targets, moved.note)
  {
  }

  lemma FailureSettles(lane: Lane, token: Token, now: int)
    requires Known(lane, token) && lane.pcs[token].AtFailure?
    ensures var moved := FailureStep(lane, token, now);
            Settles(lane.line.targets, moved.lane.line.targets, moved.note)
  {
    var moved := FailureStep(lane, token, now);
    var found := FindActive(lane.line.targets);
    if moved.note.Ended? {
      OneSettles(lane.line.targets, found.value, moved.lane.line.targets[found.value], moved.note);
    }
  }

  lemma RecoverSettles(lane: Lane, now: int)
    ensures Settles(lane.line.targets, RecoverStep(lane, now).line.targets, NoNote)
  {
    ManySettle(lane.line.targets, lane.line.jobs, now);
  }

  lemma {:induction false} ManySettle(targets: map<RunId, Target>, jobs: seq<Job>, now: int)
    ensures Settles(targets, RecoverTargets(targets, jobs, now), NoNote)
  {
    if jobs != [] {
      ManySettle(targets, jobs[..|jobs| - 1], now);
    }
  }

  /** Every worker step settles the targets it touches and reports exactly what it did. */
  lemma StepSettles(pv: Provider, c: ConnId, lane: Lane, token: Token, a: LaneAction, m: Moment)
    requires WorkOk(lane) && RefreshOk(lane) && Enabled(pv, c, lane, token, a, m)
    ensures var moved := Step(pv, c, lane, token, a, m);
            Settles(lane.line.targets, moved.lane.line.targets, moved.note)
  {
    match a
    case Prepare(decrypts) => PrepareSettles(lane, token, decrypts, m.now);
    case Record => RecordSettles(lane, token);
    case Commit(counts) => CommitSettles(lane, token, counts, m.now);
    case RecordFailure => FailureSettles(lane, token, m.now);
    case _ => QuietSettles(pv, c, lane, token, a, m);
  }

  lemma QuietSettles(pv: Provider, c: ConnId, lane: Lane, token: Token, a: LaneAction, m: Moment)
    requires Enabled(pv, c, lane, token, a, m)
    requires !a.Prepare? && !a.Record? && !a.Commit? && !a.RecordFailure?
    ensures var moved := Step(pv, c, lane, token, a, m);
            Settles(lane.line.targets, moved.lane.line.targets, moved.note)
  {
    if a.Reserve? {
      ReserveSettles(lane, token);
    } else {
      RestSettles(pv, c, lane, token, a, m);
    }
  }

  lemma ReserveSettles(lane: Lane, token: Token)
    requires Known(lane, token) && lane.pcs[token].Claimed?
    ensures Settles(lane.line.targets, ReserveStep(lane, token).lane.line.targets, ReserveStep(lane, token).note)
  {
  }

  lemma RestSettles(pv: Provider, c: ConnId, lane: Lane, token: Token, a: LaneAction, m: Moment)
    requires Enabled(pv, c, lane, token, a, m)
    requires !a.Reserve? && !a.Prepare? && !a.Record? && !a.Commit? && !a.RecordFailure?
    ensures var moved := Step(pv, c, lane, token, a, m);
            moved.lane.line.targets == lane.line.targets && moved.note.NoNote?
  {
  }

  // ---- Cursor, cards and generations ---------------------------------------------------------------

  predicate SamePlace(line: Line, after: Line) {
    && after.owner == line.owner && after.cards == line.cards && after.active == line.active
    && line.requested <= after.requested
  }

  lemma CommitFrame(lane: Lane, token: Token, counts: Summary, now: int)
    requires Known(lane, token) && lane.pcs[token].AtCommit?
    ensures var after := CommitStep(lane, token, counts, now).lane;
            && SamePlace(lane.line, after.line) && after.hist.created == lane.hist.created
            && (if Commits(lane, token, now)
                then CursorText(lane.line) == lane.pcs[token].attempt && after.line.cursor == Some(lane.pcs[token].ending)
                else after == At(lane, token, Gone))
  {
  }

  /** Owner and cards stay; the cursor moves only by a commit, from the cursor the committing
      worker started at; generations never go back. */
  lemma StepFrame(pv: Provider, c: ConnId, lane: Lane, token: Token, a: LaneAction, m: Moment)
    requires Enabled(pv, c, lane, token, a, m)
    ensures var after := Step(pv, c, lane, token, a, m).lane;
            && SamePlace(lane.line, after.line) && after.hist.created == lane.hist.created
            && (if a.Commit? && Commits(lane, token, m.now)
                then CursorText(lane.line) == lane.pcs[token].attempt && after.line.cursor == Some(lane.pcs[token].ending)
                else after.line.cursor == lane.line.cursor && after.line.completed == lane.line.completed)
  {
    if a.Commit? {
      CommitFrame(lane, token, a.counts, m.now);
    } else if MovesTarget(a) {
      TargetFrame(pv, c, lane, token, a, m);
    } else {
      QuietFrame(pv, c, lane, token, a, m);
    }
  }

  predicate MovesTarget(a: LaneAction) {
    a.Reserve? || a.Prepare? || a.Record? || a.RecordFailure?
  }

  /** The place, the cursor, the generations and the creation log stay. */
  predicate Framed(lane: Lane, after: Lane) {
    && SamePlace(lane.line, after.line) && after.hist.created == lane.hist.created
    && after.line.cursor == lane.line.cursor && after.line.completed == lane.line.completed
  }

  lemma ReserveFrame(lane: Lane, token: Token)
    requires Known(lane, token) && lane.pcs[token].Claimed?
    ensures Framed(lane, ReserveStep(lane, token).lane)
  {
  }

  lemma PrepareFrame(lane: Lane, token: Token, decrypts: bool, now: int)
    requires Known(lane, token) && lane.pcs[token].AtPrepare?
    ensures Framed(lane, PrepareStep(lane, token, decrypts, now).lane)
  {
  }

  lemma RecordFrame(lane: Lane, token: Token)
    requires Known(lane, token) && lane.pcs[token].AtRecord?
    ensures Framed(lane, RecordStep(lane, token).lane)
  {
  }

  lemma FailureFrame(lane: Lane, token: Token, now: int)
    requires Known(lane, token) && lane.pcs[token].AtFailure?
    ensures Framed(lane, FailureStep(lane, token, now).lane)
  {
  }

  lemma TargetFrame(pv: Provider, c: ConnId, lane: Lane, token: Token, a: LaneAction, m: Moment)
    requires Enabled(pv, c, lane, token, a, m) && MovesTarget(a)
    ensures Framed(lane, Step(pv, c, lane, token, a, m).lane)
  {
    match a
    case Reserve => ReserveFrame(lane, token);
    case Prepare(decrypts) => PrepareFrame(lane, token, decrypts, m.now);
    case Record => RecordFrame(lane, token);
    case RecordFailure => FailureFrame(lane, token, m.now);
  }

  lemma QuietFrame(pv: Provider, c: ConnId, lane: Lane, token: Token, a: LaneAction, m: Moment)
    requires Enabled(pv, c, lane, token, a, m) && !a.Commit? && !MovesTarget(a)
    ensures Framed(lane, Step(pv, c, lane, token, a, m).lane)
  {
  }

  // ---- The fence --------------------------------------------------------------------------------------

  /** Steps that write nothing to the database even for the holder, and steps no claim is behind. */
  predicate NeedsFence(a: LaneAction) {
    !a.Enqueue? && !a.Claim?
  }

  /** A worker that does not hold its job changes no row of the connection, notes nothing, and
      its pages never reach the cache. */
  lemma FencedOut(pv: Provider, c: ConnId, lane: Lane, token: Token, a: LaneAction, m: Moment)
    requires WorkOk(lane) && Enabled(pv, c, lane, token, a, m) && NeedsFence(a) && !Holds(lane, token)
    ensures var moved := Step(pv, c, lane, token, a, m);
            moved.lane.line == lane.line && moved.note == NoNote && !Commits(lane, token, m.now)
  {
    assert token in lane.claims;
  }

  /** A claim that lost its job never holds it again. */
  lemma LostForGood(pv: Provider, c: ConnId, lane: Lane, token: Token, a: LaneAction, m: Moment, other: Token)
    requires WorkOk(lane) && Enabled(pv, c, lane, token, a, m)
    requires other in lane.claims && !Holds(lane, other)
    ensures other in Step(pv, c, lane, token, a, m).lane.claims
    ensures !Holds(Step(pv, c, lane, token, a, m).lane, other)
  {
    if a.Enqueue? {
      OnlyLastActive(lane.line.jobs);
    }
    if token in lane.claims {
      HoldsIsHolder(lane, token);
    }
    HoldsIsHolder(lane, other);
    assert ClaimOk(lane.claims[other], |lane.line.jobs|, lane.line.requested);
  }
}
