/** What every step of a connection keeps. Each predicate takes just the fields it speaks of. */
module LaneInvariant {
  import opened Wrappers
  import opened Reconcile
  import opened Provider
  import opened PageLoop
  import opened Lines
  import opened Lanes

  // ---- Jobs, claims and generations ----------------------------------------------------------

  predicate Busy(jobs: seq<Job>) {
    |jobs| > 0 && JobActive(jobs[|jobs| - 1])
  }

  predicate Running(jobs: seq<Job>) {
    |jobs| > 0 && jobs[|jobs| - 1].state.JobRunning?
  }

  /** Only the newest job can be active, and it aims at the requested generation. */
  ghost predicate JobsOk(jobs: seq<Job>, requested: nat) {
    && (forall i :: 0 <= i < |jobs| - 1 ==> !JobActive(jobs[i]))
    && (forall i :: 0 <= i < |jobs| ==> (jobs[i].state.JobRunning? <==> jobs[i].leaseToken.Some?))
    && (Running(jobs) ==> jobs[|jobs| - 1].attempts >= 1)
    && (Busy(jobs) ==> jobs[|jobs| - 1].targetGeneration == requested && requested >= 1)
  }

  /** The token of the running job, if a job runs. */
  function Holder(jobs: seq<Job>): Option<Token> {
    if Running(jobs) then jobs[|jobs| - 1].leaseToken else None
  }

  ghost predicate ClaimOk(claim: JobClaim, jobs: nat, requested: nat) {
    claim.job < jobs && 1 <= claim.generation <= requested
  }

  ghost predicate ClaimsOk(claims: map<Token, JobClaim>, jobs: nat, requested: nat) {
    forall token :: token in claims ==> ClaimOk(claims[token], jobs, requested)
  }

  ghost predicate HolderClaimOk(holder: Option<Token>, claims: map<Token, JobClaim>, pcs: map<Token, Pc>,
                                jobs: nat, completed: nat) {
    holder.Some? ==>
      && holder.value in claims && holder.value in pcs
      && claims[holder.value].job == jobs - 1 && completed <= claims[holder.value].generation
  }

  ghost predicate GenerationsOk(requested: nat, completed: nat, dropped: nat, busy: bool) {
    && completed <= requested && dropped <= requested
    && (if busy then completed < requested else requested == completed || requested == dropped)
  }

  // ---- Targets --------------------------------------------------------------------------------

  /** State and outcome of a target fit together, and a finished state says what happened. */
  predicate Coherent(t: Target) {
    StateFits(t) && (t.outcome.Cooldown? ==> t.nextEligible.Some?)
  }

  predicate StateFits(t: Target) {
    var changed := t.counts.added + t.counts.modified + t.counts.removed > 0;
    match t.state
    case TargetQueued => t.outcome.NotAttempted?
    case Refreshing => t.outcome.Reserved? || t.outcome.Dispatching?
    case Syncing =>
      t.outcome.Unsupported? || t.outcome.Cooldown? || t.outcome.Accepted? || t.outcome.Unknown? || t.outcome.RefreshFailed?
    case Updated => t.outcome.Accepted? && changed
    case NoChanges => t.outcome.Accepted? && !changed
    case AutomaticOnly => t.outcome.Unsupported?
    case InCooldown => t.outcome.Cooldown?
    case OutcomeUnknown => t.outcome.Unknown?
    case Disconnected => t.outcome.RefreshFailed?
    case _ => true
  }

  ghost predicate TargetsOk(targets: map<RunId, Target>, requested: nat) {
    forall run :: run in targets ==> Coherent(targets[run]) && 1 <= targets[run].required <= requested
  }

  ghost predicate OneActive(targets: map<RunId, Target>) {
    forall a, b :: a in targets && b in targets && TargetActive(targets[a]) && TargetActive(targets[b]) ==> a == b
  }

  function HolderPc(jobs: seq<Job>, pcs: map<Token, Pc>): Pc {
    var holder := Holder(jobs);
    if holder.Some? && holder.value in pcs then pcs[holder.value] else Gone
  }

  ghost predicate Waiting(targets: map<RunId, Target>, run: RunId, outcome: Outcome) {
    run in targets && targets[run].state.Refreshing? && targets[run].outcome == outcome
  }

  /** The worker that holds the job stands where its target's state says it stands. */
  ghost predicate HolderOk(pc: Pc, targets: map<RunId, Target>) {
    match pc
    case AtPrepare(run) => Waiting(targets, run, Reserved)
    case AtRefreshCall(run) => Waiting(targets, run, Dispatching)
    case AtRecord(run, _, _, _, _) => Waiting(targets, run, Dispatching)
    case _ => true
  }

  // ---- Refresh dispatches ------------------------------------------------------------------------

  predicate Undispatched(t: Target) {
    t.outcome.NotAttempted? || t.outcome.Reserved?
  }

  /** No run twice, and every one known. */
  ghost predicate DispatchedOnce(d: seq<DispatchRecord>, created: map<RunId, nat>) {
    && (forall i :: 0 <= i < |d| ==> d[i].run in created)
    && (forall i, j :: 0 <= i < j < |d| ==> d[i].run != d[j].run)
  }

  ghost predicate NotYetDispatched(d: seq<DispatchRecord>, targets: map<RunId, Target>) {
    forall i :: 0 <= i < |d| && d[i].run in targets ==> !Undispatched(targets[d[i].run])
  }

  ghost predicate Spaced(d: seq<DispatchRecord>, lastRefreshAt: Option<int>) {
    && lastRefreshAt == (if d == [] then None else Some(d[|d| - 1].at))
    && (forall i :: 0 < i < |d| ==> d[i - 1].at + COOLDOWN_SECONDS <= d[i].at)
  }

  ghost predicate RefusalOk(refusedAfter: Option<nat>, refreshSupported: bool, dispatched: nat) {
    && (refusedAfter.Some? <==> !refreshSupported)
    && (refusedAfter.Some? ==> refusedAfter.value == dispatched)
  }

  /** No target names an eligibility time later than the cooldown really ends. */
  ghost predicate EligibleOk(targets: map<RunId, Target>, lastRefreshAt: Option<int>) {
    forall run :: run in targets && targets[run].nextEligible.Some? ==>
      lastRefreshAt.Some? && targets[run].nextEligible.value <= lastRefreshAt.value + COOLDOWN_SECONDS
  }

  /** A target says "unsupported" only when the connection has lost its refresh support. */
  ghost predicate UnsupportedOk(targets: map<RunId, Target>, refreshSupported: bool) {
    forall run :: run in targets && targets[run].outcome.Unsupported? ==> !refreshSupported
  }

  // ---- Order of events -----------------------------------------------------------------------------

  /** The step of the first page request of the attempt a worker is in, if it made one. */
  function FirstCall(pc: Pc): Option<nat> {
    match pc
    case AtPages(_, first) => first
    case AtCommit(_, _, _, asked) => Some(asked)
    case _ => None
  }

  ghost predicate TargetsKnown(targets: map<RunId, Target>, created: map<RunId, nat>) {
    forall run :: run in targets ==> run in created
  }

  ghost predicate Before(stamps: map<RunId, nat>, tick: nat) {
    forall run :: run in stamps ==> stamps[run] < tick
  }

  ghost predicate ClaimedBefore(claims: map<Token, JobClaim>, tick: nat) {
    forall token :: token in claims ==> claims[token].claimed < tick
  }

  predicate Recordable(outcome: Outcome) {
    outcome.Accepted? || outcome.Unsupported? || outcome.Unknown? || outcome.RefreshFailed?
  }

  ghost predicate PcOk(pc: Pc, claimed: nat, tick: nat) {
    && (pc.AtRecord? ==> pc.returned < tick && Recordable(pc.outcome))
    && (FirstCall(pc).Some? ==> claimed < FirstCall(pc).value < tick)
  }

  ghost predicate PcsOk(pcs: map<Token, Pc>, claims: map<Token, JobClaim>, tick: nat) {
    && pcs.Keys == claims.Keys
    && forall token :: token in pcs ==> PcOk(pcs[token], claims[token].claimed, tick)
  }

  /** A claim whose generation covers a target was made after the target was created. */
  ghost predicate CoveredLater(claims: map<Token, JobClaim>, targets: map<RunId, Target>, created: map<RunId, nat>) {
    forall token, run :: token in claims && run in targets && run in created ==>
      (targets[run].required <= claims[token].generation ==> created[run] < claims[token].claimed)
  }

  ghost predicate AcceptedReturned(targets: map<RunId, Target>, returned: map<RunId, nat>) {
    forall run :: run in targets && targets[run].outcome.Accepted? ==> run in returned
  }

  /** The holder asks for pages only after every accepted refresh call has come back. */
  ghost predicate AskedLater(first: Option<nat>, targets: map<RunId, Target>, returned: map<RunId, nat>) {
    first.Some? ==>
      forall run :: run in targets && targets[run].outcome.Accepted? && run in returned ==> returned[run] < first.value
  }

  // ---- Commits, retries, pages, leases ------------------------------------------------------------

  ghost predicate CommitsOk(log: seq<CommitRecord>, completed: nat) {
    && (forall i :: 0 < i < |log| ==> log[i].starting == log[i - 1].ending && log[i - 1].generation <= log[i].generation)
    && (log != [] ==> log[0].starting == "")
    && completed == (if log == [] then 0 else log[|log| - 1].generation)
  }

  ghost predicate CursorOk(log: seq<CommitRecord>, active: bool, cursor: Cursor) {
    active ==> cursor == (if log == [] then "" else log[|log| - 1].ending)
  }

  /** Attempt numbers after which one job was put back: each larger than the one before, at most 4. */
  ghost predicate RetriesOf(retries: seq<nat>, job: Job) {
    && (forall i :: 0 <= i < |retries| ==> 1 <= retries[i] <= |BACKOFF_SECONDS| && retries[i] <= job.attempts)
    && (forall i :: 0 < i < |retries| ==> retries[i - 1] < retries[i])
    && (job.state.JobRunning? ==> forall i :: 0 <= i < |retries| ==> retries[i] < job.attempts)
  }

  ghost predicate RetriesOk(retries: seq<seq<nat>>, jobs: seq<Job>) {
    && |retries| == |jobs|
    && forall j :: 0 <= j < |jobs| ==> RetriesOf(retries[j], jobs[j])
  }

  ghost predicate PagesOf(pv: Provider, c: ConnId, pc: Pc) {
    match pc
    case AtPages(loop, first) =>
      && Chain(pv, c, loop.attempt, loop.pages) && loop.request == EndOf(loop.attempt, loop.pages)
    case AtCommit(attempt, pages, ending, _) => Chain(pv, c, attempt, pages) && ending == EndOf(attempt, pages)
    case _ => true
  }

  ghost predicate PagesOk(pv: Provider, c: ConnId, pcs: map<Token, Pc>) {
    forall token :: token in pcs ==> PagesOf(pv, c, pcs[token])
  }

  /** A running lease runs out one lease length after it was last granted. */
  ghost predicate LeaseOk(jobs: seq<Job>, renewed: int, lease: nat) {
    Running(jobs) ==> jobs[|jobs| - 1].leaseExpires == renewed + lease
  }

  // ---- All together -----------------------------------------------------------------------------------

  ghost predicate WorkOk(lane: Lane) {
    var line := lane.line;
    && JobsOk(line.jobs, line.requested)
    && ClaimsOk(lane.claims, |line.jobs|, line.requested)
    && HolderClaimOk(Holder(line.jobs), lane.claims, lane.pcs, |line.jobs|, line.completed)
    && GenerationsOk(line.requested, line.completed, lane.hist.dropped, Busy(line.jobs))
  }

  ghost predicate RefreshOk(lane: Lane) {
    var line, hist := lane.line, lane.hist;
    && TargetsOk(line.targets, line.requested) && OneActive(line.targets)
    && HolderOk(HolderPc(line.jobs, lane.pcs), line.targets)
    && DispatchedOnce(hist.dispatches, hist.created)
    && NotYetDispatched(hist.dispatches, line.targets)
    && Spaced(hist.dispatches, line.lastRefreshAt)
    && RefusalOk(hist.refusedAfter, line.refreshSupported, |hist.dispatches|)
    && EligibleOk(line.targets, line.lastRefreshAt)
    && UnsupportedOk(line.targets, line.refreshSupported)
  }

  ghost predicate OrderOk(lane: Lane, tick: nat) {
    var line, hist := lane.line, lane.hist;
    && TargetsKnown(line.targets, hist.created)
    && Before(hist.created, tick) && Before(hist.returned, tick)
    && ClaimedBefore(lane.claims, tick) && PcsOk(lane.pcs, lane.claims, tick)
    && CoveredLater(lane.claims, line.targets, hist.created)
    && AcceptedReturned(line.targets, hist.returned)
    && AskedLater(FirstCall(HolderPc(line.jobs, lane.pcs)), line.targets, hist.returned)
  }

  ghost predicate LogOk(pv: Provider, c: ConnId, lane: Lane, lease: nat) {
    var line, hist := lane.line, lane.hist;
    && CommitsOk(hist.commits, line.completed) && CursorOk(hist.commits, line.active, CursorText(line))
    && RetriesOk(hist.retries, line.jobs)
    && PagesOk(pv, c, lane.pcs)
    && LeaseOk(line.jobs, hist.renewed, lease)
  }

  ghost predicate LaneInv(pv: Provider, c: ConnId, lane: Lane, tick: nat, lease: nat) {
    WorkOk(lane) && RefreshOk(lane) && OrderOk(lane, tick) && LogOk(pv, c, lane, lease)
  }

  // ---- Facts about the newest job ---------------------------------------------------------------------

  lemma OnlyLastActive(jobs: seq<Job>)
    requires forall i :: 0 <= i < |jobs| - 1 ==> !JobActive(jobs[i])
    ensures ActiveJob(jobs) == if Busy(jobs) then Some(|jobs| - 1) else None
  {
  }

  /** Holding a claim means holding the newest job, under its token. */
  lemma HoldsIsHolder(lane: Lane, token: Token)
    requires WorkOk(lane) && token in lane.claims
    ensures Holds(lane, token) <==> Holder(lane.line.jobs) == Some(token)
    ensures Holds(lane, token) ==> lane.claims[token].job == |lane.line.jobs| - 1
  {
  }
}
