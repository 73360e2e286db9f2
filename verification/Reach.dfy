/** Runs of the service from the outside: what holds in every state a run can reach, and how
    one connection sees each action. */
module Reach {
  import opened Wrappers
  import opened Reconcile
  import opened Provider
  import opened PageLoop
  import opened Lines
  import opened Lanes
  import opened LaneInvariant
  import opened LaneSteps
  import opened LaneEffects
  import opened Fleet
  import opened FleetInvariant

  ghost predicate Sound(pv: Provider) {
    Exclusive(pv) && StartsEmpty(pv)
  }

  lemma StartHolds(pv: Provider, lease: nat, f: Fleet)
    requires f == START.(now := f.now)
    ensures FleetInv(pv, lease, f)
  {
  }

  /** The invariant holds in every state of every run, and states are numbered by `tick`. */
  lemma {:induction false} Reached(pv: Provider, lease: nat, trace: seq<Fleet>, acts: seq<Action>, n: nat)
    requires Sound(pv) && IsRun(pv, lease, trace, acts) && n <= |acts|
    ensures FleetInv(pv, lease, trace[n]) && trace[n].tick == n
  {
    if n == 0 {
      StartHolds(pv, lease, trace[0]);
    } else {
      Reached(pv, lease, trace, acts, n - 1);
      StepAt(pv, lease, trace, acts, n - 1);
      NextKeeps(pv, lease, trace[n - 1], acts[n - 1]);
    }
  }

  /** The action of a run at one point, with what makes it possible. */
  lemma StepAt(pv: Provider, lease: nat, trace: seq<Fleet>, acts: seq<Action>, n: nat)
    requires IsRun(pv, lease, trace, acts) && n < |acts|
    ensures CanDo(pv, lease, trace[n], acts[n]) && trace[n + 1] == Next(pv, lease, trace[n], acts[n])
  {
    assert StepOf(pv, lease, trace, acts, n);
  }

  // ---- One connection's view of an action ------------------------------------------------------

  /** What an action of the service makes of one connection. */
  ghost function LaneAfter(pv: Provider, lease: nat, f: Fleet, a: Action, c: ConnId): Lane
    requires CanDo(pv, lease, f, a) && c in f.lanes
  {
    var lane := f.lanes[c];
    match a
    case Wait(_) => lane
    case Link(_, _, _) => lane
    case Work(conn, token, step) => if conn == c then Step(pv, c, lane, token, step, Clock(f, lease)).lane else lane
    case RecoverAll => RecoverStep(lane, f.now)
    case DisconnectConn(conn) => if conn == c then DisconnectStep(lane) else lane
    case Create(key) => if Opens(f, key, c) then TargetStep(lane, f.nextRun, f.now, f.tick) else lane
    case Cleanup(gone) => DropStep(lane, gone)
  }

  /** This request creates a run, and the run gets a target on this connection. */
  ghost predicate Opens(f: Fleet, key: RequestKey, c: ConnId) {
    Answer(f, key).Created? && c in Snapshot(f.lanes, key.owner)
  }

  lemma NextLane(pv: Provider, lease: nat, f: Fleet, a: Action, c: ConnId)
    requires CanDo(pv, lease, f, a) && c in f.lanes
    ensures c in Next(pv, lease, f, a).lanes && Next(pv, lease, f, a).lanes[c] == LaneAfter(pv, lease, f, a, c)
  {
  }

  /** A connection seen for the first time was just linked, and is empty but for its first job. */
  lemma NewcomerIsLinked(pv: Provider, lease: nat, f: Fleet, a: Action, c: ConnId)
    requires CanDo(pv, lease, f, a) && c !in f.lanes && c in Next(pv, lease, f, a).lanes
    ensures a.Link? && a.conn == c && Next(pv, lease, f, a).lanes[c] == NewLane(a.owner, a.cards, f.now)
  {
  }

  lemma {:induction false} LaneStays(pv: Provider, lease: nat, trace: seq<Fleet>, acts: seq<Action>, i: nat, j: nat, c: ConnId)
    requires IsRun(pv, lease, trace, acts) && i <= j <= |acts| && c in trace[i].lanes
    ensures c in trace[j].lanes
    decreases j
  {
    if i < j {
      LaneStays(pv, lease, trace, acts, i, j - 1, c);
      StepAt(pv, lease, trace, acts, j - 1);
      NextLane(pv, lease, trace[j - 1], acts[j - 1], c);
    }
  }

  /** One connection's invariant in every state of every run. */
  lemma LaneReached(pv: Provider, lease: nat, trace: seq<Fleet>, acts: seq<Action>, n: nat, c: ConnId)
    requires Sound(pv) && IsRun(pv, lease, trace, acts) && n <= |acts| && c in trace[n].lanes
    ensures LaneInv(pv, c, trace[n].lanes[c], n, lease)
  {
    Reached(pv, lease, trace, acts, n);
    LaneHolds(pv, lease, trace[n].lanes, n, c);
  }

  /** A connection from one state of a run to the next. */
  lemma LaneMoves(pv: Provider, lease: nat, trace: seq<Fleet>, acts: seq<Action>, n: nat, c: ConnId)
    requires IsRun(pv, lease, trace, acts) && n < |acts| && c in trace[n].lanes
    ensures CanDo(pv, lease, trace[n], acts[n]) && c in trace[n + 1].lanes
    ensures trace[n + 1].lanes[c] == LaneAfter(pv, lease, trace[n], acts[n], c)
  {
    StepAt(pv, lease, trace, acts, n);
    NextLane(pv, lease, trace[n], acts[n], c);
  }
}
