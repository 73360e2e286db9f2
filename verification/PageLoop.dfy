/** The page loop of one sync attempt (backend/app/services/sync_service.py). */
module PageLoop {
  import opened Wrappers
  import opened Reconcile
  import opened Provider

  const MAX_PAGES_PER_ATTEMPT: nat := 200

  datatype RetryClass = Transient | OwnerAction | Permanent | NotSupported

  /** What one provider call can come back with. */
  datatype Reply = Page(page: SyncPage) | Mutation | NoAnswer | Refused(code: string, cls: RetryClass)

  /** The local variables of the loop. `guard` counts the calls already made. */
  datatype Loop = Loop(attempt: Cursor, request: Cursor, pages: seq<SyncPage>, guard: nat)

  datatype Collected = Done(pages: seq<SyncPage>, ending: Cursor) | Failed(code: string, cls: RetryClass)

  datatype LoopStep = More(loop: Loop) | Stop(result: Collected)

  function Start(attempt: Cursor): Loop {
    Loop(attempt, attempt, [], 0)
  }

  const LIMIT_REACHED: Collected := Failed("TRANSACTIONS_SYNC_LIMIT", Transient)

  /** One turn of the loop after the provider answered. */
  function Turn(loop: Loop, reply: Reply): LoopStep {
    var called := loop.(guard := loop.guard + 1);
    match reply
    case Mutation => More(called.(request := loop.attempt, pages := []))
    case NoAnswer => Stop(Failed("PROVIDER_TIMEOUT", Transient))
    case Refused(code, cls) => Stop(Failed(code, cls))
    case Page(page) =>
      if page.hasMore then More(called.(request := page.next, pages := loop.pages + [page]))
      else Stop(Done(loop.pages + [page], page.next))
  }

  /** The n-th call of an attempt, asked at a cursor, is answered by `gateway(n, cursor)`. */
  type Gateway = (nat, Cursor) -> Reply

  function Ask(gateway: Gateway, call: nat, cursor: Cursor): Reply {
    gateway(call, cursor)
  }

  /** The whole attempt as seen from one point of its loop, with the number of calls made. */
  function Collect(gateway: Gateway, loop: Loop): (Collected, nat)
    decreases MAX_PAGES_PER_ATTEMPT - loop.guard
  {
    if loop.guard >= MAX_PAGES_PER_ATTEMPT then (LIMIT_REACHED, loop.guard)
    else
      match Turn(loop, Ask(gateway, loop.guard, loop.request))
      case Stop(result) => (result, loop.guard + 1)
      case More(next) => Collect(gateway, next)
  }

  method CollectPages(gateway: Gateway, attempt: Cursor) returns (result: Collected, calls: nat)
    ensures (result, calls) == Collect(gateway, Start(attempt))
  {
    var request := attempt;
    var pages: seq<SyncPage> := [];
    calls := 0;
    while true
      invariant calls <= MAX_PAGES_PER_ATTEMPT
      invariant Collect(gateway, Start(attempt)) == Collect(gateway, Loop(attempt, request, pages, calls))
      decreases MAX_PAGES_PER_ATTEMPT - calls
    {
      if calls >= MAX_PAGES_PER_ATTEMPT {
        return LIMIT_REACHED, calls;
      }
      var reply := Ask(gateway, calls, request);
      calls := calls + 1;
      match reply
      case Mutation =>
        request, pages := attempt, [];
      case NoAnswer =>
        return Failed("PROVIDER_TIMEOUT", Transient), calls;
      case Refused(code, cls) =>
        return Failed(code, cls), calls;
      case Page(page) =>
        pages := pages + [page];
        request := page.next;
        if !page.hasMore {
          return Done(pages, request), calls;
        }
    }
  }

  // ---- The shape of what an attempt returns ----------------------------------------------

  /** The calls `first`, `first + 1`, ... answered exactly `pages`, each asked at the cursor
      the page before it returned. */
  ghost predicate Answered(gateway: Gateway, first: nat, attempt: Cursor, pages: seq<SyncPage>) {
    pages == [] ||
    (var init := pages[..|pages| - 1];
     Answered(gateway, first, attempt, init) &&
     Ask(gateway, first + |init|, EndOf(attempt, init)) == Page(pages[|pages| - 1]))
  }

  ghost predicate AllHaveMore(pages: seq<SyncPage>) {
    forall i :: 0 <= i < |pages| ==> pages[i].hasMore
  }

  /** The pages kept were collected from call `first` on: either from the very first call, or
      from the call right after a mutation sent the loop back to the attempt's cursor. */
  ghost predicate FreshSince(gateway: Gateway, first: nat) {
    first > 0 ==> Mutated(gateway, first - 1)
  }

  ghost predicate Mutated(gateway: Gateway, call: nat) {
    exists cursor :: Ask(gateway, call, cursor) == Mutation
  }

  /** The failure is what the provider said to call number `call`, or that it did not answer. */
  ghost predicate Reported(gateway: Gateway, call: nat, code: string, cls: RetryClass) {
    exists cursor ::
      match Ask(gateway, call, cursor)
      case Refused(said, how) => code == said && cls == how
      case NoAnswer => code == "PROVIDER_TIMEOUT" && cls == Transient
      case _ => false
  }

  ghost predicate LoopOk(gateway: Gateway, loop: Loop) {
    && |loop.pages| <= loop.guard <= 200
    && loop.request == EndOf(loop.attempt, loop.pages)
    && Answered(gateway, loop.guard - |loop.pages|, loop.attempt, loop.pages)
    && FreshSince(gateway, loop.guard - |loop.pages|)
    && AllHaveMore(loop.pages)
  }

  ghost predicate DoneOk(gateway: Gateway, attempt: Cursor, pages: seq<SyncPage>, ending: Cursor, calls: nat) {
    && 0 < |pages| <= calls
    && Answered(gateway, calls - |pages|, attempt, pages)
    && FreshSince(gateway, calls - |pages|)
    && ending == EndOf(attempt, pages)
    && AllHaveMore(pages[..|pages| - 1]) && !pages[|pages| - 1].hasMore
  }

  lemma TurnKeepsLoop(gateway: Gateway, loop: Loop, page: SyncPage)
    requires LoopOk(gateway, loop) && loop.guard < MAX_PAGES_PER_ATTEMPT
    requires Ask(gateway, loop.guard, loop.request) == Page(page)
    ensures var pages := loop.pages + [page];
            if page.hasMore then LoopOk(gateway, Loop(loop.attempt, page.next, pages, loop.guard + 1))
            else DoneOk(gateway, loop.attempt, pages, page.next, loop.guard + 1)
  {
    assert (loop.pages + [page])[..|loop.pages|] == loop.pages;
  }

  ghost predicate ResultOk(gateway: Gateway, attempt: Cursor, result: Collected, calls: nat) {
    && calls <= 200
    && match result
       case Done(pages, ending) => DoneOk(gateway, attempt, pages, ending, calls)
       case Failed(code, cls) =>
         || (calls == 200 && code == "TRANSACTIONS_SYNC_LIMIT" && cls == Transient)
         || (calls > 0 && Reported(gateway, calls - 1, code, cls))
  }

  lemma MutationKeepsLoop(gateway: Gateway, loop: Loop)
    requires LoopOk(gateway, loop) && loop.guard < MAX_PAGES_PER_ATTEMPT
    requires Ask(gateway, loop.guard, loop.request) == Mutation
    ensures LoopOk(gateway, Loop(loop.attempt, loop.attempt, [], loop.guard + 1))
  {
  }

  lemma FailureIsReported(gateway: Gateway, loop: Loop)
    requires loop.guard < MAX_PAGES_PER_ATTEMPT
    requires var reply := Ask(gateway, loop.guard, loop.request); reply.NoAnswer? || reply.Refused?
    ensures ResultOk(gateway, loop.attempt, Collect(gateway, loop).0, Collect(gateway, loop).1)
  {
  }

  lemma PageGoesOn(gateway: Gateway, loop: Loop, page: SyncPage)
    requires loop.guard < MAX_PAGES_PER_ATTEMPT && Ask(gateway, loop.guard, loop.request) == Page(page)
    requires var pages := loop.pages + [page];
             if page.hasMore then
               var (result, calls) := Collect(gateway, Loop(loop.attempt, page.next, pages, loop.guard + 1));
               ResultOk(gateway, loop.attempt, result, calls)
             else DoneOk(gateway, loop.attempt, pages, page.next, loop.guard + 1)
    ensures ResultOk(gateway, loop.attempt, Collect(gateway, loop).0, Collect(gateway, loop).1)
  {
  }

  /** A finished attempt returns one unbroken run of pages from the attempt's cursor, none of
      them older than the last mutation, all but the last with more to come, in at most 200
      calls. A failed one either used up its 200 calls or reports what its last call said. */
  lemma {:induction false} CollectShape(gateway: Gateway, loop: Loop)
    requires LoopOk(gateway, loop)
    ensures ResultOk(gateway, loop.attempt, Collect(gateway, loop).0, Collect(gateway, loop).1)
    decreases MAX_PAGES_PER_ATTEMPT - loop.guard
  {
    if loop.guard < MAX_PAGES_PER_ATTEMPT {
      var reply := Ask(gateway, loop.guard, loop.request);
      match reply
      case Page(page) =>
        TurnKeepsLoop(gateway, loop, page);
        if page.hasMore {
          CollectShape(gateway, Loop(loop.attempt, page.next, loop.pages + [page], loop.guard + 1));
        }
        PageGoesOn(gateway, loop, page);
      case Mutation =>
        MutationKeepsLoop(gateway, loop);
        CollectShape(gateway, Loop(loop.attempt, loop.attempt, [], loop.guard + 1));
      case _ =>
        FailureIsReported(gateway, loop);
    }
  }

  /** When every page the gateway sends keeps the provider's contract, the pages of a finished
      attempt take the snapshot at its cursor to the snapshot at the cursor it returns. */
  lemma {:induction false} CollectedIsChain(pv: Provider, c: ConnId, gateway: Gateway, loop: Loop)
    requires forall n: nat, cursor, page ::
               Ask(gateway, n, cursor) == Page(page) ==> PageOk(pv, c, cursor, page)
    requires Chain(pv, c, loop.attempt, loop.pages) && loop.request == EndOf(loop.attempt, loop.pages)
    ensures var result := Collect(gateway, loop).0;
            result.Done? ==> Chain(pv, c, loop.attempt, result.pages) && result.ending == EndOf(loop.attempt, result.pages)
    decreases MAX_PAGES_PER_ATTEMPT - loop.guard
  {
    if loop.guard < MAX_PAGES_PER_ATTEMPT {
      var reply := Ask(gateway, loop.guard, loop.request);
      if reply.Page? {
        ChainExtend(pv, c, loop.attempt, loop.pages, reply.page);
      }
      var step := Turn(loop, reply);
      if step.More? {
        CollectedIsChain(pv, c, gateway, step.loop);
      }
    }
  }
}
