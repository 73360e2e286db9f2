/** The deterministic demo bank (backend/app/services/demo_gateway.py): a cursor names an
    offset into a fixed list of rows. It shows that the provider contract can be met. */
module DemoGateway {
  import opened Wrappers
  import opened Reconcile
  import opened Provider
  import opened Reach
  import opened PageLoop

  const PAGE_SIZE: nat := 100

  // ---- Cursors "demo:<slug>:<offset>" ---------------------------------------------------

  function Digit(d: nat): char
    requires d < 10
  {
    '0' + d as char
  }

  function Decimal(n: nat): string {
    if n < 10 then [Digit(n)] else Decimal(n / 10) + [Digit(n % 10)]
  }

  function ParseDecimal(s: string): Option<nat> {
    if s == [] then None
    else
      var last := s[|s| - 1];
      if !('0' <= last <= '9') then None
      else if |s| == 1 then Some((last - '0') as nat)
      else
        match ParseDecimal(s[..|s| - 1])
        case None => None
        case Some(n) => Some(10 * n + (last - '0') as nat)
  }

  /** The text after the last colon. */
  function AfterLastColon(s: string): string {
    if s == [] then []
    else if s[|s| - 1] == ':' then []
    else AfterLastColon(s[..|s| - 1]) + [s[|s| - 1]]
  }

  function CursorFor(slug: string, offset: nat): Cursor {
    "demo:" + slug + ":" + Decimal(offset)
  }

  /** None stands for the error raised on text that is not a number. */
  function OffsetOf(cursor: Cursor): Option<nat> {
    if cursor == "" then Some(0) else ParseDecimal(AfterLastColon(cursor))
  }

  lemma {:induction false} DecimalRoundTrip(n: nat)
    ensures ParseDecimal(Decimal(n)) == Some(n)
    ensures Decimal(n) != [] && ':' !in Decimal(n)
  {
    if n >= 10 {
      DecimalRoundTrip(n / 10);
      assert Decimal(n)[..|Decimal(n)| - 1] == Decimal(n / 10);
    }
  }

  lemma {:induction false} AfterColon(head: string, tail: string)
    requires ':' !in tail
    ensures AfterLastColon(head + ":" + tail) == tail
  {
    var s := head + ":" + tail;
    if tail == [] {
      assert s[|s| - 1] == ':';
    } else {
      assert s[..|s| - 1] == head + ":" + tail[..|tail| - 1];
      AfterColon(head, tail[..|tail| - 1]);
    }
  }

  lemma CursorRoundTrip(slug: string, offset: nat)
    ensures OffsetOf(CursorFor(slug, offset)) == Some(offset)
  {
    DecimalRoundTrip(offset);
    AfterColon("demo:" + slug, Decimal(offset));
    assert CursorFor(slug, offset) == "demo:" + slug + ":" + Decimal(offset);
  }

  // ---- Pages ------------------------------------------------------------------------------

  function Min(a: nat, b: nat): nat {
    if a <= b then a else b
  }

  function Window(rows: seq<PlaidRow>, offset: nat): seq<PlaidRow> {
    rows[Min(offset, |rows|)..Min(offset + PAGE_SIZE, |rows|)]
  }

  function PageAt(rows: seq<PlaidRow>, slug: string, offset: nat): SyncPage {
    var next := offset + |Window(rows, offset)|;
    SyncPage(Window(rows, offset), [], [], CursorFor(slug, next), next < |rows|)
  }

  function TransactionsSync(rows: seq<PlaidRow>, slug: string, cursor: Cursor): Reply {
    match OffsetOf(cursor)
    case None => Refused("WORKER_ERROR", Transient)
    case Some(offset) => Page(PageAt(rows, slug, offset))
  }

  function DemoCalls(rows: seq<PlaidRow>, slug: string): Gateway {
    (n: nat, cursor: Cursor) => TransactionsSync(rows, slug, cursor)
  }

  // ---- The page loop against the demo bank -------------------------------------------------

  function Added(pages: seq<SyncPage>): seq<PlaidRow> {
    if pages == [] then [] else Added(pages[..|pages| - 1]) + pages[|pages| - 1].added
  }

  /** Calls needed from `offset`: one, and one more while rows are left. */
  function CallsFrom(total: nat, offset: nat): nat
    decreases total - offset
  {
    if offset + PAGE_SIZE >= total then 1 else 1 + CallsFrom(total, offset + PAGE_SIZE)
  }

  lemma {:induction false} CallsCeil(total: nat, offset: nat)
    requires offset < total
    ensures CallsFrom(total, offset) == (total - offset + PAGE_SIZE - 1) / PAGE_SIZE
    decreases total - offset
  {
    if offset + PAGE_SIZE < total {
      CallsCeil(total, offset + PAGE_SIZE);
    }
  }

  lemma {:induction false} DemoLoop(rows: seq<PlaidRow>, slug: string, loop: Loop, offset: nat)
    requires OffsetOf(loop.request) == Some(offset) && offset <= |rows| && loop.guard <= MAX_PAGES_PER_ATTEMPT
    ensures var result := Collect(DemoCalls(rows, slug), loop).0;
            if loop.guard + CallsFrom(|rows|, offset) <= MAX_PAGES_PER_ATTEMPT then
              && result.Done? && result.ending == CursorFor(slug, |rows|)
              && Added(result.pages) == Added(loop.pages) + rows[offset..]
              && |result.pages| == |loop.pages| + CallsFrom(|rows|, offset)
            else
              result == LIMIT_REACHED
    decreases MAX_PAGES_PER_ATTEMPT - loop.guard
  {
    if loop.guard < MAX_PAGES_PER_ATTEMPT {
      var page := PageAt(rows, slug, offset);
      var next := offset + |page.added|;
      PageCutsOff(rows, slug, offset);
      CursorRoundTrip(slug, next);
      AddedLast(loop.pages, page);
      assert Ask(DemoCalls(rows, slug), loop.guard, loop.request) == Page(page);
      if page.hasMore {
        DemoLoop(rows, slug, Loop(loop.attempt, page.next, loop.pages + [page], loop.guard + 1), next);
        assert Added(loop.pages) + page.added + rows[next..] == Added(loop.pages) + rows[offset..];
      }
    }
  }

  /** A page is the head of the rows after its offset: a full window, or all that is left. */
  lemma PageCutsOff(rows: seq<PlaidRow>, slug: string, offset: nat)
    requires offset <= |rows|
    ensures var page := PageAt(rows, slug, offset);
            var next := offset + |page.added|;
            && next <= |rows| && page.next == CursorFor(slug, next)
            && page.added + rows[next..] == rows[offset..]
            && (page.hasMore <==> next < |rows|) && (page.hasMore ==> next == offset + PAGE_SIZE)
            && (!page.hasMore ==> page.added == rows[offset..] && offset + PAGE_SIZE >= |rows|)
  {
  }

  lemma AddedLast(pages: seq<SyncPage>, page: SyncPage)
    ensures Added(pages + [page]) == Added(pages) + page.added
  {
  }

  /** From any cursor the demo bank issued, an attempt returns exactly the rows after it when
      they fit in 200 pages, and fails with the page limit otherwise. */
  lemma DemoReturnsTheRest(rows: seq<PlaidRow>, slug: string, cursor: Cursor, offset: nat)
    requires OffsetOf(cursor) == Some(offset) && offset <= |rows|
    ensures var result := Collect(DemoCalls(rows, slug), Start(cursor)).0;
            if |rows| - offset <= 20000 then
              result.Done? && Added(result.pages) == rows[offset..] && result.ending == CursorFor(slug, |rows|)
            else
              result == LIMIT_REACHED
  {
    DemoLoop(rows, slug, Start(cursor), offset);
    if offset < |rows| {
      CallsCeil(|rows|, offset);
    }
  }

  /** A sync that follows a finished one brings one empty page and stays at the same cursor. */
  lemma RepeatBringsNothing(rows: seq<PlaidRow>, slug: string)
    ensures var result := Collect(DemoCalls(rows, slug), Start(CursorFor(slug, |rows|))).0;
            result.Done? && result.ending == CursorFor(slug, |rows|)
            && |result.pages| == 1 && result.pages[0].added == [] && result.pages[0].removed == []
            && result.pages[0].modified == []
  {
    CursorRoundTrip(slug, |rows|);
    var cursor := CursorFor(slug, |rows|);
    var page := PageAt(rows, slug, |rows|);
    assert page.added == [] && !page.hasMore;
    assert Ask(DemoCalls(rows, slug), 0, cursor) == Page(page);
    assert [] + [page] == [page];
  }

  // ---- The demo bank keeps the provider contract ----------------------------------------------

  function Told(rows: seq<PlaidRow>, cursor: Cursor): Rows {
    match OffsetOf(cursor)
    case None => map[]
    case Some(offset) => Put(map[], rows[..Min(offset, |rows|)])
  }

  /** The demo banks as one provider: each connection has the rows of its bank. */
  function DemoProvider(rowsOf: ConnId -> seq<PlaidRow>, accountOf: TxnId -> AccountId, offers: (ConnId, AccountId) -> bool): Provider {
    Provider((c: ConnId, cursor: Cursor) => Told(rowsOf(c), cursor), accountOf, offers)
  }

  /** The demo banks are a provider as the protocol needs one, if and only if no account belongs to
      two of their logins. */
  lemma DemoIsSound(rowsOf: ConnId -> seq<PlaidRow>, accountOf: TxnId -> AccountId, offers: (ConnId, AccountId) -> bool)
    ensures Sound(DemoProvider(rowsOf, accountOf, offers)) <==>
            forall c: ConnId, d: ConnId, account :: offers(c, account) && offers(d, account) ==> c == d
  {
    var pv := DemoProvider(rowsOf, accountOf, offers);
    forall c: ConnId
      ensures pv.snapshot(c, "") == map[]
    {
      assert rowsOf(c)[..0] == [];
    }
    assert forall c: ConnId, account :: pv.offers(c, account) == offers(c, account);
  }

  lemma {:induction false} PutAppend(rows: Rows, a: seq<PlaidRow>, b: seq<PlaidRow>)
    ensures Put(Put(rows, a), b) == Put(rows, a + b)
  {
    if b == [] {
      assert a + b == a;
    } else {
      PutAppend(rows, a, b[..|b| - 1]);
      assert (a + b)[..|a + b| - 1] == a + b[..|b| - 1];
    }
  }

  lemma WindowOk(pv: Provider, c: ConnId, rows: seq<PlaidRow>, offset: nat)
    requires RowsOk(pv, c, rows)
    ensures RowsOk(pv, c, Window(rows, offset))
  {
  }

  lemma ToldNext(rows: seq<PlaidRow>, slug: string, offset: nat)
    ensures Put(Put(map[], rows[..Min(offset, |rows|)]), Window(rows, offset)) == Told(rows, PageAt(rows, slug, offset).next)
  {
    var from, to := Min(offset, |rows|), Min(offset + PAGE_SIZE, |rows|);
    CursorRoundTrip(slug, offset + |Window(rows, offset)|);
    PutAppend(map[], rows[..from], rows[from..to]);
    assert rows[..from] + rows[from..to] == rows[..to];
    assert Min(offset + |Window(rows, offset)|, |rows|) == to;
  }

  /** Every page the demo bank sends is a patch from snapshot to snapshot. */
  lemma DemoKeepsContract(rowsOf: ConnId -> seq<PlaidRow>, slug: string, accountOf: TxnId -> AccountId,
                          offers: (ConnId, AccountId) -> bool, c: ConnId, cursor: Cursor, page: SyncPage)
    requires RowsOk(DemoProvider(rowsOf, accountOf, offers), c, rowsOf(c))
    requires TransactionsSync(rowsOf(c), slug, cursor) == Page(page)
    ensures PageOk(DemoProvider(rowsOf, accountOf, offers), c, cursor, page)
  {
    var pv, rows := DemoProvider(rowsOf, accountOf, offers), rowsOf(c);
    var offset := OffsetOf(cursor).value;
    ToldNext(rows, slug, offset);
    WindowOk(pv, c, rows, offset);
    assert Drop(Put(Told(rows, cursor), page.added), []) == Put(Told(rows, cursor), page.added);
  }
}
