/** Keyset pagination: pages of a match list, each taken after the key of the last row of the
    page before it (backend/app/services/search_service.py, frontend DashboardPage.tsx). */
module Paging {
  import opened Wrappers
  import opened Ordering

  /** A matching row by its id and its effective date, the posted or else the authorized one. */
  datatype Row = Row(id: string, date: Option<int>)

  const MAX_LIMIT: int := 50

  /** Latest date first, rows without a date last, larger ids first among equals. */
  predicate Before(a: Row, b: Row) {
    match (a.date, b.date)
    case (None, Some(_)) => false
    case (Some(_), None) => true
    case (None, None) => Less(b.id, a.id)
    case (Some(d), Some(e)) => d > e || (d == e && Less(b.id, a.id))
  }

  lemma BeforeStrict()
    ensures StrictOrder(Before)
  {
    forall a: Row
      ensures !Before(a, a)
    {
      LessIrreflexive(a.id);
    }
    forall a: Row, b: Row, c: Row | Before(a, b) && Before(b, c)
      ensures Before(a, c)
    {
      if Less(c.id, b.id) && Less(b.id, a.id) {
        LessTransitive(c.id, b.id, a.id);
      }
    }
  }

  lemma BeforeTotal(a: Row, b: Row)
    ensures Before(a, b) || a == b || Before(b, a)
  {
    LessTotal(a.id, b.id);
  }

  // ---- The queries ---------------------------------------------------------------------------

  /** What a cursor carries: the key of the last row shown. */
  type Key = Row

  /** The condition of the all-transactions query, with its three ways to come later. */
  predicate AfterCursor(cursor: Option<Key>, row: Row) {
    match cursor
    case None => true
    case Some(last) =>
      if last.date.None? then row.date.None? && Less(row.id, last.id)
      else
        || row.date.None?
        || (row.date.Some? && row.date.value < last.date.value)
        || (row.date == last.date && Less(row.id, last.id))
  }

  /** The condition of the per-card query: without the rows that have no date. */
  predicate AfterCardCursor(cursor: Option<Key>, row: Row) {
    match cursor
    case None => true
    case Some(last) =>
      if last.date.None? then row.date.None? && Less(row.id, last.id)
      else row.date.Some? && (row.date.value < last.date.value || (row.date == last.date && Less(row.id, last.id)))
  }

  /** ORDER BY. */
  function OrderBy(rows: seq<Row>): seq<Row> {
    SortBy(Before, rows)
  }

  function Where(rows: seq<Row>, keep: Row -> bool): seq<Row> {
    if rows == [] then [] else (if keep(rows[0]) then [rows[0]] else []) + Where(rows[1..], keep)
  }

  function Take(s: seq<Row>, n: nat): seq<Row> {
    if |s| <= n then s else s[..n]
  }

  function Clamp(limit: int): (r: nat)
    ensures 1 <= r <= MAX_LIMIT
  {
    if limit < 1 then 1 else if limit > MAX_LIMIT then MAX_LIMIT else limit
  }

  datatype Page = Page(rows: seq<Row>, next: Option<Key>)

  /** One more row than the limit is fetched, to see whether there is a next page. */
  function PageOf(fetched: seq<Row>, limit: nat): Page
    requires limit >= 1
  {
    var visible := Take(fetched, limit);
    Page(visible, if |fetched| > limit then Some(visible[|visible| - 1]) else None)
  }

  /** Everything after the cursor, in order. */
  function Rest(rows: seq<Row>, cursor: Option<Key>): seq<Row> {
    OrderBy(Where(rows, (row: Row) => AfterCursor(cursor, row)))
  }

  function CardRest(rows: seq<Row>, cursor: Option<Key>): seq<Row> {
    OrderBy(Where(rows, (row: Row) => AfterCardCursor(cursor, row)))
  }

  function AllTransactions(rows: seq<Row>, limit: int, cursor: Option<Key>): Page {
    PageOf(Take(Rest(rows, cursor), Clamp(limit) + 1), Clamp(limit))
  }

  function CardTransactions(rows: seq<Row>, limit: int, cursor: Option<Key>): Page {
    PageOf(Take(CardRest(rows, cursor), Clamp(limit) + 1), Clamp(limit))
  }

  /** Following the cursors: request `i` meets the table `tables[i]`, up to the page without a next one. */
  function Follow(tables: seq<seq<Row>>, limit: int, cursor: Option<Key>): seq<Page> {
    if tables == [] then []
    else
      var page := AllTransactions(tables[0], limit, cursor);
      [page] + (if page.next.None? then [] else Follow(tables[1..], limit, page.next))
  }

  function FollowCard(tables: seq<seq<Row>>, limit: int, cursor: Option<Key>): seq<Page> {
    if tables == [] then []
    else
      var page := CardTransactions(tables[0], limit, cursor);
      [page] + (if page.next.None? then [] else FollowCard(tables[1..], limit, page.next))
  }

  function Shown(pages: seq<Page>): seq<Row> {
    if pages == [] then [] else pages[0].rows + Shown(pages[1..])
  }

  /** The last page said there is nothing more. */
  predicate Complete(pages: seq<Page>) {
    pages != [] && pages[|pages| - 1].next.None?
  }

  // ---- Sorting and filtering ---------------------------------------------------------------------

  ghost predicate Distinct(rows: seq<Row>) {
    forall i, j :: 0 <= i < j < |rows| ==> rows[i] != rows[j]
  }

  lemma OrderBySorted(rows: seq<Row>)
    requires Distinct(rows)
    ensures Sorted(Before, OrderBy(rows)) && |OrderBy(rows)| == |rows|
    ensures forall x :: x in OrderBy(rows) <==> x in rows
  {
    BeforeStrict();
    forall i, j | 0 <= i < j < |rows|
      ensures Before(rows[i], rows[j]) || Before(rows[j], rows[i])
    {
      BeforeTotal(rows[i], rows[j]);
    }
    SortBySorted(Before, rows);
  }

  lemma {:induction false} WhereKeeps(rows: seq<Row>, keep: Row -> bool)
    ensures forall x :: x in Where(rows, keep) <==> x in rows && keep(x)
    ensures Distinct(rows) ==> Distinct(Where(rows, keep))
  {
    if rows != [] {
      WhereKeeps(rows[1..], keep);
      assert rows == [rows[0]] + rows[1..];
    }
  }

  /** The condition of the query is exactly "after the last row shown". */
  lemma AfterIsBefore(last: Row, row: Row)
    ensures AfterCursor(Some(last), row) <==> Before(last, row)
  {
  }

  lemma RestShape(rows: seq<Row>, cursor: Option<Key>)
    requires Distinct(rows)
    ensures Sorted(Before, Rest(rows, cursor))
    ensures forall x :: x in Rest(rows, cursor) <==> x in rows && AfterCursor(cursor, x)
  {
    WhereKeeps(rows, (row: Row) => AfterCursor(cursor, row));
    OrderBySorted(Where(rows, (row: Row) => AfterCursor(cursor, row)));
  }

  /** Moving the cursor to the last row of a page cuts exactly that page off the rest. */
  lemma RestAfterPage(rows: seq<Row>, cursor: Option<Key>, shown: nat)
    requires Distinct(rows) && 1 <= shown <= |Rest(rows, cursor)|
    ensures Rest(rows, Some(Rest(rows, cursor)[shown - 1])) == Rest(rows, cursor)[shown..]
  {
    var rest := Rest(rows, cursor);
    var last := rest[shown - 1];
    RestShape(rows, cursor);
    RestShape(rows, Some(last));
    BeforeStrict();
    assert forall k :: 0 <= k < shown - 1 ==> Before(rest[k], last);
    forall x
      ensures x in Rest(rows, Some(last)) <==> x in rest[shown..]
    {
      AfterIsBefore(last, x);
      if x in Rest(rows, Some(last)) {
        LaterIsAfter(cursor, last, x);
        var i :| 0 <= i < |rest| && rest[i] == x;
        assert rest[shown..][i - shown] == x;
      }
    }
    SortedUnique(Before, Rest(rows, Some(last)), rest[shown..]);
  }

  lemma LaterIsAfter(cursor: Option<Key>, last: Row, x: Row)
    requires AfterCursor(cursor, last) && Before(last, x)
    ensures AfterCursor(cursor, x)
  {
    if cursor.Some? {
      AfterIsBefore(cursor.value, last);
      AfterIsBefore(cursor.value, x);
      BeforeStrict();
    }
  }

  // ---- A table that does not change -----------------------------------------------------------------

  /** Pages for `n` rows: at least one. */
  function PageCount(n: nat, limit: int): nat {
    if n <= Clamp(limit) then 1 else 1 + PageCount(n - Clamp(limit), limit)
  }

  /** As many pages as it takes and no more, that is ceil(n / limit), and at least one. */
  lemma {:induction false} PageCountIsCeil(n: nat, limit: int)
    ensures var k, l := PageCount(n, limit), Clamp(limit);
            k >= 1 && n <= k * l && (k > 1 ==> (k - 1) * l < n)
  {
    if n > Clamp(limit) {
      PageCountIsCeil(n - Clamp(limit), limit);
    }
  }

  /** A page is the head of what is left, and it has a next one just when something is left over. */
  lemma PageShape(rows: seq<Row>, limit: int, cursor: Option<Key>)
    ensures var rest, l := Rest(rows, cursor), Clamp(limit);
            AllTransactions(rows, limit, cursor) ==
            if |rest| > l then Page(rest[..l], Some(rest[l - 1])) else Page(rest, None)
  {
  }

  lemma ShownCons(page: Page, pages: seq<Page>)
    ensures Shown([page] + pages) == page.rows + Shown(pages)
  {
  }

  function Unchanged(rows: seq<Row>, n: nat): seq<seq<Row>> {
    seq(n, _ => rows)
  }

  /** One page more in front of the others. */
  ghost predicate Continues(pages: seq<Page>, page: Page, more: seq<Page>) {
    pages == [page] + more && Shown(pages) == page.rows + Shown(more) && |pages| == 1 + |more|
    && (Complete(more) ==> Complete(pages))
  }

  lemma FollowStep(rows: seq<Row>, limit: int, cursor: Option<Key>, n: nat)
    requires n >= 1
    ensures var rest, l, pages := Rest(rows, cursor), Clamp(limit), Follow(Unchanged(rows, n), limit, cursor);
            if |rest| > l then
              var last := Some(rest[l - 1]);
              Continues(pages, Page(rest[..l], last), Follow(Unchanged(rows, n - 1), limit, last))
            else pages == [Page(rest, None)] && Shown(pages) == rest
  {
    var rest, l := Rest(rows, cursor), Clamp(limit);
    PageShape(rows, limit, cursor);
    assert Unchanged(rows, n)[1..] == Unchanged(rows, n - 1);
    if |rest| > l {
      ShownCons(Page(rest[..l], Some(rest[l - 1])), Follow(Unchanged(rows, n - 1), limit, Some(rest[l - 1])));
    } else {
      ShownCons(Page(rest, None), []);
    }
  }

  lemma {:induction false} FollowFixed(rows: seq<Row>, limit: int, cursor: Option<Key>, n: nat)
    requires Distinct(rows) && n >= PageCount(|Rest(rows, cursor)|, limit)
    ensures var pages := Follow(Unchanged(rows, n), limit, cursor);
            && Complete(pages) && |pages| == PageCount(|Rest(rows, cursor)|, limit)
            && Shown(pages) == Rest(rows, cursor)
    decreases n
  {
    var rest, l := Rest(rows, cursor), Clamp(limit);
    if |rest| > l {
      RestAfterPage(rows, cursor, l);
      FollowFixed(rows, limit, Some(rest[l - 1]), n - 1);
      FollowMore(rows, limit, cursor, n, l);
    } else {
      FollowStep(rows, limit, cursor, n);
    }
  }

  /** One page, and the pages that show what is left after it. */
  lemma FollowMore(rows: seq<Row>, limit: int, cursor: Option<Key>, n: nat, l: nat)
    requires n >= 1 && l == Clamp(limit) < |Rest(rows, cursor)|
    requires var rest := Rest(rows, cursor);
             var more := Follow(Unchanged(rows, n - 1), limit, Some(rest[l - 1]));
             Complete(more) && Shown(more) == rest[l..]
    ensures var rest := Rest(rows, cursor);
            var pages := Follow(Unchanged(rows, n), limit, cursor);
            && Complete(pages) && Shown(pages) == rest
            && |pages| == 1 + |Follow(Unchanged(rows, n - 1), limit, Some(rest[l - 1]))|
  {
    var rest := Rest(rows, cursor);
    var last := Some(rest[l - 1]);
    FollowStep(rows, limit, cursor, n);
    FirstAndLater(Follow(Unchanged(rows, n), limit, cursor), Page(rest[..l], last),
                  Follow(Unchanged(rows, n - 1), limit, last), rest, l);
  }

  lemma FirstAndLater(pages: seq<Page>, page: Page, more: seq<Page>, all: seq<Row>, l: nat)
    requires Continues(pages, page, more) && Complete(more) && l <= |all|
    requires page.rows == all[..l] && Shown(more) == all[l..]
    ensures Complete(pages) && Shown(pages) == all && |pages| == 1 + |more|
  {
  }

  /** On a table that does not change, following the cursors shows exactly the sorted list of
      matches, each once and rows without a date last, in ceil(n / limit) pages and at least one. */
  lemma PagesShowEverythingOnce(rows: seq<Row>, limit: int)
    requires Distinct(rows)
    ensures var pages := Follow(Unchanged(rows, PageCount(|rows|, limit)), limit, None);
            && Complete(pages) && |pages| == PageCount(|rows|, limit)
            && Shown(pages) == OrderBy(rows)
            && Sorted(Before, Shown(pages)) && NewestFirst(Shown(pages)) && |Shown(pages)| == |rows|
            && forall x :: x in Shown(pages) <==> x in rows
  {
    WhereAll(rows, (row: Row) => AfterCursor(None, row));
    OrderBySorted(rows);
    FollowFixed(rows, limit, None, PageCount(|rows|, limit));
  }

  lemma {:induction false} WhereAll(rows: seq<Row>, keep: Row -> bool)
    requires forall x :: x in rows ==> keep(x)
    ensures Where(rows, keep) == rows
  {
    if rows != [] {
      WhereAll(rows[1..], keep);
    }
  }

  // ---- A table that changes between the requests ----------------------------------------------------

  ghost predicate AllDistinct(tables: seq<seq<Row>>) {
    forall i :: 0 <= i < |tables| ==> Distinct(tables[i])
  }

  /** The row is in the table at every one of these requests. */
  ghost predicate Stays(row: Row, tables: seq<seq<Row>>) {
    forall i :: 0 <= i < |tables| ==> row in tables[i]
  }

  lemma {:induction false} FollowChanging(tables: seq<seq<Row>>, limit: int, cursor: Option<Key>)
    requires AllDistinct(tables)
    ensures var shown := Shown(Follow(tables, limit, cursor));
            && Sorted(Before, shown)
            && (forall x :: x in shown ==> AfterCursor(cursor, x))
  {
    if tables != [] {
      var rest, l := Rest(tables[0], cursor), Clamp(limit);
      var page := AllTransactions(tables[0], limit, cursor);
      PageShape(tables[0], limit, cursor);
      RestShape(tables[0], cursor);
      if |rest| <= l {
        ShownCons(page, []);
      } else {
        ShownCons(page, Follow(tables[1..], limit, page.next));
        FollowChanging(tables[1..], limit, page.next);
        var more := Shown(Follow(tables[1..], limit, page.next));
        var last := rest[l - 1];
        forall x | x in more
          ensures Before(last, x) && AfterCursor(cursor, x)
        {
          AfterIsBefore(last, x);
          LaterIsAfter(cursor, last, x);
        }
        SortedJoin(rest[..l], more);
      }
    }
  }

  lemma SortedJoin(a: seq<Row>, b: seq<Row>)
    requires Sorted(Before, a) && Sorted(Before, b) && a != []
    requires forall x :: x in b ==> Before(a[|a| - 1], x)
    ensures Sorted(Before, a + b)
  {
    BeforeStrict();
    forall i, j | 0 <= i < j < |a + b|
      ensures Before((a + b)[i], (a + b)[j])
    {
      if i < |a| <= j {
        assert b[j - |a|] in b;
        if i < |a| - 1 {
          assert Before(a[i], a[|a| - 1]);
        }
      }
    }
  }

  lemma InHeadOrAfter(rest: seq<Row>, l: nat, row: Row)
    requires Sorted(Before, rest) && row in rest && 1 <= l < |rest|
    ensures row in rest[..l] || Before(rest[l - 1], row)
  {
  }

  lemma {:induction false} FollowFinds(tables: seq<seq<Row>>, limit: int, cursor: Option<Key>, row: Row)
    requires AllDistinct(tables) && Complete(Follow(tables, limit, cursor))
    requires Stays(row, tables) && AfterCursor(cursor, row)
    ensures row in Shown(Follow(tables, limit, cursor))
  {
    var rest, l := Rest(tables[0], cursor), Clamp(limit);
    var page := AllTransactions(tables[0], limit, cursor);
    PageShape(tables[0], limit, cursor);
    RestShape(tables[0], cursor);
    if |rest| <= l {
      ShownCons(page, []);
    } else {
      var more := Follow(tables[1..], limit, page.next);
      ShownCons(page, more);
      InHeadOrAfter(rest, l, row);
      if row !in rest[..l] {
        AfterIsBefore(rest[l - 1], row);
        FollowFinds(tables[1..], limit, page.next, row);
      }
    }
  }

  /** Newest date first, rows without a date last, and among equals the larger id first. */
  ghost predicate NewestFirst(rows: seq<Row>) {
    forall i, j :: 0 <= i < j < |rows| ==>
      && (rows[i].date == None ==> rows[j].date == None)
      && (rows[i].date.Some? && rows[j].date.Some? ==> rows[i].date.value >= rows[j].date.value)
      && (rows[i].date == rows[j].date ==> Less(rows[j].id, rows[i].id))
  }

  /** Whatever rows are inserted or deleted between the requests, what is shown is in strict
      order, so no row is shown twice; and once the last page is reached, every row that was
      there all along has been shown. */
  lemma PagesOverChangesAreOrdered(tables: seq<seq<Row>>, limit: int)
    requires AllDistinct(tables)
    ensures Sorted(Before, Shown(Follow(tables, limit, None))) && Distinct(Shown(Follow(tables, limit, None)))
    ensures NewestFirst(Shown(Follow(tables, limit, None)))
    ensures Complete(Follow(tables, limit, None)) ==>
              forall row :: Stays(row, tables) ==> row in Shown(Follow(tables, limit, None))
  {
    FollowChanging(tables, limit, None);
    BeforeStrict();
    if Complete(Follow(tables, limit, None)) {
      forall row | Stays(row, tables)
        ensures row in Shown(Follow(tables, limit, None))
      {
        FollowFinds(tables, limit, None, row);
      }
    }
  }

  /** A page holds as many rows as were asked for, but at least one and at most fifty; only the last
      page may hold fewer. */
  predicate SizedFor(limit: int, page: Page, last: bool) {
    && (1 <= limit <= 50 ==> if last then |page.rows| <= limit else |page.rows| == limit)
    && (limit < 1 ==> if last then |page.rows| <= 1 else |page.rows| == 1)
    && (limit > 50 ==> if last then |page.rows| <= 50 else |page.rows| == 50)
  }

  lemma {:induction false} PagesAreFull(tables: seq<seq<Row>>, limit: int, cursor: Option<Key>, k: nat)
    requires k < |Follow(tables, limit, cursor)|
    ensures SizedFor(limit, Follow(tables, limit, cursor)[k], Follow(tables, limit, cursor)[k].next.None?)
    ensures k < |Follow(tables, limit, cursor)| - 1 ==> Follow(tables, limit, cursor)[k].next.Some?
  {
    PageShape(tables[0], limit, cursor);
    if k > 0 {
      PagesAreFull(tables[1..], limit, AllTransactions(tables[0], limit, cursor).next, k - 1);
    }
  }

  /** So no id is shown twice, as long as no row changes its key between the requests. */
  lemma NoIdTwice(tables: seq<seq<Row>>, limit: int)
    requires AllDistinct(tables)
    requires KeysStay(tables)
    ensures var shown := Shown(Follow(tables, limit, None));
            forall i, j :: 0 <= i < j < |shown| ==> shown[i].id != shown[j].id
  {
    PagesOverChangesAreOrdered(tables, limit);
    var shown := Shown(Follow(tables, limit, None));
    forall i, j | 0 <= i < j < |shown|
      ensures shown[i].id != shown[j].id
    {
      ShownIsStored(tables, limit, None, shown[i]);
      ShownIsStored(tables, limit, None, shown[j]);
    }
  }

  /** No row changes its key between the requests. */
  ghost predicate KeysStay(tables: seq<seq<Row>>) {
    forall a, b :: InTables(a, tables) && InTables(b, tables) && a.id == b.id ==> a == b
  }

  ghost predicate InTables(row: Row, tables: seq<seq<Row>>) {
    exists i :: 0 <= i < |tables| && row in tables[i]
  }

  lemma {:induction false} ShownIsStored(tables: seq<seq<Row>>, limit: int, cursor: Option<Key>, row: Row)
    requires AllDistinct(tables) && row in Shown(Follow(tables, limit, cursor))
    ensures InTables(row, tables)
  {
    var rest, l := Rest(tables[0], cursor), Clamp(limit);
    var page := AllTransactions(tables[0], limit, cursor);
    PageShape(tables[0], limit, cursor);
    RestShape(tables[0], cursor);
    if |rest| <= l {
      ShownCons(page, []);
    } else {
      ShownCons(page, Follow(tables[1..], limit, page.next));
      if row !in page.rows {
        ShownIsStored(tables[1..], limit, page.next, row);
        var i :| 0 <= i < |tables[1..]| && row in tables[1..][i];
        assert row in tables[i + 1];
      }
    }
  }

  // ---- The per-card pager ------------------------------------------------------------------------------

  function Dated(rows: seq<Row>): seq<Row> {
    Where(rows, (row: Row) => row.date.Some?)
  }

  lemma SameSelection(a: seq<Row>, b: seq<Row>)
    requires Distinct(a) && Distinct(b) && forall x :: x in a <==> x in b
    ensures OrderBy(a) == OrderBy(b)
  {
    OrderBySorted(a);
    OrderBySorted(b);
    BeforeStrict();
    SortedUnique(Before, OrderBy(a), OrderBy(b));
  }

  /** After a dated row the per-card query selects what the full query would select from the
      dated rows alone; after a row without a date, and on the first page, the two agree. */
  lemma CardRestIs(rows: seq<Row>, cursor: Option<Key>)
    requires Distinct(rows)
    ensures CardRest(rows, cursor) ==
            if cursor.Some? && cursor.value.date.Some? then Rest(Dated(rows), cursor) else Rest(rows, cursor)
  {
    var after, card := (row: Row) => AfterCursor(cursor, row), (row: Row) => AfterCardCursor(cursor, row);
    var from := if cursor.Some? && cursor.value.date.Some? then Dated(rows) else rows;
    WhereKeeps(rows, (row: Row) => row.date.Some?);
    WhereKeeps(rows, card);
    WhereKeeps(from, after);
    SameSelection(Where(rows, card), Where(from, after));
  }

  /** Once past a dated row, the per-card pages are those of the dated rows alone. */
  lemma {:induction false} DatedPages(rows: seq<Row>, limit: int, cursor: Option<Key>, n: nat)
    requires Distinct(rows) && cursor.Some? && cursor.value.date.Some?
    ensures FollowCard(Unchanged(rows, n), limit, cursor) == Follow(Unchanged(Dated(rows), n), limit, cursor)
    decreases n
  {
    if n > 0 {
      CardRestIs(rows, cursor);
      WhereKeeps(rows, (row: Row) => row.date.Some?);
      RestShape(Dated(rows), cursor);
      PageShape(Dated(rows), limit, cursor);
      assert Unchanged(rows, n)[1..] == Unchanged(rows, n - 1);
      assert Unchanged(Dated(rows), n)[1..] == Unchanged(Dated(rows), n - 1);
      var page := AllTransactions(Dated(rows), limit, cursor);
      if page.next.Some? {
        assert page.next.value in Rest(Dated(rows), cursor);
        DatedPages(rows, limit, page.next, n - 1);
      }
    }
  }

  lemma {:induction false} UndatedPages(rows: seq<Row>, limit: int, cursor: Option<Key>, n: nat)
    requires Distinct(rows) && cursor.Some? && cursor.value.date.None?
    ensures FollowCard(Unchanged(rows, n), limit, cursor) == Follow(Unchanged(rows, n), limit, cursor)
    decreases n
  {
    if n > 0 {
      CardRestIs(rows, cursor);
      RestShape(rows, cursor);
      PageShape(rows, limit, cursor);
      assert Unchanged(rows, n)[1..] == Unchanged(rows, n - 1);
      var page := AllTransactions(rows, limit, cursor);
      if page.next.Some? {
        assert page.next.value in Rest(rows, cursor);
        UndatedPages(rows, limit, page.next, n - 1);
      }
    }
  }

  /** When the per-card pager shows every row: no row is without a date, or fewer rows have one
      than the first page takes. */
  predicate CardPagerCovers(rows: seq<Row>, limit: int) {
    |Dated(rows)| == |rows| || |Dated(rows)| < Clamp(limit)
  }

  /** The dated rows come first. */
  lemma DatedFirst(rows: seq<Row>)
    requires Distinct(rows)
    ensures var m := |Dated(rows)|;
            && m <= |OrderBy(rows)| == |rows| && OrderBy(rows)[..m] == OrderBy(Dated(rows))
            && forall i :: m <= i < |rows| ==> OrderBy(rows)[i].date.None?
  {
    var undated := Where(rows, (row: Row) => row.date.None?);
    WhereKeeps(rows, (row: Row) => row.date.Some?);
    WhereKeeps(rows, (row: Row) => row.date.None?);
    OrderBySorted(rows);
    OrderBySorted(Dated(rows));
    OrderBySorted(undated);
    DatedThenUndated(OrderBy(Dated(rows)), OrderBy(undated));
    BeforeStrict();
    SortedUnique(Before, OrderBy(rows), OrderBy(Dated(rows)) + OrderBy(undated));
  }

  lemma DatedThenUndated(a: seq<Row>, b: seq<Row>)
    requires Sorted(Before, a) && Sorted(Before, b)
    requires (forall x :: x in a ==> x.date.Some?) && (forall x :: x in b ==> x.date.None?)
    ensures Sorted(Before, a + b)
  {
  }

  lemma FirstPageIs(rows: seq<Row>)
    requires Distinct(rows)
    ensures Rest(rows, None) == OrderBy(rows) && CardRest(rows, None) == OrderBy(rows)
  {
    WhereAll(rows, (row: Row) => AfterCursor(None, row));
    WhereAll(rows, (row: Row) => AfterCardCursor(None, row));
  }

  lemma {:induction false} PageCountGrows(a: nat, b: nat, limit: int)
    requires a <= b
    ensures PageCount(a, limit) <= PageCount(b, limit)
  {
    if a > Clamp(limit) {
      PageCountGrows(a - Clamp(limit), b - Clamp(limit), limit);
    }
  }

  lemma DatedRest(rows: seq<Row>, shown: nat)
    requires Distinct(rows) && 1 <= shown <= |Dated(rows)|
    ensures var dated := OrderBy(Dated(rows));
            && |dated| == |Dated(rows)| && Distinct(Dated(rows)) && dated[shown - 1].date.Some?
            && Rest(Dated(rows), Some(dated[shown - 1])) == dated[shown..]
  {
    var dated := OrderBy(Dated(rows));
    WhereKeeps(rows, (row: Row) => row.date.Some?);
    FirstPageIs(Dated(rows));
    OrderBySorted(Dated(rows));
    assert dated[shown - 1] in dated;
    RestAfterPage(Dated(rows), None, shown);
  }

  /** The pages after a first one full of dated rows show the other dated rows, and no more. */
  lemma LaterDatedPages(rows: seq<Row>, limit: int, l: nat, n: nat)
    requires Distinct(rows) && l == Clamp(limit) <= |Dated(rows)| == |OrderBy(Dated(rows))|
    requires n >= PageCount(|Dated(rows)| - l, limit)
    ensures var dated := OrderBy(Dated(rows));
            var pages := FollowCard(Unchanged(rows, n), limit, Some(dated[l - 1]));
            Complete(pages) && Shown(pages) == dated[l..]
  {
    DatedRest(rows, l);
    var last := Some(OrderBy(Dated(rows))[l - 1]);
    DatedPages(rows, limit, last, n);
    FollowFixed(Dated(rows), limit, last, n);
  }

  lemma OrderBySize(rows: seq<Row>)
    requires Distinct(rows)
    ensures |OrderBy(rows)| == |rows|
  {
    OrderBySorted(rows);
  }

  lemma UndatedAt(rows: seq<Row>, i: nat)
    requires Distinct(rows) && |Dated(rows)| <= i < |rows| == |OrderBy(rows)|
    ensures OrderBy(rows)[i].date.None?
  {
    DatedFirst(rows);
  }

  lemma DatedHead(rows: seq<Row>, l: nat)
    requires Distinct(rows) && 1 <= l <= |Dated(rows)| && l < |rows| == |OrderBy(rows)|
    ensures |OrderBy(Dated(rows))| == |Dated(rows)|
    ensures OrderBy(rows)[..l] == OrderBy(Dated(rows))[..l] && OrderBy(rows)[l - 1] == OrderBy(Dated(rows))[l - 1]
  {
    DatedFirst(rows);
    DatedRest(rows, l);
    assert OrderBy(rows)[..|Dated(rows)|][..l] == OrderBy(Dated(rows))[..l];
    assert OrderBy(rows)[..l][l - 1] == OrderBy(rows)[l - 1];
  }

  /** A first page full of dated rows hides the others for good. */
  lemma DatedCardPages(rows: seq<Row>, limit: int, l: nat, n: nat)
    requires Distinct(rows) && l == Clamp(limit) <= |Dated(rows)| && l < |rows|
    requires n >= 1 + PageCount(|Dated(rows)| - l, limit)
    ensures var pages := FollowCard(Unchanged(rows, n), limit, None);
            Complete(pages) && Shown(pages) == OrderBy(Dated(rows))
  {
    FirstDatedPage(rows, limit, l, n);
    var dated := OrderBy(Dated(rows));
    var last := Some(dated[l - 1]);
    LaterDatedPages(rows, limit, l, n - 1);
    FirstAndLater(FollowCard(Unchanged(rows, n), limit, None), Page(dated[..l], last),
                  FollowCard(Unchanged(rows, n - 1), limit, last), dated, l);
  }

  lemma FirstDatedPage(rows: seq<Row>, limit: int, l: nat, n: nat)
    requires Distinct(rows) && l == Clamp(limit) <= |Dated(rows)| && l < |rows| && n >= 1
    ensures var dated := OrderBy(Dated(rows));
            && |dated| == |Dated(rows)|
            && var last := Some(dated[l - 1]);
               Continues(FollowCard(Unchanged(rows, n), limit, None), Page(dated[..l], last),
                         FollowCard(Unchanged(rows, n - 1), limit, last))
  {
    FirstPageIs(rows);
    OrderBySize(rows);
    DatedHead(rows, l);
    FirstCardPage(rows, limit, n);
  }

  lemma CardPageShape(rows: seq<Row>, limit: int, cursor: Option<Key>)
    ensures var rest, l := CardRest(rows, cursor), Clamp(limit);
            CardTransactions(rows, limit, cursor) ==
            if |rest| > l then Page(rest[..l], Some(rest[l - 1])) else Page(rest, None)
  {
    var rest, l := CardRest(rows, cursor), Clamp(limit);
    if |rest| > l {
      assert rest[..l + 1][..l] == rest[..l];
    }
  }

  lemma FirstCardPage(rows: seq<Row>, limit: int, n: nat)
    requires n >= 1
    ensures var rest, l, pages := CardRest(rows, None), Clamp(limit), FollowCard(Unchanged(rows, n), limit, None);
            if |rest| > l then
              var last := Some(rest[l - 1]);
              Continues(pages, Page(rest[..l], last), FollowCard(Unchanged(rows, n - 1), limit, last))
            else pages == [Page(rest, None)] && Shown(pages) == rest
  {
    var rest, l := CardRest(rows, None), Clamp(limit);
    assert Unchanged(rows, n)[1..] == Unchanged(rows, n - 1);
    CardPageShape(rows, limit, None);
    if |rest| > l {
      ShownCons(Page(rest[..l], Some(rest[l - 1])), FollowCard(Unchanged(rows, n - 1), limit, Some(rest[l - 1])));
    } else {
      ShownCons(Page(rest, None), []);
    }
  }

  /** What the per-card pager shows on a table that does not change, exactly: the sorted list if
      it covers the table, and only the dated rows of it otherwise. */
  lemma CardPagesShow(rows: seq<Row>, limit: int)
    requires Distinct(rows)
    ensures var pages := FollowCard(Unchanged(rows, PageCount(|rows|, limit)), limit, None);
            && Complete(pages)
            && Shown(pages) == if CardPagerCovers(rows, limit) then OrderBy(rows) else OrderBy(Dated(rows))
  {
    var l, n := Clamp(limit), PageCount(|rows|, limit);
    AllDated(rows);
    if l < |rows| && l <= |Dated(rows)| {
      FewerPages(|Dated(rows)|, |rows|, limit, l);
      DatedCardPages(rows, limit, l, n);
    } else {
      UndatedCardPages(rows, limit, l, n);
      PagesShowEverythingOnce(rows, limit);
    }
  }

  lemma FewerPages(dated: nat, all: nat, limit: int, l: nat)
    requires l == Clamp(limit) <= dated <= all && l < all
    ensures PageCount(all, limit) >= 1 + PageCount(dated - l, limit)
  {
    PageCountGrows(dated - l, all - l, limit);
  }

  lemma AllDated(rows: seq<Row>)
    requires Distinct(rows)
    ensures |Dated(rows)| <= |rows|
    ensures |Dated(rows)| == |rows| ==> OrderBy(Dated(rows)) == OrderBy(rows)
  {
    DatedFirst(rows);
    assert |Dated(rows)| == |rows| ==> OrderBy(rows)[..|rows|] == OrderBy(rows);
  }

  lemma UndatedCardPages(rows: seq<Row>, limit: int, l: nat, n: nat)
    requires Distinct(rows) && l == Clamp(limit) && n >= 1
    requires l < |rows| ==> |Dated(rows)| < l
    ensures FollowCard(Unchanged(rows, n), limit, None) == Follow(Unchanged(rows, n), limit, None)
  {
    OrderBySize(rows);
    FirstPages(rows, limit, n);
    if l < |rows| {
      UndatedAt(rows, l - 1);
      UndatedPages(rows, limit, Some(OrderBy(rows)[l - 1]), n - 1);
    }
  }

  /** Both pagers show the same first page. */
  lemma FirstPages(rows: seq<Row>, limit: int, n: nat)
    requires Distinct(rows) && n >= 1
    ensures var all, l := OrderBy(rows), Clamp(limit);
            var pages, cards := Follow(Unchanged(rows, n), limit, None), FollowCard(Unchanged(rows, n), limit, None);
            if |all| > l then
              var last := Some(all[l - 1]);
              && pages == [Page(all[..l], last)] + Follow(Unchanged(rows, n - 1), limit, last)
              && cards == [Page(all[..l], last)] + FollowCard(Unchanged(rows, n - 1), limit, last)
            else pages == cards
  {
    FirstPageIs(rows);
    FirstCardPage(rows, limit, n);
    FollowStep(rows, limit, None, n);
  }

  /** Following the per-card cursors shows every row exactly when the pager covers the table. */
  lemma CardPagerCoversExactly(rows: seq<Row>, limit: int)
    requires Distinct(rows)
    ensures var shown := Shown(FollowCard(Unchanged(rows, PageCount(|rows|, limit)), limit, None));
            (forall x :: x in rows ==> x in shown) <==> CardPagerCovers(rows, limit)
  {
    var shown := Shown(FollowCard(Unchanged(rows, PageCount(|rows|, limit)), limit, None));
    CardPagesShow(rows, limit);
    OrderBySorted(rows);
    WhereKeeps(rows, (row: Row) => row.date.Some?);
    OrderBySorted(Dated(rows));
    if forall x :: x in rows ==> x in shown {
      if !CardPagerCovers(rows, limit) {
        WhereAll(rows, (row: Row) => row.date.Some?);
        assert false;
      }
    }
  }

  /** The smallest table the per-card pager does not cover: one row with a date and one without,
      in pages of one. */
  lemma UndatedRowIsMissed(day: int)
    ensures var rows := [Row("dated", Some(day)), Row("undated", None)];
            var pages := FollowCard(Unchanged(rows, 2), 1, None);
            && !CardPagerCovers(rows, 1) && Complete(pages)
            && Shown(pages) == [Row("dated", Some(day))] && rows[1] !in Shown(pages)
            && Shown(Follow(Unchanged(rows, 2), 1, None)) == rows
  {
    var dated, undated := Row("dated", Some(day)), Row("undated", None);
    var rows := [dated, undated];
    BeforeStrict();
    WhereKeeps(rows, (row: Row) => row.date.Some?);
    OrderBySorted(Dated(rows));
    assert dated in rows && undated in rows;
    SortedUnique(Before, OrderBy(Dated(rows)), [dated]);
    OrderBySorted(rows);
    SortedUnique(Before, OrderBy(rows), rows);
    assert PageCount(1, 1) == 1 && PageCount(2, 1) == 2;
    CardPagesShow(rows, 1);
    PagesShowEverythingOnce(rows, 1);
  }

  // ---- The queries as they are built ---------------------------------------------------------------------

  /** The all-transactions statement, narrowed, ordered and cut step by step. */
  method FetchAllTransactions(rows: seq<Row>, limit: int, cursor: Option<Key>) returns (page: Page)
    ensures page == AllTransactions(rows, limit, cursor)
  {
    var capped := Clamp(limit);
    var statement := rows;
    if cursor.Some? {
      var last := cursor.value;
      if last.date.None? {
        statement := Where(statement, (row: Row) => row.date.None?);
        statement := Where(statement, (row: Row) => Less(row.id, last.id));
        WhereTwice(rows, (row: Row) => row.date.None?, (row: Row) => Less(row.id, last.id), (row: Row) => AfterCursor(cursor, row));
      } else {
        statement := Where(statement, (row: Row) => row.date.None? || (row.date.Some? && row.date.value < last.date.value)
                                                    || (row.date == last.date && Less(row.id, last.id)));
        SameWhere(rows, (row: Row) => row.date.None? || (row.date.Some? && row.date.value < last.date.value)
                                      || (row.date == last.date && Less(row.id, last.id)),
                  (row: Row) => AfterCursor(cursor, row));
      }
    } else {
      WhereAll(rows, (row: Row) => AfterCursor(cursor, row));
    }
    statement := OrderBy(statement);
    statement := Take(statement, capped + 1);
    var visible := Take(statement, capped);
    var next: Option<Key> := None;
    if |statement| > capped && visible != [] {
      next := Some(visible[|visible| - 1]);
    }
    page := Page(visible, next);
  }

  lemma {:induction false} SameWhere(rows: seq<Row>, p: Row -> bool, q: Row -> bool)
    requires forall x :: x in rows ==> p(x) == q(x)
    ensures Where(rows, p) == Where(rows, q)
  {
    if rows != [] {
      SameWhere(rows[1..], p, q);
    }
  }

  lemma {:induction false} WhereTwice(rows: seq<Row>, p: Row -> bool, q: Row -> bool, both: Row -> bool)
    requires forall x :: x in rows ==> both(x) == (p(x) && q(x))
    ensures Where(Where(rows, p), q) == Where(rows, both)
  {
    if rows != [] {
      WhereTwice(rows[1..], p, q, both);
      var rest := Where(rows[1..], p);
      assert rows[0] in rows && [] + rest == rest;
      if p(rows[0]) {
        assert Where(rows, p) == [rows[0]] + rest && ([rows[0]] + rest)[1..] == rest;
      } else {
        assert Where(rows, p) == rest;
      }
    }
  }
}
