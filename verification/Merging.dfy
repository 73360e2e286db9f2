/** The dashboard joins the pages of the all-transactions list as they arrive
    (frontend/src/dashboard/DashboardPage.tsx). */
module Merging {
  import opened Wrappers
  import opened Ordering
  import opened Paging

  function Ids(rows: seq<Row>): set<string> {
    set row | row in rows :: row.id
  }

  /** The first row of each id that was not seen before. */
  function UniqueFrom(seen: set<string>, rows: seq<Row>): seq<Row>
    decreases |rows|
  {
    if rows == [] then []
    else if rows[0].id in seen then UniqueFrom(seen, rows[1..])
    else [rows[0]] + UniqueFrom(seen + {rows[0].id}, rows[1..])
  }

  method UniqueRows(rows: seq<Row>) returns (unique: seq<Row>)
    ensures unique == UniqueFrom({}, rows)
  {
    var ids: set<string> := {};
    unique := [];
    for i := 0 to |rows|
      invariant ids == Ids(rows[..i])
      invariant unique == UniqueFrom({}, rows[..i])
    {
      assert rows[..i + 1] == rows[..i] + [rows[i]];
      UniqueAppend({}, rows[..i], [rows[i]]);
      IdsAppend(rows[..i], [rows[i]]);
      if rows[i].id !in ids {
        ids := ids + {rows[i].id};
        unique := unique + [rows[i]];
      }
    }
    assert rows[..|rows|] == rows;
  }

  lemma IdsAppend(a: seq<Row>, b: seq<Row>)
    ensures Ids(a + b) == Ids(a) + Ids(b)
  {
  }

  lemma {:induction false} UniqueAppend(seen: set<string>, a: seq<Row>, b: seq<Row>)
    ensures UniqueFrom(seen, a + b) == UniqueFrom(seen, a) + UniqueFrom(seen + Ids(a), b)
    decreases |a|
  {
    if a == [] {
      assert a + b == b && seen + Ids(a) == seen;
    } else {
      assert (a + b)[1..] == a[1..] + b;
      IdsAppend([a[0]], a[1..]);
      assert a == [a[0]] + a[1..];
      assert Ids([a[0]]) == {a[0].id};
      if a[0].id in seen {
        UniqueAppend(seen, a[1..], b);
        assert seen + Ids(a) == seen + Ids(a[1..]);
      } else {
        UniqueAppend(seen + {a[0].id}, a[1..], b);
        assert seen + Ids(a) == seen + {a[0].id} + Ids(a[1..]);
      }
    }
  }

  lemma {:induction false} UniqueIds(seen: set<string>, rows: seq<Row>)
    ensures Ids(UniqueFrom(seen, rows)) == Ids(rows) - seen
    ensures UniqueFrom(seen, UniqueFrom(seen, rows)) == UniqueFrom(seen, rows)
    decreases |rows|
  {
    if rows != [] {
      assert rows == [rows[0]] + rows[1..];
      IdsAppend([rows[0]], rows[1..]);
      assert Ids([rows[0]]) == {rows[0].id};
      if rows[0].id in seen {
        UniqueIds(seen, rows[1..]);
      } else {
        UniqueIds(seen + {rows[0].id}, rows[1..]);
        IdsAppend([rows[0]], UniqueFrom(seen + {rows[0].id}, rows[1..]));
      }
    }
  }

  // ---- What the page state holds -----------------------------------------------------------------

  /** Rows of later pages that are not in the first one. */
  function Without(rows: seq<Row>, ids: set<string>): seq<Row> {
    Where(rows, (row: Row) => row.id !in ids)
  }

  /** A page arrives: the stored rows after it. */
  function Merge(first: seq<Row>, stored: seq<Row>, page: seq<Row>): seq<Row> {
    Without(UniqueFrom({}, first + stored + page), Ids(first))
  }

  /** What is displayed. */
  function Displayed(first: seq<Row>, stored: seq<Row>): seq<Row> {
    UniqueFrom({}, first + stored)
  }

  function Stored(first: seq<Row>, pages: seq<seq<Row>>): seq<Row> {
    if pages == [] then [] else Merge(first, Stored(first, pages[..|pages| - 1]), pages[|pages| - 1])
  }

  function Joined(pages: seq<seq<Row>>): seq<Row> {
    if pages == [] then [] else Joined(pages[..|pages| - 1]) + pages[|pages| - 1]
  }

  lemma {:induction false} WithoutSeen(seen: set<string>, ids: set<string>, rows: seq<Row>)
    requires ids <= seen
    ensures Without(UniqueFrom(seen, rows), ids) == UniqueFrom(seen, rows)
  {
    UniqueIds(seen, rows);
    WhereAll(UniqueFrom(seen, rows), (row: Row) => row.id !in ids);
  }

  lemma {:induction false} WhereNone(rows: seq<Row>, keep: Row -> bool)
    requires forall x :: x in rows ==> !keep(x)
    ensures Where(rows, keep) == []
  {
    if rows != [] {
      WhereNone(rows[1..], keep);
    }
  }

  lemma {:induction false} WhereAppend(a: seq<Row>, b: seq<Row>, keep: Row -> bool)
    ensures Where(a + b, keep) == Where(a, keep) + Where(b, keep)
  {
    if a == [] {
      assert a + b == b;
    } else {
      assert (a + b)[1..] == a[1..] + b && (a + b)[0] == a[0];
      WhereAppend(a[1..], b, keep);
      var own := if keep(a[0]) then [a[0]] else [];
      assert Where(a + b, keep) == own + (Where(a[1..], keep) + Where(b, keep));
      assert Where(a, keep) == own + Where(a[1..], keep);
    }
  }

  /** Merging stores exactly what is new after the first page. */
  lemma MergeIs(first: seq<Row>, stored: seq<Row>, page: seq<Row>)
    ensures Merge(first, stored, page) == UniqueFrom(Ids(first), stored + page)
  {
    var ids := Ids(first);
    assert first + stored + page == first + (stored + page) && {} + ids == ids;
    UniqueAppend({}, first, stored + page);
    UniqueIds({}, first);
    WhereAppend(UniqueFrom({}, first), UniqueFrom(ids, stored + page), (row: Row) => row.id !in ids);
    forall x | x in UniqueFrom({}, first)
      ensures x.id in ids
    {
      assert x.id in Ids(UniqueFrom({}, first));
    }
    WhereNone(UniqueFrom({}, first), (row: Row) => row.id !in ids);
    WithoutSeen(ids, ids, stored + page);
  }

  lemma DisplayedIs(first: seq<Row>, stored: seq<Row>)
    ensures Displayed(first, stored) == UniqueFrom({}, first) + UniqueFrom(Ids(first), stored)
  {
    assert {} + Ids(first) == Ids(first);
    UniqueAppend({}, first, stored);
  }

  lemma {:induction false} StoredIs(first: seq<Row>, pages: seq<seq<Row>>)
    ensures Stored(first, pages) == UniqueFrom(Ids(first), Joined(pages))
  {
    if pages != [] {
      var init, page, ids := pages[..|pages| - 1], pages[|pages| - 1], Ids(first);
      StoredIs(first, init);
      var stored := Stored(first, init);
      MergeIs(first, stored, page);
      UniqueAppend(ids, stored, page);
      UniqueAppend(ids, Joined(init), page);
      UniqueIds(ids, Joined(init));
      assert ids + Ids(stored) == ids + Ids(Joined(init));
    }
  }

  /** However many pages arrived, the list shown is the first page and all later pages joined,
      with every id at its first place only. */
  lemma DisplayIsJoin(first: seq<Row>, pages: seq<seq<Row>>)
    ensures Displayed(first, Stored(first, pages)) == UniqueFrom({}, first + Joined(pages))
  {
    StoredIs(first, pages);
    DisplayedIs(first, Stored(first, pages));
    DisplayedIs(first, Joined(pages));
    UniqueIds(Ids(first), Joined(pages));
  }

  ghost predicate NoIdRepeats(rows: seq<Row>) {
    forall i, j :: 0 <= i < j < |rows| ==> rows[i].id != rows[j].id
  }

  lemma {:induction false} UniqueOfDistinct(seen: set<string>, rows: seq<Row>)
    requires NoIdRepeats(rows) && Ids(rows) !! seen
    ensures UniqueFrom(seen, rows) == rows
    decreases |rows|
  {
    if rows != [] {
      assert rows[0].id in Ids(rows);
      forall id | id in Ids(rows[1..])
        ensures id !in seen + {rows[0].id}
      {
        var row :| row in rows[1..] && row.id == id;
        assert row in rows && id in Ids(rows);
      }
      UniqueOfDistinct(seen + {rows[0].id}, rows[1..]);
    }
  }

  lemma {:induction false} UniqueIsDistinct(seen: set<string>, rows: seq<Row>)
    ensures NoIdRepeats(UniqueFrom(seen, rows))
    decreases |rows|
  {
    if rows != [] {
      if rows[0].id in seen {
        UniqueIsDistinct(seen, rows[1..]);
      } else {
        var now := seen + {rows[0].id};
        var rest := UniqueFrom(now, rows[1..]);
        UniqueIsDistinct(now, rows[1..]);
        UniqueIds(now, rows[1..]);
        forall j | 0 <= j < |rest|
          ensures rest[j].id != rows[0].id
        {
          assert rest[j].id in Ids(rest);
        }
      }
    }
  }

  function RowsOf(pages: seq<Page>): seq<seq<Row>> {
    seq(|pages|, i requires 0 <= i < |pages| => pages[i].rows)
  }

  lemma {:induction false} JoinedIsShown(pages: seq<Page>)
    ensures Joined(RowsOf(pages)) == Shown(pages)
  {
    if pages != [] {
      JoinedCons(pages[0].rows, RowsOf(pages[1..]));
      assert RowsOf(pages) == [pages[0].rows] + RowsOf(pages[1..]);
      JoinedIsShown(pages[1..]);
    }
  }

  lemma {:induction false} JoinedCons(first: seq<Row>, pages: seq<seq<Row>>)
    ensures Joined([first] + pages) == first + Joined(pages)
  {
    var all := [first] + pages;
    if pages == [] {
      assert all[..|all| - 1] == [] && first + [] == first;
    } else {
      assert all[..|all| - 1] == [first] + pages[..|pages| - 1];
      JoinedCons(first, pages[..|pages| - 1]);
    }
  }

  /** What is displayed once these pages have arrived. */
  function Dashboard(pages: seq<Page>): seq<Row>
    requires pages != []
  {
    Displayed(pages[0].rows, Stored(pages[0].rows, RowsOf(pages[1..])))
  }

  /** The dashboard displays just what the pages showed, if and only if no id came twice. */
  lemma DashboardShowsPages(pages: seq<Page>)
    requires pages != []
    ensures Dashboard(pages) == UniqueFrom({}, Shown(pages))
    ensures Dashboard(pages) == Shown(pages) <==> NoIdRepeats(Shown(pages))
  {
    DisplayIsJoin(pages[0].rows, RowsOf(pages[1..]));
    JoinedIsShown(pages[1..]);
    UniqueIsDistinct({}, Shown(pages));
    if NoIdRepeats(Shown(pages)) {
      UniqueOfDistinct({}, Shown(pages));
    }
  }

  /** Whatever is inserted or deleted between the requests: as long as no row changes its key, the
      dashboard drops nothing of what the pages showed, and displays it in strict order. */
  lemma DashboardOverChanges(tables: seq<seq<Row>>, limit: int)
    requires tables != [] && AllDistinct(tables) && KeysStay(tables)
    ensures var pages := Follow(tables, limit, None);
            && pages != [] && Dashboard(pages) == Shown(pages) && Sorted(Before, Dashboard(pages))
            && (Complete(pages) ==> forall row :: Stays(row, tables) ==> row in Dashboard(pages))
  {
    NoIdTwice(tables, limit);
    PagesOverChangesAreOrdered(tables, limit);
    DashboardShowsPages(Follow(tables, limit, None));
  }

  /** Loading page after page of a list that does not change displays the sorted list itself. */
  lemma DashboardShowsTheSortedList(rows: seq<Row>, limit: int)
    requires NoIdRepeats(rows)
    ensures var pages := Follow(Unchanged(rows, PageCount(|rows|, limit)), limit, None);
            pages != [] && Dashboard(pages) == OrderBy(rows)
  {
    var pages := Follow(Unchanged(rows, PageCount(|rows|, limit)), limit, None);
    PagesShowEverythingOnce(rows, limit);
    DashboardShowsPages(pages);
    var sorted := OrderBy(rows);
    BeforeStrict();
    forall i, j | 0 <= i < j < |sorted|
      ensures sorted[i].id != sorted[j].id
    {
      assert Before(sorted[i], sorted[j]) && sorted[i] in rows && sorted[j] in rows;
    }
  }
}
