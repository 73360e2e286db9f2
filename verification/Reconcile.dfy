/** The provider's page patches and the one atomic apply that folds them into the
    transaction cache (backend/app/services/sync_service.py). */
module Reconcile {
  import opened Wrappers

  type TxnId = string
  type AccountId = string
  type Cursor = string

  /** One transaction as the provider sends it. `text` is the normalized haystack. */
  datatype PlaidRow = PlaidRow(
    id: TxnId, account: AccountId, posted: Option<int>, authorized: Option<int>,
    cents: int, currency: Option<string>, pending: bool, text: string)

  /** One cached row; the table is keyed by the provider's transaction id. */
  datatype Transaction = Transaction(
    account: AccountId, posted: Option<int>, authorized: Option<int>,
    cents: int, currency: string, pending: bool, text: string)

  datatype SyncPage = SyncPage(
    added: seq<PlaidRow>, modified: seq<PlaidRow>, removed: seq<TxnId>, next: Cursor, hasMore: bool)

  datatype Summary = Summary(added: nat, modified: nat, removed: nat)

  type Table = map<TxnId, Transaction>

  function Values(row: PlaidRow): Transaction {
    Transaction(row.account, row.posted, row.authorized, row.cents,
                if row.currency.Some? && row.currency.value != "" then row.currency.value else "USD",
                row.pending, row.text)
  }

  /** The cached row says what the provider's row says; a row without a currency counts as USD. */
  predicate Shows(cached: Transaction, row: PlaidRow) {
    && cached.account == row.account && cached.posted == row.posted && cached.authorized == row.authorized
    && cached.cents == row.cents && cached.pending == row.pending && cached.text == row.text
    && (row.currency == None || row.currency == Some("") ==> cached.currency == "USD")
    && (row.currency.Some? && |row.currency.value| > 0 ==> cached.currency == row.currency.value)
  }

  function Upsert(rows: Table, row: PlaidRow, cards: set<AccountId>): Table {
    if row.account in cards then rows[row.id := Values(row)] else rows
  }

  function UpsertAll(rows: Table, s: seq<PlaidRow>, cards: set<AccountId>): Table {
    if s == [] then rows
    else Upsert(UpsertAll(rows, s[..|s| - 1], cards), s[|s| - 1], cards)
  }

  function IdSet(ids: seq<TxnId>): set<TxnId> {
    set t | t in ids
  }

  function Remove(rows: Table, ids: seq<TxnId>): Table {
    map t | t in rows && t !in ids :: rows[t]
  }

  function ApplyPage(rows: Table, page: SyncPage, cards: set<AccountId>): Table {
    Remove(UpsertAll(UpsertAll(rows, page.added, cards), page.modified, cards), page.removed)
  }

  function ApplyPages(rows: Table, pages: seq<SyncPage>, cards: set<AccountId>): Table {
    if pages == [] then rows
    else ApplyPage(ApplyPages(rows, pages[..|pages| - 1], cards), pages[|pages| - 1], cards)
  }

  // ---- What one apply reports ----------------------------------------------------

  /** How many of the rows of `s` were not cached when their turn came. */
  function NewIn(rows: Table, s: seq<PlaidRow>, cards: set<AccountId>): nat {
    if s == [] then 0
    else
      var before := UpsertAll(rows, s[..|s| - 1], cards);
      var last := s[|s| - 1];
      NewIn(rows, s[..|s| - 1], cards) + (if last.account in cards && last.id !in before then 1 else 0)
  }

  function KnownIn(s: seq<PlaidRow>, cards: set<AccountId>): nat {
    if s == [] then 0
    else KnownIn(s[..|s| - 1], cards) + (if s[|s| - 1].account in cards then 1 else 0)
  }

  function RemovedBy(rows: Table, ids: seq<TxnId>): nat {
    |set t | t in rows && t in ids|
  }

  function PageSummary(rows: Table, page: SyncPage, cards: set<AccountId>): Summary {
    var upserted := UpsertAll(UpsertAll(rows, page.added, cards), page.modified, cards);
    Summary(NewIn(rows, page.added, cards), KnownIn(page.modified, cards), RemovedBy(upserted, page.removed))
  }

  function Summarize(rows: Table, pages: seq<SyncPage>, cards: set<AccountId>): Summary {
    if pages == [] then Summary(0, 0, 0)
    else
      var sofar := Summarize(rows, pages[..|pages| - 1], cards);
      var page := PageSummary(ApplyPages(rows, pages[..|pages| - 1], cards), pages[|pages| - 1], cards);
      Summary(sofar.added + page.added, sofar.modified + page.modified, sofar.removed + page.removed)
  }

  /** Modified rows that were not cached before: the code inserts them and counts them as modified. */
  function ModifiedUnseen(rows: Table, pages: seq<SyncPage>, cards: set<AccountId>): nat {
    if pages == [] then 0
    else
      var page := pages[|pages| - 1];
      var before := ApplyPages(rows, pages[..|pages| - 1], cards);
      ModifiedUnseen(rows, pages[..|pages| - 1], cards) + NewIn(UpsertAll(before, page.added, cards), page.modified, cards)
  }

  // ---- The imperative apply --------------------------------------------------------

  class TransactionCache {
    var rows: Table

    constructor (initial: Table)
      ensures rows == initial
    {
      rows := initial;
    }

    /** Returns whether the caller counts this row: a re-delivered "added" row is not counted. */
    method UpsertRow(row: PlaidRow, cards: set<AccountId>, inserted: bool) returns (counted: bool)
      modifies this
      ensures rows == Upsert(old(rows), row, cards)
      ensures row.account in cards ==> row.id in rows && Shows(rows[row.id], row) && rows - {row.id} == old(rows) - {row.id}
      ensures row.account !in cards ==> rows == old(rows)
      ensures counted <==> row.account in cards && (row.id !in old(rows) || !inserted)
    {
      if row.account !in cards {
        return false;
      }
      var existing := row.id in rows;
      rows := rows[row.id := Values(row)];
      return !existing || !inserted;
    }

    method RemoveRows(ids: seq<TxnId>) returns (count: nat)
      modifies this
      ensures rows == Remove(old(rows), ids)
      ensures count == RemovedBy(old(rows), ids)
      ensures |rows| == |old(rows)| - count
    {
      var gone := set t | t in rows && t in ids;
      count := |gone|;
      RemoveSize(rows, ids);
      rows := map t | t in rows && t !in ids :: rows[t];
    }

    method UpsertBatch(batch: seq<PlaidRow>, cards: set<AccountId>, inserted: bool) returns (count: nat)
      modifies this
      ensures rows == UpsertAll(old(rows), batch, cards)
      ensures count == if inserted then NewIn(old(rows), batch, cards) else KnownIn(batch, cards)
    {
      count := 0;
      for i := 0 to |batch|
        invariant rows == UpsertAll(old(rows), batch[..i], cards)
        invariant count == if inserted then NewIn(old(rows), batch[..i], cards) else KnownIn(batch[..i], cards)
      {
        assert batch[..i + 1][..i] == batch[..i];
        var counted := UpsertRow(batch[i], cards, inserted);
        if counted {
          count := count + 1;
        }
      }
      assert batch[..|batch|] == batch;
    }

    method Apply(pages: seq<SyncPage>, cards: set<AccountId>) returns (summary: Summary)
      modifies this
      ensures rows == ApplyPages(old(rows), pages, cards)
      ensures forall t :: Settled(old(rows), pages, cards, t, rows)
      ensures summary == Summarize(old(rows), pages, cards)
      ensures |rows| + summary.removed ==
              |old(rows)| + summary.added + ModifiedUnseen(old(rows), pages, cards)
    {
      var added, modified, removed := 0, 0, 0;
      for i := 0 to |pages|
        invariant rows == ApplyPages(old(rows), pages[..i], cards)
        invariant Summary(added, modified, removed) == Summarize(old(rows), pages[..i], cards)
      {
        assert pages[..i + 1][..i] == pages[..i];
        var a := UpsertBatch(pages[i].added, cards, true);
        var m := UpsertBatch(pages[i].modified, cards, false);
        added, modified := added + a, modified + m;
        if pages[i].removed != [] {
          var r := RemoveRows(pages[i].removed);
          removed := removed + r;
        } else {
          RemoveNothing(rows);
        }
      }
      assert pages[..|pages|] == pages;
      summary := Summary(added, modified, removed);
      ApplyConservesRows(old(rows), pages, cards);
      forall t
        ensures Settled(old(rows), pages, cards, t, rows)
      {
        ApplySettles(old(rows), pages, cards, t);
      }
    }
  }

  lemma RemoveNothing(rows: Table)
    ensures Remove(rows, []) == rows && RemovedBy(rows, []) == 0
  {
  }

  lemma RemoveSize(rows: Table, ids: seq<TxnId>)
    ensures |Remove(rows, ids)| + RemovedBy(rows, ids) == |rows|
  {
    var gone := set t | t in rows && t in ids;
    assert rows.Keys == Remove(rows, ids).Keys + gone;
    assert Remove(rows, ids).Keys !! gone;
    assert |Remove(rows, ids).Keys| + |gone| == |rows.Keys|;
  }

  lemma {:induction false} UpsertSize(rows: Table, s: seq<PlaidRow>, cards: set<AccountId>)
    ensures |UpsertAll(rows, s, cards)| == |rows| + NewIn(rows, s, cards)
  {
    if s != [] {
      UpsertSize(rows, s[..|s| - 1], cards);
    }
  }

  /** Rows after = rows before + added + modified rows never seen before - removed. */
  lemma {:induction false} ApplyConservesRows(rows: Table, pages: seq<SyncPage>, cards: set<AccountId>)
    ensures var s := Summarize(rows, pages, cards);
            |ApplyPages(rows, pages, cards)| + s.removed == |rows| + s.added + ModifiedUnseen(rows, pages, cards)
  {
    if pages != [] {
      var page := pages[|pages| - 1];
      ApplyConservesRows(rows, pages[..|pages| - 1], cards);
      var before := ApplyPages(rows, pages[..|pages| - 1], cards);
      var added := UpsertAll(before, page.added, cards);
      UpsertSize(before, page.added, cards);
      UpsertSize(added, page.modified, cards);
      RemoveSize(UpsertAll(added, page.modified, cards), page.removed);
    }
  }

  // ---- What a batch leaves, row by row ---------------------------------------------

  /** Row `i` is about transaction `t` on a known card. */
  predicate RowAt(s: seq<PlaidRow>, cards: set<AccountId>, i: nat, t: TxnId) {
    i < |s| && s[i].account in cards && s[i].id == t
  }

  /** Row `i` is the last one about `t`. */
  ghost predicate LastAt(s: seq<PlaidRow>, cards: set<AccountId>, i: nat, t: TxnId) {
    RowAt(s, cards, i, t) && forall k: nat :: k > i ==> !RowAt(s, cards, k, t)
  }

  ghost predicate NoRow(s: seq<PlaidRow>, cards: set<AccountId>, t: TxnId) {
    forall i: nat :: !RowAt(s, cards, i, t)
  }

  function Puts(page: SyncPage): seq<PlaidRow> {
    page.added + page.modified
  }

  ghost predicate LeavesAlone(page: SyncPage, cards: set<AccountId>, t: TxnId) {
    t !in page.removed && NoRow(Puts(page), cards, t)
  }

  /** The pages from `p` on do not touch `t`. */
  ghost predicate AloneFrom(pages: seq<SyncPage>, cards: set<AccountId>, p: nat, t: TxnId) {
    forall q :: p <= q < |pages| ==> LeavesAlone(pages[q], cards, t)
  }

  /** The last the batch says of `t` is row `i` of page `p`, its added rows before its modified ones. */
  ghost predicate LastPut(pages: seq<SyncPage>, cards: set<AccountId>, p: nat, i: nat, t: TxnId) {
    && p < |pages| && LastAt(Puts(pages[p]), cards, i, t) && t !in pages[p].removed && AloneFrom(pages, cards, p + 1, t)
  }

  /** What a batch leaves of one transaction: the last row it put, or nothing, or what was there. */
  ghost predicate Settled(rows: Table, pages: seq<SyncPage>, cards: set<AccountId>, t: TxnId, after: Table) {
    && (forall p: nat, i: nat :: LastPut(pages, cards, p, i, t) ==> t in after && Shows(after[t], Puts(pages[p])[i]))
    && (AloneFrom(pages, cards, 0, t) ==> (t in after <==> t in rows) && (t in after && t in rows ==> after[t] == rows[t]))
    && (t in after ==> AloneFrom(pages, cards, 0, t) || exists p: nat, i: nat :: LastPut(pages, cards, p, i, t))
  }

  lemma {:induction false} UpsertAppend(rows: Table, a: seq<PlaidRow>, b: seq<PlaidRow>, cards: set<AccountId>)
    ensures UpsertAll(UpsertAll(rows, a, cards), b, cards) == UpsertAll(rows, a + b, cards)
  {
    if b == [] {
      assert a + b == a;
    } else {
      assert (a + b)[..|a + b| - 1] == a + b[..|b| - 1];
      UpsertAppend(rows, a, b[..|b| - 1], cards);
    }
  }

  /** What some rows leave of one transaction: the last of them about it shows, or what was there stays. */
  ghost predicate RowsSettle(rows: Table, s: seq<PlaidRow>, cards: set<AccountId>, t: TxnId, after: Table) {
    && (forall i: nat :: LastAt(s, cards, i, t) ==> t in after && Shows(after[t], s[i]))
    && ((exists i: nat :: LastAt(s, cards, i, t)) ||
        (NoRow(s, cards, t) && (t in after <==> t in rows) && (t in after && t in rows ==> after[t] == rows[t])))
  }

  lemma {:induction false} LastRowStays(rows: Table, s: seq<PlaidRow>, cards: set<AccountId>, t: TxnId)
    ensures RowsSettle(rows, s, cards, t, UpsertAll(rows, s, cards))
  {
    if s != [] {
      var init, n := s[..|s| - 1], |s| - 1;
      LastRowStays(rows, init, cards, t);
      if RowAt(s, cards, n, t) {
        OneRowShows(rows, s, cards, t);
      } else {
        OneRowPasses(rows, s, cards, t);
      }
    }
  }

  lemma NoneAfterLast(s: seq<PlaidRow>, cards: set<AccountId>, i: nat, k: nat, t: TxnId)
    requires LastAt(s, cards, i, t) && RowAt(s, cards, k, t)
    ensures k <= i
  {
  }

  lemma OneRowShows(rows: Table, s: seq<PlaidRow>, cards: set<AccountId>, t: TxnId)
    requires s != [] && RowAt(s, cards, |s| - 1, t)
    ensures RowsSettle(rows, s, cards, t, UpsertAll(rows, s, cards))
  {
    var n := |s| - 1;
    assert LastAt(s, cards, n, t);
    forall i: nat | LastAt(s, cards, i, t)
      ensures i == n
    {
      NoneAfterLast(s, cards, i, n, t);
    }
  }

  lemma OneRowPasses(rows: Table, s: seq<PlaidRow>, cards: set<AccountId>, t: TxnId)
    requires s != [] && !RowAt(s, cards, |s| - 1, t)
    requires RowsSettle(rows, s[..|s| - 1], cards, t, UpsertAll(rows, s[..|s| - 1], cards))
    ensures RowsSettle(rows, s, cards, t, UpsertAll(rows, s, cards))
  {
    var init, before, after := s[..|s| - 1], UpsertAll(rows, s[..|s| - 1], cards), UpsertAll(rows, s, cards);
    SameLast(s, cards, t);
    assert (t in after <==> t in before) && (t in after ==> after[t] == before[t]);
    forall i: nat | LastAt(s, cards, i, t)
      ensures t in after && Shows(after[t], s[i])
    {
      assert LastAt(init, cards, i, t) && init[i] == s[i];
    }
    if i: nat :| LastAt(init, cards, i, t) {
      assert LastAt(s, cards, i, t);
    }
  }

  /** A row that is not about `t` changes nothing about which row is the last about it. */
  lemma SameLast(s: seq<PlaidRow>, cards: set<AccountId>, t: TxnId)
    requires s != [] && !RowAt(s, cards, |s| - 1, t)
    ensures forall i: nat :: LastAt(s, cards, i, t) <==> LastAt(s[..|s| - 1], cards, i, t)
    ensures NoRow(s, cards, t) <==> NoRow(s[..|s| - 1], cards, t)
  {
    var init := s[..|s| - 1];
    assert forall i: nat :: RowAt(s, cards, i, t) == RowAt(init, cards, i, t);
  }

  lemma LastPageStays(rows: Table, page: SyncPage, cards: set<AccountId>, t: TxnId)
    ensures var after := ApplyPage(rows, page, cards);
            if t in page.removed then t !in after else RowsSettle(rows, Puts(page), cards, t, after)
  {
    UpsertAppend(rows, page.added, page.modified, cards);
    LastRowStays(rows, Puts(page), cards, t);
  }

  /** The tables after a batch, without following the order of its rows: the last row put for a
      transaction shows, what was removed last is gone, what was not named stays. */
  lemma {:induction false} ApplySettles(rows: Table, pages: seq<SyncPage>, cards: set<AccountId>, t: TxnId)
    ensures Settled(rows, pages, cards, t, ApplyPages(rows, pages, cards))
  {
    if pages != [] {
      var init, last := pages[..|pages| - 1], pages[|pages| - 1];
      var before := ApplyPages(rows, init, cards);
      ApplySettles(rows, init, cards, t);
      LastPageStays(before, last, cards, t);
      if LeavesAlone(last, cards, t) {
        OnePageMore(pages, cards, t);
        if p: nat, i: nat :| LastPut(init, cards, p, i, t) {
          assert LastPut(pages, cards, p, i, t);
        }
      } else {
        LastPageDecides(pages, cards, t);
        if i: nat :| t !in last.removed && LastAt(Puts(last), cards, i, t) {
          assert LastPut(pages, cards, |init|, i, t);
        }
      }
    }
  }

  lemma OnePageMore(pages: seq<SyncPage>, cards: set<AccountId>, t: TxnId)
    requires pages != [] && LeavesAlone(pages[|pages| - 1], cards, t)
    ensures AloneFrom(pages, cards, 0, t) <==> AloneFrom(pages[..|pages| - 1], cards, 0, t)
    ensures forall p: nat, i: nat :: LastPut(pages, cards, p, i, t) <==> LastPut(pages[..|pages| - 1], cards, p, i, t)
  {
    var init := pages[..|pages| - 1];
    assert forall p: nat :: AloneFrom(pages, cards, p, t) <==> AloneFrom(init, cards, p, t) by {
      forall p: nat
        ensures AloneFrom(pages, cards, p, t) <==> AloneFrom(init, cards, p, t)
      {
        assert forall q :: p <= q < |init| ==> init[q] == pages[q];
      }
    }
    forall p: nat, i: nat
      ensures LastPut(pages, cards, p, i, t) <==> LastPut(init, cards, p, i, t)
    {
    }
  }

  lemma LastPageDecides(pages: seq<SyncPage>, cards: set<AccountId>, t: TxnId)
    requires pages != [] && !LeavesAlone(pages[|pages| - 1], cards, t)
    ensures !AloneFrom(pages, cards, 0, t)
    ensures var n := |pages| - 1;
            forall p: nat, i: nat :: LastPut(pages, cards, p, i, t) <==> p == n && LastAt(Puts(pages[n]), cards, i, t) && t !in pages[n].removed
  {
    var n := |pages| - 1;
    forall p: nat, i: nat
      ensures LastPut(pages, cards, p, i, t) <==> p == n && LastAt(Puts(pages[n]), cards, i, t) && t !in pages[n].removed
    {
    }
  }

  // ---- What is counted as modified --------------------------------------------------

  function AllModified(pages: seq<SyncPage>): seq<PlaidRow> {
    if pages == [] then [] else AllModified(pages[..|pages| - 1]) + pages[|pages| - 1].modified
  }

  lemma {:induction false} KnownAppend(a: seq<PlaidRow>, b: seq<PlaidRow>, cards: set<AccountId>)
    ensures KnownIn(a + b, cards) == KnownIn(a, cards) + KnownIn(b, cards)
  {
    if b == [] {
      assert a + b == a;
    } else {
      assert (a + b)[..|a + b| - 1] == a + b[..|b| - 1];
      KnownAppend(a, b[..|b| - 1], cards);
    }
  }

  lemma {:induction false} KnownAreCounted(s: seq<PlaidRow>, cards: set<AccountId>)
    ensures KnownIn(s, cards) == |set i | 0 <= i < |s| && s[i].account in cards|
  {
    var known := set i | 0 <= i < |s| && s[i].account in cards;
    if s == [] {
      assert known == {};
    } else {
      var init, n := s[..|s| - 1], |s| - 1;
      KnownAreCounted(init, cards);
      var before := set i | 0 <= i < |init| && init[i].account in cards;
      assert known == before + (if s[n].account in cards then {n} else {});
    }
  }

  /** Modified rows on known cards are counted, each time they are sent. */
  lemma {:induction false} ModifiedAreCounted(rows: Table, pages: seq<SyncPage>, cards: set<AccountId>)
    ensures var all := AllModified(pages);
            Summarize(rows, pages, cards).modified == |set i | 0 <= i < |all| && all[i].account in cards|
  {
    KnownAreCounted(AllModified(pages), cards);
    if pages != [] {
      ModifiedAreCounted(rows, pages[..|pages| - 1], cards);
      KnownAreCounted(AllModified(pages[..|pages| - 1]), cards);
      KnownAppend(AllModified(pages[..|pages| - 1]), pages[|pages| - 1].modified, cards);
    }
  }

  // ---- A batch is one patch ---------------------------------------------------------

  /** The net effect of a batch on any table: some rows put, some ids deleted. */
  datatype Patch = Patch(puts: Table, dels: set<TxnId>)

  function Patched(rows: Table, p: Patch): Table {
    (rows - p.dels) + p.puts
  }

  function PatchRow(p: Patch, row: PlaidRow, cards: set<AccountId>): Patch {
    if row.account in cards then Patch(p.puts[row.id := Values(row)], p.dels - {row.id}) else p
  }

  function PatchRows(p: Patch, s: seq<PlaidRow>, cards: set<AccountId>): Patch {
    if s == [] then p else PatchRow(PatchRows(p, s[..|s| - 1], cards), s[|s| - 1], cards)
  }

  function PatchRemove(p: Patch, ids: seq<TxnId>): Patch {
    Patch(p.puts - IdSet(ids), p.dels + IdSet(ids))
  }

  function PatchPages(pages: seq<SyncPage>, cards: set<AccountId>): Patch {
    if pages == [] then Patch(map[], {})
    else
      var page := pages[|pages| - 1];
      PatchRemove(PatchRows(PatchRows(PatchPages(pages[..|pages| - 1], cards), page.added, cards), page.modified, cards),
                  page.removed)
  }

  lemma {:induction false} RowsArePatch(rows: Table, p: Patch, s: seq<PlaidRow>, cards: set<AccountId>)
    ensures UpsertAll(Patched(rows, p), s, cards) == Patched(rows, PatchRows(p, s, cards))
  {
    if s != [] {
      RowsArePatch(rows, p, s[..|s| - 1], cards);
    }
  }

  lemma {:induction false} PagesArePatch(rows: Table, pages: seq<SyncPage>, cards: set<AccountId>)
    ensures ApplyPages(rows, pages, cards) == Patched(rows, PatchPages(pages, cards))
  {
    if pages != [] {
      var page := pages[|pages| - 1];
      PagesArePatch(rows, pages[..|pages| - 1], cards);
      var p := PatchPages(pages[..|pages| - 1], cards);
      RowsArePatch(rows, p, page.added, cards);
      RowsArePatch(rows, PatchRows(p, page.added, cards), page.modified, cards);
    }
  }

  /** Applying the same pages twice leaves the rows of one apply. */
  lemma ApplyIsIdempotent(rows: Table, pages: seq<SyncPage>, cards: set<AccountId>)
    ensures ApplyPages(ApplyPages(rows, pages, cards), pages, cards) == ApplyPages(rows, pages, cards)
  {
    PagesArePatch(rows, pages, cards);
    PagesArePatch(ApplyPages(rows, pages, cards), pages, cards);
  }

  // ---- When a second pass over the same pages counts nothing --------------------------

  function UpsertIds(s: seq<PlaidRow>, cards: set<AccountId>): set<TxnId> {
    set i | 0 <= i < |s| && s[i].account in cards :: s[i].id
  }

  function PageUpserts(page: SyncPage, cards: set<AccountId>): set<TxnId> {
    UpsertIds(page.added, cards) + UpsertIds(page.modified, cards)
  }

  function BatchUpserts(pages: seq<SyncPage>, cards: set<AccountId>): set<TxnId> {
    if pages == [] then {}
    else
      BatchUpserts(pages[..|pages| - 1], cards) + PageUpserts(pages[|pages| - 1], cards)
  }

  function BatchRemoves(pages: seq<SyncPage>): set<TxnId> {
    if pages == [] then {}
    else BatchRemoves(pages[..|pages| - 1]) + IdSet(pages[|pages| - 1].removed)
  }

  lemma {:induction false} UpsertKeys(rows: Table, s: seq<PlaidRow>, cards: set<AccountId>)
    ensures UpsertAll(rows, s, cards).Keys == rows.Keys + UpsertIds(s, cards)
    ensures NewIn(rows, s, cards) == 0 <==> UpsertIds(s, cards) <= rows.Keys
  {
    if s != [] {
      var init, last := s[..|s| - 1], s[|s| - 1];
      UpsertKeys(rows, init, cards);
      LastUpsertId(s, cards);
    }
  }

  lemma LastUpsertId(s: seq<PlaidRow>, cards: set<AccountId>)
    requires s != []
    ensures var last := s[|s| - 1];
            UpsertIds(s, cards) == UpsertIds(s[..|s| - 1], cards) + (if last.account in cards then {last.id} else {})
  {
    var init, last := s[..|s| - 1], s[|s| - 1];
    forall t | t in UpsertIds(init, cards) + (if last.account in cards then {last.id} else {})
      ensures t in UpsertIds(s, cards)
    {
      if t in UpsertIds(init, cards) {
        var i :| 0 <= i < |init| && init[i].account in cards && init[i].id == t;
        assert s[i] == init[i];
      } else {
        assert s[|s| - 1].id == t;
      }
    }
  }

  lemma RemoveKeys(rows: Table, ids: seq<TxnId>)
    ensures Remove(rows, ids).Keys == rows.Keys - IdSet(ids)
    ensures RemovedBy(rows, ids) == 0 <==> rows.Keys !! IdSet(ids)
  {
    var gone := set t | t in rows && t in ids;
    assert gone == rows.Keys * IdSet(ids);
    assert RemovedBy(rows, ids) == |gone|;
    assert gone == {} <==> |gone| == 0;
    assert forall t :: t in gone <==> t in rows.Keys && t in IdSet(ids);
    if rows.Keys !! IdSet(ids) {
      assert forall t :: t !in gone;
    }
    assert Remove(rows, ids).Keys == rows.Keys - IdSet(ids);
  }

  lemma PageKeys(rows: Table, page: SyncPage, cards: set<AccountId>)
    ensures ApplyPage(rows, page, cards).Keys == rows.Keys + PageUpserts(page, cards) - IdSet(page.removed)
    ensures PageSummary(rows, page, cards).removed == 0 <==> rows.Keys + PageUpserts(page, cards) !! IdSet(page.removed)
    ensures PageUpserts(page, cards) <= rows.Keys ==> PageSummary(rows, page, cards).added == 0
  {
    var added := UpsertAll(rows, page.added, cards);
    var upserted := UpsertAll(added, page.modified, cards);
    UpsertKeys(rows, page.added, cards);
    UpsertKeys(added, page.modified, cards);
    RemoveKeys(upserted, page.removed);
    assert upserted.Keys == rows.Keys + PageUpserts(page, cards);
  }

  lemma SummarizeLast(rows: Table, pages: seq<SyncPage>, cards: set<AccountId>)
    requires pages != []
    ensures var init, before := pages[..|pages| - 1], ApplyPages(rows, pages[..|pages| - 1], cards);
            Summarize(rows, pages, cards).removed == 0 <==>
            Summarize(rows, init, cards).removed == 0 && PageSummary(before, pages[|pages| - 1], cards).removed == 0
  {
  }

  lemma DisjointStep(base: set<TxnId>, puts: set<TxnId>, dels: set<TxnId>, morePuts: set<TxnId>, moreDels: set<TxnId>)
    requires base !! dels && base + puts + morePuts !! moreDels
    ensures base + puts + morePuts - moreDels == base + (puts + morePuts)
    ensures base !! dels + moreDels
  {
  }

  /** While nothing is removed the table only grows, and removed ids were never in it. */
  lemma {:induction false} NothingRemovedSoFar(rows: Table, pages: seq<SyncPage>, cards: set<AccountId>)
    requires Summarize(rows, pages, cards).removed == 0
    ensures ApplyPages(rows, pages, cards).Keys == rows.Keys + BatchUpserts(pages, cards)
    ensures rows.Keys !! BatchRemoves(pages)
  {
    if pages != [] {
      var init, page := pages[..|pages| - 1], pages[|pages| - 1];
      SummarizeLast(rows, pages, cards);
      NothingRemovedSoFar(rows, init, cards);
      PageKeys(ApplyPages(rows, init, cards), page, cards);
      DisjointStep(rows.Keys, BatchUpserts(init, cards), BatchRemoves(init), PageUpserts(page, cards), IdSet(page.removed));
    }
  }

  /** If a pass removes nothing, an id the batch both puts and removes is put after its last removal. */
  lemma {:induction false} PutAfterRemoval(quiet: Table, rows: Table, pages: seq<SyncPage>, cards: set<AccountId>, t: TxnId)
    requires Summarize(quiet, pages, cards).removed == 0
    requires t in BatchUpserts(pages, cards) && t in BatchRemoves(pages)
    ensures t in ApplyPages(rows, pages, cards)
  {
    var init, page := pages[..|pages| - 1], pages[|pages| - 1];
    SummarizeLast(quiet, pages, cards);
    NothingRemovedSoFar(quiet, init, cards);
    var quietBefore, before := ApplyPages(quiet, init, cards), ApplyPages(rows, init, cards);
    PageKeys(quietBefore, page, cards);
    PageKeys(before, page, cards);
    if t !in PageUpserts(page, cards) {
      PutAfterRemoval(quiet, rows, init, cards, t);
    }
  }

  /** On a table that already holds the batch's puts and none of its removals, a pass counts nothing. */
  lemma {:induction false} QuietPass(rows: Table, pages: seq<SyncPage>, cards: set<AccountId>)
    requires BatchUpserts(pages, cards) <= rows.Keys && rows.Keys !! BatchRemoves(pages)
    ensures ApplyPages(rows, pages, cards).Keys == rows.Keys
    ensures Summarize(rows, pages, cards).added == 0 && Summarize(rows, pages, cards).removed == 0
  {
    if pages != [] {
      var page := pages[|pages| - 1];
      QuietPass(rows, pages[..|pages| - 1], cards);
      var before := ApplyPages(rows, pages[..|pages| - 1], cards);
      PageKeys(before, page, cards);
    }
  }

  lemma {:induction false} KeysAfter(rows: Table, pages: seq<SyncPage>, cards: set<AccountId>)
    requires BatchUpserts(pages, cards) !! BatchRemoves(pages)
    ensures ApplyPages(rows, pages, cards).Keys == rows.Keys - BatchRemoves(pages) + BatchUpserts(pages, cards)
  {
    if pages != [] {
      var page := pages[|pages| - 1];
      KeysAfter(rows, pages[..|pages| - 1], cards);
      var before := ApplyPages(rows, pages[..|pages| - 1], cards);
      PageKeys(before, page, cards);
    }
  }

  /** A repeated apply reports no added and no removed row exactly when the batch never
      both puts and removes one id. */
  lemma SecondPassCountsNothing(rows: Table, pages: seq<SyncPage>, cards: set<AccountId>)
    ensures var again := Summarize(ApplyPages(rows, pages, cards), pages, cards);
            (again.added == 0 && again.removed == 0) <==> BatchUpserts(pages, cards) !! BatchRemoves(pages)
  {
    var once := ApplyPages(rows, pages, cards);
    var again := Summarize(once, pages, cards);
    if BatchUpserts(pages, cards) !! BatchRemoves(pages) {
      KeysAfter(rows, pages, cards);
      QuietPass(once, pages, cards);
    } else if again.added == 0 && again.removed == 0 {
      var t :| t in BatchUpserts(pages, cards) && t in BatchRemoves(pages);
      PutAfterRemoval(once, rows, pages, cards, t);
      NothingRemovedSoFar(once, pages, cards);
      assert false;
    }
  }
}
