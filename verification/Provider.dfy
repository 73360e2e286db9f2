/** What the model asks of the provider: every page is a patch from the snapshot at the
    requested cursor to the snapshot at the cursor it returns
    (backend/app/services/plaid_gateway.py). */
module Provider {
  import opened Wrappers
  import opened Reconcile

  type ConnId = nat
  type Rows = map<TxnId, PlaidRow>

  /** `snapshot(c, u)` is everything the provider has told about connection `c` up to
      cursor `u`; `accountOf` fixes the account of a transaction for ever; `offers(c, a)`
      says that account `a` belongs to the login behind connection `c`. */
  datatype Provider = Provider(
    snapshot: (ConnId, Cursor) -> Rows,
    accountOf: TxnId -> AccountId,
    offers: (ConnId, AccountId) -> bool)

  function Put(rows: Rows, s: seq<PlaidRow>): Rows {
    if s == [] then rows else Put(rows, s[..|s| - 1])[s[|s| - 1].id := s[|s| - 1]]
  }

  function Drop(rows: Rows, ids: seq<TxnId>): Rows {
    map t | t in rows && t !in ids :: rows[t]
  }

  /** The provider's own reading of a page: added, then modified, then removed. */
  function Patch(rows: Rows, page: SyncPage): Rows {
    Drop(Put(Put(rows, page.added), page.modified), page.removed)
  }

  ghost predicate RowOk(pv: Provider, c: ConnId, row: PlaidRow) {
    row.account == pv.accountOf(row.id) && pv.offers(c, row.account)
  }

  ghost predicate RowsOk(pv: Provider, c: ConnId, s: seq<PlaidRow>) {
    forall i :: 0 <= i < |s| ==> RowOk(pv, c, s[i])
  }

  ghost predicate IdsOk(pv: Provider, c: ConnId, ids: seq<TxnId>) {
    forall t :: t in ids ==> pv.offers(c, pv.accountOf(t))
  }

  ghost predicate SnapshotOk(pv: Provider, c: ConnId, rows: Rows) {
    forall t :: t in rows ==> rows[t].id == t && RowOk(pv, c, rows[t])
  }

  /** A page the provider may answer with when asked from `cursor`. */
  ghost predicate PageOk(pv: Provider, c: ConnId, cursor: Cursor, page: SyncPage) {
    && RowsOk(pv, c, page.added) && RowsOk(pv, c, page.modified) && IdsOk(pv, c, page.removed)
    && Patch(pv.snapshot(c, cursor), page) == pv.snapshot(c, page.next)
  }

  /** Before the first page nothing has been told. */
  ghost predicate StartsEmpty(pv: Provider) {
    forall c: ConnId :: pv.snapshot(c, "") == map[]
  }

  /** What a cache that shows only `cards` should hold of a snapshot. */
  function Visible(rows: Rows, cards: set<AccountId>): Table {
    map t | t in rows && rows[t].account in cards :: Values(rows[t])
  }

  /** The cached rows filed under `cards`. */
  function Own(rows: Table, cards: set<AccountId>): Table {
    map t | t in rows && rows[t].account in cards :: rows[t]
  }

  ghost predicate FiledRight(pv: Provider, rows: Table) {
    forall t :: t in rows ==> rows[t].account == pv.accountOf(t)
  }

  // ---- One page moves the cache from snapshot to snapshot ------------------------------

  lemma {:induction false} PutSnapshot(pv: Provider, c: ConnId, rows: Rows, s: seq<PlaidRow>)
    requires SnapshotOk(pv, c, rows) && RowsOk(pv, c, s)
    ensures SnapshotOk(pv, c, Put(rows, s))
  {
    if s != [] {
      PutSnapshot(pv, c, rows, s[..|s| - 1]);
    }
  }

  lemma {:induction false} VisiblePut(pv: Provider, c: ConnId, rows: Rows, s: seq<PlaidRow>, cards: set<AccountId>)
    requires SnapshotOk(pv, c, rows) && RowsOk(pv, c, s)
    ensures Visible(Put(rows, s), cards) == UpsertAll(Visible(rows, cards), s, cards)
  {
    if s != [] {
      var init := s[..|s| - 1];
      VisiblePut(pv, c, rows, init, cards);
      PutSnapshot(pv, c, rows, init);
      assert RowOk(pv, c, s[|s| - 1]);
      VisibleRow(pv, c, Put(rows, init), s[|s| - 1], cards);
    }
  }

  lemma VisibleRow(pv: Provider, c: ConnId, rows: Rows, row: PlaidRow, cards: set<AccountId>)
    requires SnapshotOk(pv, c, rows) && RowOk(pv, c, row)
    ensures Visible(rows[row.id := row], cards) == Upsert(Visible(rows, cards), row, cards)
  {
  }

  /** Patching the snapshot and then hiding foreign accounts is applying the page to the visible rows. */
  lemma VisiblePage(pv: Provider, c: ConnId, rows: Rows, page: SyncPage, cards: set<AccountId>)
    requires SnapshotOk(pv, c, rows)
    requires RowsOk(pv, c, page.added) && RowsOk(pv, c, page.modified)
    ensures Visible(Patch(rows, page), cards) == ApplyPage(Visible(rows, cards), page, cards)
    ensures SnapshotOk(pv, c, Patch(rows, page))
  {
    VisiblePut(pv, c, rows, page.added, cards);
    PutSnapshot(pv, c, rows, page.added);
    var added := Put(rows, page.added);
    VisiblePut(pv, c, added, page.modified, cards);
    PutSnapshot(pv, c, added, page.modified);
    var all := Put(added, page.modified);
    assert Visible(Drop(all, page.removed), cards) == Remove(Visible(all, cards), page.removed);
  }

  lemma {:induction false} OwnUpserts(rows: Table, s: seq<PlaidRow>, cards: set<AccountId>, mine: set<AccountId>,
                                      pv: Provider, c: ConnId)
    requires FiledRight(pv, rows) && RowsOk(pv, c, s)
    requires mine == cards || mine !! cards
    ensures FiledRight(pv, UpsertAll(rows, s, cards))
    ensures Own(UpsertAll(rows, s, cards), mine) ==
            if mine == cards then UpsertAll(Own(rows, mine), s, cards) else Own(rows, mine)
  {
    if s != [] {
      var init, last := s[..|s| - 1], s[|s| - 1];
      OwnUpserts(rows, init, cards, mine, pv, c);
      assert RowOk(pv, c, last);
      var before := UpsertAll(rows, init, cards);
      if mine == cards {
        assert Own(Upsert(before, last, cards), mine) == Upsert(Own(before, mine), last, cards);
      } else {
        assert Own(Upsert(before, last, cards), mine) == Own(before, mine);
      }
    }
  }

  /** Applying a page of one connection changes that connection's rows as if they were alone,
      and no row filed under cards another connection shows. */
  lemma OwnPage(rows: Table, page: SyncPage, cards: set<AccountId>, mine: set<AccountId>, pv: Provider, c: ConnId)
    requires FiledRight(pv, rows)
    requires RowsOk(pv, c, page.added) && RowsOk(pv, c, page.modified) && IdsOk(pv, c, page.removed)
    requires mine == cards || (forall a :: a in mine ==> !pv.offers(c, a))
    requires forall a :: a in cards ==> pv.offers(c, a)
    ensures FiledRight(pv, ApplyPage(rows, page, cards))
    ensures Own(ApplyPage(rows, page, cards), mine) ==
            if mine == cards then ApplyPage(Own(rows, mine), page, cards) else Own(rows, mine)
  {
    var added := UpsertAll(rows, page.added, cards);
    var all := UpsertAll(added, page.modified, cards);
    OwnUpserts(rows, page.added, cards, mine, pv, c);
    OwnUpserts(added, page.modified, cards, mine, pv, c);
    if mine == cards {
      assert Own(Remove(all, page.removed), mine) == Remove(Own(all, mine), page.removed);
    } else {
      assert Own(Remove(all, page.removed), mine) == Own(all, mine);
    }
  }

  // ---- Chains of pages -----------------------------------------------------------------

  /** The cursor after the last page. */
  function EndOf(start: Cursor, pages: seq<SyncPage>): Cursor {
    if pages == [] then start else pages[|pages| - 1].next
  }

  /** Every page answers a request at the cursor the page before it returned. */
  ghost predicate Chain(pv: Provider, c: ConnId, start: Cursor, pages: seq<SyncPage>) {
    pages == [] ||
    (var init := pages[..|pages| - 1];
     Chain(pv, c, start, init) && PageOk(pv, c, EndOf(start, init), pages[|pages| - 1]))
  }

  lemma ChainExtend(pv: Provider, c: ConnId, start: Cursor, pages: seq<SyncPage>, page: SyncPage)
    requires Chain(pv, c, start, pages) && PageOk(pv, c, EndOf(start, pages), page)
    ensures Chain(pv, c, start, pages + [page])
    ensures EndOf(start, pages + [page]) == page.next
  {
  }

  /** A chain applied to a cache that shows the snapshot at its start leaves a cache that
      shows the snapshot at its end, and leaves every other connection's rows alone. */
  lemma {:induction false} ChainMovesCache(pv: Provider, c: ConnId, start: Cursor, pages: seq<SyncPage>,
                                           rows: Table, cards: set<AccountId>, mine: set<AccountId>)
    requires FiledRight(pv, rows) && Chain(pv, c, start, pages)
    requires SnapshotOk(pv, c, pv.snapshot(c, start))
    requires forall a :: a in cards ==> pv.offers(c, a)
    requires mine == cards || (forall a :: a in mine ==> !pv.offers(c, a))
    requires mine == cards ==> Own(rows, mine) == Visible(pv.snapshot(c, start), cards)
    ensures FiledRight(pv, ApplyPages(rows, pages, cards))
    ensures SnapshotOk(pv, c, pv.snapshot(c, EndOf(start, pages)))
    ensures Own(ApplyPages(rows, pages, cards), mine) ==
            if mine == cards then Visible(pv.snapshot(c, EndOf(start, pages)), cards) else Own(rows, mine)
  {
    if pages != [] {
      var init, page := pages[..|pages| - 1], pages[|pages| - 1];
      ChainMovesCache(pv, c, start, init, rows, cards, mine);
      var at := EndOf(start, init);
      VisiblePage(pv, c, pv.snapshot(c, at), page, cards);
      OwnPage(ApplyPages(rows, init, cards), page, cards, mine, pv, c);
    }
  }
}
