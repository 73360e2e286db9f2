/** The trigram index that triggers keep beside the transactions table
    (backend/alembic/versions/0002_transaction_search.py). */
module Trigrams {
  import opened Wrappers
  import opened Matching

  type RowId = int

  /** The indexed columns of one row: merchant, name, statement text and search text. */
  type Columns = seq<Option<string>>

  /** One entry of a posting list: this trigram starts at this position of this column. */
  datatype Posting = Posting(row: RowId, column: int, position: int, trigram: string)

  function Fold(fold: char -> char, s: string): string {
    seq(|s|, i requires 0 <= i < |s| => fold(s[i]))
  }

  /** The entries of one row: the tokenizer folds the text and cuts it at every position. */
  function Entries(fold: char -> char, row: RowId, columns: Columns): set<Posting> {
    set c, p | 0 <= c < |columns| && columns[c].Some? && 0 <= p <= |columns[c].value| - 3 :: EntryAt(fold, row, columns, c, p)
  }

  function EntryAt(fold: char -> char, row: RowId, columns: Columns, c: int, p: int): Posting
    requires 0 <= c < |columns| && columns[c].Some? && 0 <= p <= |columns[c].value| - 3
  {
    Posting(row, c, p, Fold(fold, columns[c].value)[p..p + 3])
  }

  /** The index rebuilt from the table. */
  function Rebuilt(fold: char -> char, rows: map<RowId, Columns>): set<Posting> {
    set r, e | r in rows && e in Entries(fold, r, rows[r]) :: e
  }

  // ---- Changes to the table ----------------------------------------------------------------------

  datatype Change = InsertRow(row: RowId, columns: Columns) | UpdateRow(row: RowId, columns: Columns) | DeleteRow(row: RowId)

  /** The table with its index, and the three triggers. The index stores no text of its own: to
      delete a row's entries a trigger has to hand it the old column values. */
  class SearchIndex {
    var rows: map<RowId, Columns>
    var postings: set<Posting>
    const fold: char -> char

    ghost predicate Valid()
      reads this
    {
      postings == Rebuilt(fold, rows)
    }

    constructor (fold: char -> char, existing: map<RowId, Columns>)
      ensures Valid() && rows == existing && this.fold == fold
    {
      this.fold := fold;
      rows := existing;
      postings := Rebuilt(fold, existing);
    }

    method IndexInsert(row: RowId, columns: Columns)
      modifies this
      ensures postings == old(postings) + Entries(fold, row, columns) && rows == old(rows)
    {
      postings := postings + Entries(fold, row, columns);
    }

    method IndexDelete(row: RowId, columns: Columns)
      modifies this
      ensures postings == old(postings) - Entries(fold, row, columns) && rows == old(rows)
    {
      postings := postings - Entries(fold, row, columns);
    }

    /** What the table and its index hold. */
    ghost function View(): Indexed
      reads this
    {
      Indexed(rows, postings)
    }

    method Insert(row: RowId, columns: Columns)
      requires Valid()
      modifies this
      ensures Valid() && View() == Triggered(fold, old(View()), InsertRow(row, columns))
    {
      if row !in rows {
        EntriesApart(fold, rows, row, columns);
        rows := rows[row := columns];
        IndexInsert(row, columns);
      }
    }

    method Delete(row: RowId)
      requires Valid()
      modifies this
      ensures Valid() && View() == Triggered(fold, old(View()), DeleteRow(row))
    {
      if row in rows {
        var was := rows[row];
        EntriesApart(fold, rows - {row}, row, was);
        assert (rows - {row})[row := was] == rows;
        rows := rows - {row};
        IndexDelete(row, was);
      } else {
        assert rows - {row} == rows;
      }
    }

    method Update(row: RowId, columns: Columns)
      requires Valid()
      modifies this
      ensures Valid() && View() == Triggered(fold, old(View()), UpdateRow(row, columns))
    {
      if row in rows {
        var was := rows[row];
        ghost var others := rows - {row};
        EntriesApart(fold, others, row, was);
        EntriesApart(fold, others, row, columns);
        assert others[row := was] == rows && others[row := columns] == rows[row := columns];
        rows := rows[row := columns];
        IndexDelete(row, was);
        IndexInsert(row, columns);
      }
    }
  }

  /** A row's entries are its own: adding the row adds exactly them. */
  lemma EntriesApart(fold: char -> char, rows: map<RowId, Columns>, row: RowId, columns: Columns)
    requires row !in rows
    ensures Rebuilt(fold, rows[row := columns]) == Rebuilt(fold, rows) + Entries(fold, row, columns)
    ensures Rebuilt(fold, rows) !! Entries(fold, row, columns)
  {
    var more := rows[row := columns];
    forall e | e in Rebuilt(fold, rows) + Entries(fold, row, columns)
      ensures e in Rebuilt(fold, more)
    {
      if e in Rebuilt(fold, rows) {
        var r :| r in rows && e in Entries(fold, r, rows[r]);
        assert more[r] == rows[r];
      } else {
        assert more[row] == columns;
      }
    }
    forall e | e in Rebuilt(fold, rows)
      ensures e.row in rows
    {
    }
  }

  // ---- The triggers over any sequence of changes ---------------------------------------------------

  datatype Indexed = Indexed(rows: map<RowId, Columns>, postings: set<Posting>)

  /** What one change does to table and index through the triggers. Rows are inserted under a new
      row id; changing or deleting a missing row touches nothing. */
  function Triggered(fold: char -> char, t: Indexed, change: Change): Indexed {
    match change
    case InsertRow(row, columns) =>
      if row in t.rows then t
      else Indexed(t.rows[row := columns], t.postings + Entries(fold, row, columns))
    case UpdateRow(row, columns) =>
      if row !in t.rows then t
      else Indexed(t.rows[row := columns], t.postings - Entries(fold, row, t.rows[row]) + Entries(fold, row, columns))
    case DeleteRow(row) =>
      if row !in t.rows then t
      else Indexed(t.rows - {row}, t.postings - Entries(fold, row, t.rows[row]))
  }

  function AfterChanges(fold: char -> char, t: Indexed, changes: seq<Change>): Indexed {
    if changes == [] then t else Triggered(fold, AfterChanges(fold, t, changes[..|changes| - 1]), changes[|changes| - 1])
  }

  lemma TriggeredKeeps(fold: char -> char, t: Indexed, change: Change)
    requires t.postings == Rebuilt(fold, t.rows)
    ensures Triggered(fold, t, change).postings == Rebuilt(fold, Triggered(fold, t, change).rows)
  {
    if change.InsertRow? {
      if change.row !in t.rows {
        EntriesApart(fold, t.rows, change.row, change.columns);
      }
    } else if change.row in t.rows {
      var others, was := t.rows - {change.row}, t.rows[change.row];
      EntriesApart(fold, others, change.row, was);
      assert others[change.row := was] == t.rows;
      if change.UpdateRow? {
        EntriesApart(fold, others, change.row, change.columns);
        assert others[change.row := change.columns] == t.rows[change.row := change.columns];
      }
    }
  }

  /** After any sequence of inserts, updates and deletes the posting lists are those that a
      rebuild from the table would give. */
  lemma {:induction false} IndexFollowsTable(fold: char -> char, rows: map<RowId, Columns>, changes: seq<Change>)
    ensures var after := AfterChanges(fold, Indexed(rows, Rebuilt(fold, rows)), changes);
            after.postings == Rebuilt(fold, after.rows)
    decreases |changes|
  {
    if changes != [] {
      IndexFollowsTable(fold, rows, changes[..|changes| - 1]);
      TriggeredKeeps(fold, AfterChanges(fold, Indexed(rows, Rebuilt(fold, rows)), changes[..|changes| - 1]), changes[|changes| - 1]);
    }
  }

  // ---- Phrase search ------------------------------------------------------------------------------------

  predicate TrigramAt(postings: set<Posting>, row: RowId, column: int, position: int, q: string, i: int) {
    0 <= i <= |q| - 3 ==> Posting(row, column, position + i, q[i..i + 3]) in postings
  }

  /** The trigrams of the query stand one after the other from this position on. */
  ghost predicate PhraseAt(postings: set<Posting>, row: RowId, column: int, position: int, q: string) {
    forall i :: TrigramAt(postings, row, column, position, q, i)
  }

  /** A phrase query looks only at posting lists. */
  ghost predicate PhraseMatch(fold: char -> char, postings: set<Posting>, row: RowId, q: string) {
    exists c, p :: PhraseAt(postings, row, c, p, Fold(fold, q))
  }

  /** Some indexed column contains the query, both folded. */
  predicate ColumnContains(fold: char -> char, columns: Columns, q: string) {
    exists c :: 0 <= c < |columns| && columns[c].Some? && Contains(Fold(fold, columns[c].value), Fold(fold, q))
  }

  lemma PostingMeans(fold: char -> char, rows: map<RowId, Columns>, e: Posting)
    ensures e in Rebuilt(fold, rows) <==>
            && e.row in rows && 0 <= e.column < |rows[e.row]| && rows[e.row][e.column].Some?
            && 0 <= e.position <= |rows[e.row][e.column].value| - 3
            && e.trigram == Fold(fold, rows[e.row][e.column].value)[e.position..e.position + 3]
  {
    if e.row in rows && 0 <= e.column < |rows[e.row]| && rows[e.row][e.column].Some?
       && 0 <= e.position <= |rows[e.row][e.column].value| - 3
       && e.trigram == Fold(fold, rows[e.row][e.column].value)[e.position..e.position + 3] {
      assert e == EntryAt(fold, e.row, rows[e.row], e.column, e.position);
      assert e in Entries(fold, e.row, rows[e.row]);
    }
  }

  predicate PieceAt(text: string, q: string, p: int, i: int) {
    0 <= i <= |q| - 3 ==> 0 <= p + i && p + i + 3 <= |text| && text[p + i..p + i + 3] == q[i..i + 3]
  }

  /** Overlapping pieces of three that all agree make the whole agree. */
  lemma PiecesMakeWhole(text: string, q: string, p: int)
    requires |q| >= 3 && forall i :: PieceAt(text, q, p, i)
    ensures ContainsAt(text, q, p)
  {
    assert PieceAt(text, q, p, 0) && PieceAt(text, q, p, |q| - 3);
    forall k | 0 <= k < |q|
      ensures text[p + k] == q[k]
    {
      var i := if k <= |q| - 3 then k else |q| - 3;
      assert PieceAt(text, q, p, i);
      assert text[p + i..p + i + 3][k - i] == q[i..i + 3][k - i];
    }
    assert text[p..p + |q|] == q;
  }

  /** For a query of three characters or more, a phrase match on the posting lists of the table
      finds a row exactly when one of its columns contains the query. */
  lemma PhraseIsContainment(fold: char -> char, rows: map<RowId, Columns>, row: RowId, q: string)
    requires |q| >= 3 && row in rows
    ensures PhraseMatch(fold, Rebuilt(fold, rows), row, q) <==> ColumnContains(fold, rows[row], q)
  {
    var postings, query := Rebuilt(fold, rows), Fold(fold, q);
    if PhraseMatch(fold, postings, row, q) {
      var c, p :| PhraseAt(postings, row, c, p, query);
      PhraseContains(fold, rows, row, c, p, query);
    }
    if ColumnContains(fold, rows[row], q) {
      var c :| 0 <= c < |rows[row]| && rows[row][c].Some? && Contains(Fold(fold, rows[row][c].value), query);
      ContainedPhrase(fold, rows, row, c, query);
    }
  }

  lemma ContainedPhrase(fold: char -> char, rows: map<RowId, Columns>, row: RowId, c: int, q: string)
    requires |q| >= 3 && row in rows && 0 <= c < |rows[row]| && rows[row][c].Some?
    requires Contains(Fold(fold, rows[row][c].value), q)
    ensures exists p :: PhraseAt(Rebuilt(fold, rows), row, c, p, q)
  {
    var postings, text := Rebuilt(fold, rows), Fold(fold, rows[row][c].value);
    var p :| 0 <= p <= |text| && ContainsAt(text, q, p);
    forall i
      ensures TrigramAt(postings, row, c, p, q, i)
    {
      if 0 <= i <= |q| - 3 {
        assert text[p..p + |q|][i..i + 3] == text[p + i..p + i + 3];
        PostingMeans(fold, rows, Posting(row, c, p + i, q[i..i + 3]));
      }
    }
    assert PhraseAt(postings, row, c, p, q);
  }

  lemma PhraseContains(fold: char -> char, rows: map<RowId, Columns>, row: RowId, c: int, p: int, q: string)
    requires |q| >= 3 && row in rows && PhraseAt(Rebuilt(fold, rows), row, c, p, q)
    ensures 0 <= c < |rows[row]| && rows[row][c].Some? && Contains(Fold(fold, rows[row][c].value), q)
  {
    var postings := Rebuilt(fold, rows);
    assert TrigramAt(postings, row, c, p, q, 0);
    PostingMeans(fold, rows, Posting(row, c, p + 0, q[0..3]));
    var text := Fold(fold, rows[row][c].value);
    forall i
      ensures PieceAt(text, q, p, i)
    {
      if 0 <= i <= |q| - 3 {
        assert TrigramAt(postings, row, c, p, q, i);
        PostingMeans(fold, rows, Posting(row, c, p + i, q[i..i + 3]));
      }
    }
    PiecesMakeWhole(text, q, p);
  }
}
