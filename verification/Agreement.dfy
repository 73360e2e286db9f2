/** Saved aggregates and alert totals for the same keyword. A saved aggregate searches all indexed
    columns, the alert scan reads only the search text made of them; this says for which rows, and
    for which sums, the two agree (backend/app/services/aggregate_service.py,
    limitation_service.py, sync_service.py). */
module Agreement {
  import opened Wrappers
  import opened Ordering
  import opened Matching
  import opened Folding
  import opened Trigrams
  import opened Prefilter
  import opened Alerts
  import opened Summaries

  /** A row as the sync stores it: merchant, name and statement text, and the search text made of them. */
  predicate Stored(u: Unicode, row: Row) {
    |row.raw| == 3 && row.raw[1].Some? && row.text == SearchText(u, row.raw)
  }

  /** The tokenizer keeps normalised characters apart. */
  ghost predicate TokenizerOk(u: Unicode, fold: char -> char) {
    forall a, b :: Closed(u, a) && Closed(u, b) && fold(a) == fold(b) ==> a == b
  }

  /** What is stored for a keyword: the keyword normalised. */
  function Normalized(u: Unicode, keyword: string): string {
    NormalizeQuery(u, keyword).normalized
  }

  /** The row counts for the saved aggregate of a keyword, but not for a rule with it. */
  predicate OnlySaved(u: Unicode, fold: char -> char, keyword: string, row: Row) {
    Found(u, fold, Normalized(u, keyword), row) && !Contains(row.text, Normalized(u, keyword))
  }

  // ---- Normalising twice ---------------------------------------------------------------------------

  /** Evaluating an aggregate normalises its stored keyword again. That changes nothing exactly as
      long as folding did not make the keyword longer than a query may be. */
  lemma NormalizingAgain(u: Unicode, keyword: string)
    requires TablesOk(u)
    ensures var once := Normalized(u, keyword);
            var again := Normalized(u, once);
            again <= once && (again == once <==> |once| <= 100)
  {
    var once := Normalized(u, keyword);
    NormalizedIsWellFormed(u, keyword);
    StripTidy(u.space, once);
    NormalPrefix(u, once, |once|);
    assert once[..|once|] == once;
    var m := if |once| <= 100 then |once| else 100;
    NormalPrefix(u, once, m);
    assert Cut(once, 100) == once[..m];
    CollapsePrefix(u.space, once, m);
    if |once| <= 100 {
      CollapseTidy(u.space, once);
    } else {
      CollapseShortens(u.space, once[..m]);
    }
  }

  lemma {:induction false} WordsShorten(space: char -> bool, word: string, s: string)
    ensures |JoinWords(WordsFrom(space, word, s))| <= |word| + |s|
    decreases |s|
  {
    if s != [] {
      if space(s[0]) {
        WordsShorten(space, [], s[1..]);
        var more := WordsFrom(space, [], s[1..]);
        if word != [] {
          assert ([word] + more)[1..] == more;
        } else {
          assert [] + more == more;
        }
      } else {
        WordsShorten(space, word + [s[0]], s[1..]);
      }
    }
  }

  lemma CollapseShortens(space: char -> bool, s: string)
    ensures |Collapse(space, s)| <= |s|
  {
    WordsShorten(space, [], s);
  }

  // ---- One row ----------------------------------------------------------------------------------------

  lemma ContainsFolded(fold: char -> char, text: string, q: string)
    requires forall i, j :: 0 <= i < |text| && 0 <= j < |q| && fold(text[i]) == fold(q[j]) ==> text[i] == q[j]
    ensures Contains(Fold(fold, text), Fold(fold, q)) <==> Contains(text, q)
  {
    forall i | 0 <= i && i + |q| <= |text|
      ensures ContainsAt(Fold(fold, text), Fold(fold, q), i) <==> ContainsAt(text, q, i)
    {
      var piece, other := text[i..i + |q|], Fold(fold, text)[i..i + |q|];
      if other == Fold(fold, q) {
        assert forall k :: 0 <= k < |q| ==> other[k] == fold(text[i + k]) && other[k] == fold(q[k]);
        assert piece == q;
      }
      if piece == q {
        assert forall k :: 0 <= k < |q| ==> other[k] == fold(piece[k]);
        assert other == Fold(fold, q);
      }
    }
    if i :| 0 <= i <= |text| && ContainsAt(text, q, i) {
      assert ContainsAt(Fold(fold, text), Fold(fold, q), i);
    }
    if i :| 0 <= i <= |Fold(fold, text)| && ContainsAt(Fold(fold, text), Fold(fold, q), i) {
      assert ContainsAt(text, q, i);
    }
  }

  lemma ColumnsSplit(fold: char -> char, raw: seq<Option<string>>, text: string, q: string)
    ensures ColumnContains(fold, raw + [Some(text)], q) <==>
            ColumnContains(fold, raw, q) || Contains(Fold(fold, text), Fold(fold, q))
  {
    var all := raw + [Some(text)];
    assert forall c :: 0 <= c < |raw| ==> all[c] == raw[c];
    if Contains(Fold(fold, text), Fold(fold, q)) {
      assert all[|raw|] == Some(text) && all[|raw|].value == text;
    }
    if ColumnContains(fold, raw, q) {
      var c :| 0 <= c < |raw| && raw[c].Some? && Contains(Fold(fold, raw[c].value), Fold(fold, q));
      assert all[c].Some? && all[c].value == raw[c].value;
    }
  }

  /** Which rows a search finds: those whose search text contains the query, and for a query long
      enough for the index also those with the query in a column as it was sent. */
  lemma FoundExactly(u: Unicode, fold: char -> char, keyword: string, row: Row)
    requires TablesOk(u) && TokenizerOk(u, fold) && Stored(u, row)
    ensures var q := Normalized(u, keyword);
            Found(u, fold, keyword, row) <==> Contains(row.text, q) || (|q| >= 3 && ColumnContains(fold, row.raw, q))
  {
    var query := NormalizeQuery(u, keyword);
    NormalizedIsWellFormed(u, keyword);
    SearchTextIsNormal(u, row.raw);
    SearchIsContainment(u, fold, query, ColumnsOf(row), row.text);
    ContainsFolded(fold, row.text, query.normalized);
    ColumnsSplit(fold, row.raw, row.text, query.normalized);
    if query.isBlank {
      assert ContainsAt(row.text, query.normalized, 0);
    }
  }

  /** Row by row, for a keyword that is not longer than a query may be: saved aggregate and rule
      disagree exactly on the rows that have the keyword in a column as it was sent, but not in
      their search text. */
  lemma DisagreesExactly(u: Unicode, fold: char -> char, keyword: string, row: Row)
    requires TablesOk(u) && TokenizerOk(u, fold) && Stored(u, row)
    requires |Normalized(u, keyword)| <= 100
    ensures var q := Normalized(u, keyword);
            && (Contains(row.text, q) ==> Found(u, fold, q, row))
            && (OnlySaved(u, fold, keyword, row) <==>
                |q| >= 3 && ColumnContains(fold, row.raw, q) && !Contains(row.text, q))
  {
    NormalizingAgain(u, keyword);
    FoundExactly(u, fold, Normalized(u, keyword), row);
  }

  /** A rule never counts a row that the saved aggregate leaves out, however long the keyword is. */
  lemma ScannedIsFound(u: Unicode, fold: char -> char, keyword: string, row: Row)
    requires TablesOk(u) && TokenizerOk(u, fold) && Stored(u, row)
    requires Contains(row.text, Normalized(u, keyword))
    ensures Found(u, fold, Normalized(u, keyword), row)
  {
    var once := Normalized(u, keyword);
    NormalizingAgain(u, keyword);
    ContainsPrefix(row.text, once, Normalized(u, once));
    FoundExactly(u, fold, once, row);
  }

  // ---- When a row cannot disagree -----------------------------------------------------------------------

  /** Every character of a column that the tokenizer takes for one of the query becomes exactly that
      one in the search text, and is no combining mark. */
  predicate Aligned(u: Unicode, fold: char -> char, raw: seq<Option<string>>, q: string) {
    forall k, i, j :: 0 <= k < |raw| && raw[k].Some? && 0 <= i < |raw[k].value| && 0 <= j < |q| ==>
      (fold(raw[k].value[i]) == fold(q[j]) ==> Reads(u, raw[k].value[i], q[j]))
  }

  lemma AlignedIsSearchable(u: Unicode, fold: char -> char, raw: seq<Option<string>>, q: string)
    requires Aligned(u, fold, raw, q) && Tidy(u.space, q) && q != [] && ColumnContains(fold, raw, q)
    ensures Contains(SearchText(u, raw), q)
  {
    var k :| 0 <= k < |raw| && raw[k].Some? && Contains(Fold(fold, raw[k].value), Fold(fold, q));
    var column := raw[k].value;
    var p :| 0 <= p <= |column| && ContainsAt(Fold(fold, column), Fold(fold, q), p);
    AlignedReads(u, fold, raw, k, p, q);
    PieceIsSearchable(u, raw, k, p, q);
  }

  lemma AlignedReads(u: Unicode, fold: char -> char, raw: seq<Option<string>>, k: nat, p: nat, q: string)
    requires Aligned(u, fold, raw, q) && k < |raw| && raw[k].Some? && p <= |raw[k].value|
    requires ContainsAt(Fold(fold, raw[k].value), Fold(fold, q), p)
    ensures p + |q| <= |raw[k].value| && ReadsAs(u, raw[k].value[p..p + |q|], q)
  {
    var column := raw[k].value;
    forall i | 0 <= i < |q|
      ensures Reads(u, column[p..p + |q|][i], q[i])
    {
      assert Fold(fold, column)[p..p + |q|][i] == Fold(fold, q)[i];
      assert fold(raw[k].value[p + i]) == fold(q[i]);
    }
  }

  lemma AlignedRowAgrees(u: Unicode, fold: char -> char, keyword: string, row: Row)
    requires TablesOk(u) && TokenizerOk(u, fold) && Stored(u, row)
    requires |Normalized(u, keyword)| <= 100 && Aligned(u, fold, row.raw, Normalized(u, keyword))
    ensures !OnlySaved(u, fold, keyword, row)
  {
    var q := Normalized(u, keyword);
    DisagreesExactly(u, fold, keyword, row);
    NormalizedIsWellFormed(u, keyword);
    if |q| >= 3 && ColumnContains(fold, row.raw, q) {
      AlignedIsSearchable(u, fold, row.raw, q);
    }
  }

  predicate Ascii(s: string) {
    forall i :: 0 <= i < |s| ==> (s[i] as int) < 128
  }

  predicate AsciiRaw(raw: seq<Option<string>>) {
    forall k :: 0 <= k < |raw| && raw[k].Some? ==> Ascii(raw[k].value)
  }

  /** What the tables say of ASCII: nothing decomposes, nothing is a mark, capitals fold to small
      letters, and no letter is white space. */
  ghost predicate AsciiOk(u: Unicode, fold: char -> char) {
    forall c: char :: c as int < 128 ==> AsciiChar(u, fold, c)
  }

  predicate AsciiChar(u: Unicode, fold: char -> char, c: char) {
    u.decomposition(c) == [c] && u.combining(c) == 0 && u.folding(c) == [Lower(c)] && fold(c) == Lower(c)
    && (u.space(Lower(c)) <==> u.space(c))
  }

  /** Columns in plain ASCII are aligned with every keyword. */
  lemma AsciiIsAligned(u: Unicode, fold: char -> char, raw: seq<Option<string>>, keyword: string)
    requires TablesOk(u) && TokenizerOk(u, fold) && AsciiOk(u, fold) && AsciiRaw(raw)
    ensures Aligned(u, fold, raw, Normalized(u, keyword))
  {
    var q := Normalized(u, keyword);
    NormalizedIsWellFormed(u, keyword);
    forall k, i, j | 0 <= k < |raw| && raw[k].Some? && 0 <= i < |raw[k].value| && 0 <= j < |q| && fold(raw[k].value[i]) == fold(q[j])
      ensures Reads(u, raw[k].value[i], q[j])
    {
      var c := raw[k].value[i];
      assert Ascii(raw[k].value);
      assert AsciiChar(u, fold, c) && AsciiChar(u, fold, Lower(c));
      assert Closed(u, Lower(c)) && Closed(u, q[j]);
    }
  }

  function Small(s: string): string {
    if s == [] then [] else [Lower(s[0])] + Small(s[1..])
  }

  lemma {:induction false} SmallIsFolded(u: Unicode, fold: char -> char, s: string)
    requires AsciiOk(u, fold) && Ascii(s)
    ensures Casefold(u, s) == Small(s) && |Small(s)| == |s|
    ensures forall i :: 0 <= i < |s| ==> u.space(Small(s)[i]) == u.space(s[i]) && (s[i] == ' ' ==> Small(s)[i] == ' ')
  {
    if s != [] {
      assert AsciiChar(u, fold, s[0]);
      SmallIsFolded(u, fold, s[1..]);
    }
  }

  lemma AsciiStays(u: Unicode, fold: char -> char, s: string)
    requires AsciiOk(u, fold) && Ascii(s)
    ensures Nfkd(u, s) == s
  {
    forall i | 0 <= i < |s|
      ensures u.decomposition(s[i]) == [s[i]] && u.combining(s[i]) == 0
    {
      assert AsciiChar(u, fold, s[i]);
    }
    MapFixed(u.decomposition, s);
    CanonicalStays(u, s);
  }

  /** What becomes of an ASCII query that is trimmed and single-spaced: its first hundred characters in
      small letters. */
  lemma AsciiQueries(u: Unicode, fold: char -> char, query: string)
    requires TablesOk(u) && AsciiOk(u, fold) && Ascii(query) && Tidy(u.space, query)
    ensures |query| <= 100 ==> Normalized(u, query) == Small(query)
    ensures |query| > 100 && !u.space(query[99]) ==> Normalized(u, query) == Small(query[..100])
  {
    StripTidy(u.space, query);
    AsciiStays(u, fold, query);
    if |query| <= 100 {
      SmallIsTidy(u, fold, query);
    } else if !u.space(query[99]) {
      SmallIsTidy(u, fold, query[..100]);
    }
  }

  lemma SmallIsTidy(u: Unicode, fold: char -> char, s: string)
    requires AsciiOk(u, fold) && Ascii(s) && Tidy(u.space, s)
    ensures Collapse(u.space, Casefold(u, s)) == Small(s)
  {
    SmallIsFolded(u, fold, s);
    CollapseTidy(u.space, Small(s));
  }

  // ---- Sums over rows -----------------------------------------------------------------------------------

  /** The net a saved aggregate reports for a stored keyword on a card. */
  function SavedNet(u: Unicode, fold: char -> char, keyword: string, card: CardId, rows: seq<Row>): int {
    SummaryOf(FoundOn(u, fold, rows, keyword, card)).net
  }

  predicate AllTimeTotal(rule: Rule) {
    rule.metric.NetTotal? && rule.window.AllTime?
  }

  /** What the rows contribute that only the saved aggregate counts. */
  function OnlySavedNet(u: Unicode, fold: char -> char, keyword: string, card: CardId, rows: seq<Row>): int {
    Sum(Fetched(rows, (row: Row) => row.card == card && OnlySaved(u, fold, keyword, row)), NetAmount)
  }

  ghost predicate AllStored(u: Unicode, rows: seq<Row>) {
    forall i :: 0 <= i < |rows| ==> Stored(u, rows[i])
  }

  lemma {:induction false} TotalsDiffer(at: Setting, fold: char -> char, rule: Rule, card: CardId, rows: seq<Row>)
    requires TablesOk(at.u) && TokenizerOk(at.u, fold) && AllStored(at.u, rows) && AllTimeTotal(rule)
    ensures SavedNet(at.u, fold, Normalized(at.u, rule.keyword), card, rows) ==
            TallyOf(rule, card, at, rows).total + OnlySavedNet(at.u, fold, rule.keyword, card, rows)
  {
    if rows != [] {
      var init, last := rows[..|rows| - 1], rows[|rows| - 1];
      assert rows == init + [last];
      assert AllStored(at.u, init);
      TotalsDiffer(at, fold, rule, card, init);
      OneMoreRow(at, fold, rule, card, init, last);
    }
  }

  /** A sum over one more row of those that are kept. */
  lemma SumKept(rows: seq<Row>, row: Row, keep: Row -> bool)
    ensures Sum(Fetched(rows + [row], keep), NetAmount) == Sum(Fetched(rows, keep), NetAmount) + (if keep(row) then NetAmount(row) else 0)
  {
    FetchedLast(rows, row, keep);
    SumLast(Fetched(rows, keep), row, NetAmount);
    assert Fetched(rows, keep) + [] == Fetched(rows, keep);
  }

  lemma OneMoreRow(at: Setting, fold: char -> char, rule: Rule, card: CardId, rows: seq<Row>, row: Row)
    requires TablesOk(at.u) && TokenizerOk(at.u, fold) && Stored(at.u, row) && AllTimeTotal(rule)
    requires SavedNet(at.u, fold, Normalized(at.u, rule.keyword), card, rows) ==
             TallyOf(rule, card, at, rows).total + OnlySavedNet(at.u, fold, rule.keyword, card, rows)
    ensures SavedNet(at.u, fold, Normalized(at.u, rule.keyword), card, rows + [row]) ==
            TallyOf(rule, card, at, rows + [row]).total + OnlySavedNet(at.u, fold, rule.keyword, card, rows + [row])
  {
    var u, q := at.u, Normalized(at.u, rule.keyword);
    SumKept(rows, row, (r: Row) => r.card == card && Found(u, fold, q, r));
    SumKept(rows, row, (r: Row) => r.card == card && OnlySaved(u, fold, rule.keyword, r));
    TallyLast(rule, card, at, rows, row);
    if Contains(row.text, q) {
      ScannedIsFound(u, fold, rule.keyword, row);
    }
  }

  lemma {:induction false} NothingKept(rows: seq<Row>, keep: Row -> bool)
    requires forall i :: 0 <= i < |rows| ==> !keep(rows[i])
    ensures Fetched(rows, keep) == []
  {
    if rows != [] {
      NothingKept(rows[..|rows| - 1], keep);
    }
  }

  /** No row of the card disagrees. */
  ghost predicate NoneOnlySaved(u: Unicode, fold: char -> char, keyword: string, card: CardId, rows: seq<Row>) {
    forall i :: 0 <= i < |rows| && rows[i].card == card && IsUsd(rows[i]) ==> !OnlySaved(u, fold, keyword, rows[i])
  }

  /** The saved net of a keyword and card is the total of an all-time rule with that keyword,
      whenever every column of the card's rows is aligned with the keyword: a check of the stored
      columns that plain ASCII always passes. */
  lemma SavedNetIsAlertTotal(at: Setting, fold: char -> char, rule: Rule, card: CardId, rows: seq<Row>)
    requires TablesOk(at.u) && TokenizerOk(at.u, fold) && AllStored(at.u, rows) && AllTimeTotal(rule)
    requires |Normalized(at.u, rule.keyword)| <= 100
    requires forall i :: 0 <= i < |rows| && rows[i].card == card ==> Aligned(at.u, fold, rows[i].raw, Normalized(at.u, rule.keyword))
    ensures SavedNet(at.u, fold, Normalized(at.u, rule.keyword), card, rows) == TallyOf(rule, card, at, rows).total
  {
    TotalsDiffer(at, fold, rule, card, rows);
    var keep := (row: Row) => row.card == card && OnlySaved(at.u, fold, rule.keyword, row);
    forall i | 0 <= i < |rows|
      ensures !keep(rows[i])
    {
      if rows[i].card == card {
        AlignedRowAgrees(at.u, fold, rule.keyword, rows[i]);
      }
    }
    NothingKept(rows, keep);
  }

  // ---- Exactly when the sums agree ----------------------------------------------------------------------

  /** The same rows with other amounts. */
  function WithAmounts(rows: seq<Row>, amounts: seq<int>): seq<Row>
    requires |amounts| == |rows|
  {
    seq(|rows|, i requires 0 <= i < |rows| => rows[i].(cents := amounts[i]))
  }

  ghost predicate AgreeWith(at: Setting, fold: char -> char, rule: Rule, card: CardId, rows: seq<Row>, amounts: seq<int>) {
    |amounts| == |rows| ==>
      var all := WithAmounts(rows, amounts);
      SavedNet(at.u, fold, Normalized(at.u, rule.keyword), card, all) == TallyOf(rule, card, at, all).total
  }

  function OneAt(n: nat, i: nat): seq<int> {
    seq(n, k => if k == i then 1 else 0)
  }

  /** The sum of what is kept, when one row has amount 1 and the others 0. */
  lemma {:induction false} SumOneAt(rows: seq<Row>, i: nat, keep: Row -> bool)
    requires forall row: Row, cents: int :: keep(row.(cents := cents)) == keep(row)
    ensures Sum(Fetched(WithAmounts(rows, OneAt(|rows|, i)), keep), NetAmount) ==
            if i < |rows| && keep(rows[i]) && IsUsd(rows[i]) then 1 else 0
  {
    if rows != [] {
      var n := |rows| - 1;
      var init, last := WithAmounts(rows[..n], OneAt(n, i)), rows[n].(cents := OneAt(n + 1, i)[n]);
      assert WithAmounts(rows, OneAt(n + 1, i)) == init + [last];
      SumOneAt(rows[..n], i, keep);
      SumKept(init, last, keep);
    }
  }

  lemma {:induction false} SumOfZeros(rows: seq<Row>, keep: Row -> bool)
    requires forall i :: 0 <= i < |rows| && keep(rows[i]) ==> !IsUsd(rows[i])
    ensures Sum(Fetched(rows, keep), NetAmount) == 0
  {
    if rows != [] {
      var init, last := rows[..|rows| - 1], rows[|rows| - 1];
      assert rows == init + [last];
      SumOfZeros(init, keep);
      SumKept(init, last, keep);
    }
  }

  lemma AgreeIfNone(at: Setting, fold: char -> char, rule: Rule, card: CardId, rows: seq<Row>, amounts: seq<int>)
    requires TablesOk(at.u) && TokenizerOk(at.u, fold) && AllStored(at.u, rows) && AllTimeTotal(rule)
    requires NoneOnlySaved(at.u, fold, rule.keyword, card, rows)
    ensures AgreeWith(at, fold, rule, card, rows, amounts)
  {
    if |amounts| == |rows| {
      var all := WithAmounts(rows, amounts);
      forall i | 0 <= i < |all|
        ensures Stored(at.u, all[i])
      {
        assert Stored(at.u, rows[i]);
      }
      TotalsDiffer(at, fold, rule, card, all);
      forall i | 0 <= i < |all| && all[i].card == card && OnlySaved(at.u, fold, rule.keyword, all[i])
        ensures !IsUsd(all[i])
      {
        assert OnlySaved(at.u, fold, rule.keyword, rows[i]);
      }
      SumOfZeros(all, (row: Row) => row.card == card && OnlySaved(at.u, fold, rule.keyword, row));
    }
  }

  lemma NoneIfAgree(at: Setting, fold: char -> char, rule: Rule, card: CardId, rows: seq<Row>, i: nat)
    requires TablesOk(at.u) && TokenizerOk(at.u, fold) && AllStored(at.u, rows) && AllTimeTotal(rule)
    requires i < |rows| && rows[i].card == card && IsUsd(rows[i]) && OnlySaved(at.u, fold, rule.keyword, rows[i])
    ensures !AgreeWith(at, fold, rule, card, rows, OneAt(|rows|, i))
  {
    var all := WithAmounts(rows, OneAt(|rows|, i));
    forall k | 0 <= k < |all|
      ensures Stored(at.u, all[k])
    {
      assert Stored(at.u, rows[k]);
    }
    TotalsDiffer(at, fold, rule, card, all);
    SumOneAt(rows, i, (row: Row) => row.card == card && OnlySaved(at.u, fold, rule.keyword, row));
  }

  /** Saved net and rule total agree whatever the amounts are, if and only if no USD row of the card
      is found only by the saved aggregate: a check row by row, of the stored columns alone. */
  lemma AgreeExactly(at: Setting, fold: char -> char, rule: Rule, card: CardId, rows: seq<Row>)
    requires TablesOk(at.u) && TokenizerOk(at.u, fold) && AllStored(at.u, rows) && AllTimeTotal(rule)
    ensures (forall amounts :: AgreeWith(at, fold, rule, card, rows, amounts)) <==>
            NoneOnlySaved(at.u, fold, rule.keyword, card, rows)
  {
    if NoneOnlySaved(at.u, fold, rule.keyword, card, rows) {
      forall amounts
        ensures AgreeWith(at, fold, rule, card, rows, amounts)
      {
        AgreeIfNone(at, fold, rule, card, rows, amounts);
      }
    } else {
      var i :| 0 <= i < |rows| && rows[i].card == card && IsUsd(rows[i]) && OnlySaved(at.u, fold, rule.keyword, rows[i]);
      NoneIfAgree(at, fold, rule, card, rows, i);
    }
  }

  /** What the two evaluations report: the net of an evaluated aggregate is the total of the alert
      for an all-time rule with the same keyword on the same card. */
  lemma ReportsAgree(definitions: seq<Definition>, rules: seq<Rule>, active: set<CardId>, at: Setting, fold: char -> char,
                     rows: seq<Row>, e: Evaluation, alert: Alert)
    requires TablesOk(at.u) && TokenizerOk(at.u, fold) && AllStored(at.u, rows)
    requires Expected(definitions, active, at.u, fold, rows, e) && Due(rules, active, at, rows, alert)
    requires AllTimeTotal(alert.rule) && e.card == alert.card
    requires definitions[e.definition].keyword == Normalized(at.u, alert.rule.keyword)
    requires NoneOnlySaved(at.u, fold, alert.rule.keyword, alert.card, rows)
    ensures e.summary.net == alert.tally.total
  {
    TotalsDiffer(at, fold, alert.rule, alert.card, rows);
    SumOfZeros(rows, (row: Row) => row.card == alert.card && OnlySaved(at.u, fold, alert.rule.keyword, row));
  }

  // ---- Where they do not --------------------------------------------------------------------------------------

  const ACUTE: char := '\U{0301}'
  const DOT_BELOW: char := '\U{0323}'

  /** Tables with two marks: the dot below comes before the acute in canonical order. */
  const MARKS: Unicode := Unicode(
    (c: char) => [c], (c: char) => if c == ACUTE then 230 else if c == DOT_BELOW then 220 else 0,
    (c: char) => [Lower(c)], (c: char) => c == ' ')

  const SMALL: char -> char := (c: char) => Lower(c)

  const SENT: string := ['a', 'b', 'e', ACUTE, DOT_BELOW]
  const KEPT: string := ['a', 'b', 'e', DOT_BELOW, ACUTE]
  const ASKED: string := ['a', 'b', 'e', ACUTE]

  /** A row as stored for a name whose marks were sent out of canonical order. */
  function MarkedRow(card: CardId, cents: int): Row {
    Row(card, false, [None, Some(SENT), None], KEPT, None, cents, "USD")
  }

  lemma MarksAreTables()
    ensures TablesOk(MARKS) && TokenizerOk(MARKS, SMALL)
  {
    forall c
      ensures CharFolds(MARKS, c)
    {
    }
  }

  lemma MarksOrder()
    ensures Order(MARKS, SENT) == KEPT && Order(MARKS, ASKED) == ASKED
  {
    assert SENT[1..] == ['b', 'e', ACUTE, DOT_BELOW] && SENT[1..][1..] == ['e', ACUTE, DOT_BELOW];
    assert ['e', ACUTE, DOT_BELOW][1..] == [ACUTE, DOT_BELOW] && [ACUTE, DOT_BELOW][1..] == [DOT_BELOW] && [DOT_BELOW][1..] == [];
    assert Order(MARKS, [DOT_BELOW]) == [DOT_BELOW];
    assert Settle(MARKS, ACUTE, [DOT_BELOW]) == [DOT_BELOW] + Settle(MARKS, ACUTE, []) == [DOT_BELOW, ACUTE];
    assert Order(MARKS, [ACUTE, DOT_BELOW]) == [DOT_BELOW, ACUTE];
    assert Order(MARKS, ['e', ACUTE, DOT_BELOW]) == ['e', DOT_BELOW, ACUTE];
    assert Order(MARKS, ['b', 'e', ACUTE, DOT_BELOW]) == ['b', 'e', DOT_BELOW, ACUTE];
    CanonicalStays(MARKS, ASKED);
  }

  lemma OneColumn(s: string)
    requires s != []
    ensures Filled([None, Some(s), None]) == [s]
  {
    var none: Option<string> := None;
    assert [none, Some(s), none][1..] == [Some(s), none] && [Some(s), none][1..] == [none] && [none][1..] == [];
    assert Filled([none]) == [];
    assert Filled([Some(s), none]) == [s];
  }

  lemma MarkedRowIsStored(card: CardId, cents: int)
    ensures Stored(MARKS, MarkedRow(card, cents))
  {
    OneColumn(SENT);
    MapFixed(MARKS.decomposition, SENT);
    MarksOrder();
    MapFixed(MARKS.folding, KEPT);
    CollapseTidy(MARKS.space, KEPT);
  }

  lemma AskedIsNormal()
    ensures Normalized(MARKS, ASKED) == ASKED
  {
    StripTidy(MARKS.space, ASKED);
    MapFixed(MARKS.decomposition, ASKED);
    MarksOrder();
    MapFixed(MARKS.folding, ASKED);
    CollapseTidy(MARKS.space, ASKED);
  }

  /** A stored row that the saved aggregate counts and the rule does not: the keyword ends after
      the first of two marks that the search text has the other way round. */
  lemma MarksDisagree(card: CardId, cents: int)
    ensures TablesOk(MARKS) && TokenizerOk(MARKS, SMALL) && Stored(MARKS, MarkedRow(card, cents))
    ensures OnlySaved(MARKS, SMALL, ASKED, MarkedRow(card, cents))
  {
    var row := MarkedRow(card, cents);
    MarksAreTables();
    MarkedRowIsStored(card, cents);
    AskedIsNormal();
    assert Fold(SMALL, SENT)[0..4] == Fold(SMALL, ASKED);
    assert ContainsAt(Fold(SMALL, SENT), Fold(SMALL, ASKED), 0);
    assert row.raw[1].value == SENT;
    assert KEPT[0..4][3] != ASKED[3] && KEPT[1..5][0] != ASKED[0];
    assert !ContainsAt(KEPT, ASKED, 0) && !ContainsAt(KEPT, ASKED, 1);
    DisagreesExactly(MARKS, SMALL, ASKED, row);
  }

  lemma TidyIsItsSearchText(u: Unicode, s: string)
    requires Normal(u, s) && Tidy(u.space, s) && s != []
    ensures SearchText(u, [None, Some(s), None]) == s
  {
    OneColumn(s);
    NormalPrefix(u, s, |s|);
    assert s[..|s|] == s;
    CollapseTidy(u.space, s);
  }

  /** A keyword that folding makes longer than a query may be: there always is a row that the saved
      aggregate, searching for the cut keyword, counts and the rule does not. */
  lemma LongKeywordsDisagree(u: Unicode, fold: char -> char, keyword: string, card: CardId, cents: int) returns (row: Row)
    requires TablesOk(u) && TokenizerOk(u, fold) && |Normalized(u, keyword)| > 100
    ensures row.card == card && row.cents == cents && Stored(u, row) && OnlySaved(u, fold, keyword, row)
  {
    var once := Normalized(u, keyword);
    var again := Normalized(u, once);
    NormalizingAgain(u, keyword);
    NormalizedIsWellFormed(u, once);
    CutIsLong(u, keyword);
    TidyIsItsSearchText(u, again);
    row := Row(card, false, [None, Some(again), None], again, None, cents, "USD");
    assert ContainsAt(again, again, 0);
    FoundExactly(u, fold, once, row);
  }

  lemma CutIsLong(u: Unicode, keyword: string)
    requires TablesOk(u) && |Normalized(u, keyword)| > 100
    ensures Normalized(u, Normalized(u, keyword)) != []
  {
    var once := Normalized(u, keyword);
    NormalizedIsWellFormed(u, keyword);
    assert once[..|once|] == once;
    PrefixNormalizes(u, once, |once|);
  }
}
