/** Sums over matching transactions: per card, over all cards, for saved aggregates, and as the
    dashboard adds them up (backend/app/services/transaction_summary.py, search_service.py,
    aggregate_service.py, frontend/src/dashboard/DashboardPage.tsx). */
module Summaries {
  import opened Wrappers
  import opened Ordering
  import opened Folding
  import opened Prefilter
  import opened Alerts

  datatype TransactionSummary = TransactionSummary(usdMatches: int, usdPending: int, purchases: int, refunds: int, net: int)

  const EMPTY_SUMMARY: TransactionSummary := TransactionSummary(0, 0, 0, 0, 0)

  /** SUM of a column expression; the sum over no rows is 0. */
  function Sum(rows: seq<Row>, column: Row -> int): int {
    if rows == [] then 0 else Sum(rows[..|rows| - 1], column) + column(rows[|rows| - 1])
  }

  predicate IsUsd(row: Row) { row.currency == "USD" }

  function UsdMatch(row: Row): int { if IsUsd(row) then 1 else 0 }
  function UsdPending(row: Row): int { if IsUsd(row) && row.pending then 1 else 0 }
  function Purchase(row: Row): int { if IsUsd(row) && row.cents > 0 then row.cents else 0 }
  function Refund(row: Row): int { if IsUsd(row) && row.cents < 0 then -row.cents else 0 }
  function NetAmount(row: Row): int { if IsUsd(row) then row.cents else 0 }

  /** The five columns, each summed by itself. */
  function SummaryOf(rows: seq<Row>): TransactionSummary {
    TransactionSummary(Sum(rows, UsdMatch), Sum(rows, UsdPending), Sum(rows, Purchase), Sum(rows, Refund), Sum(rows, NetAmount))
  }

  function PlusSummary(a: TransactionSummary, b: TransactionSummary): TransactionSummary {
    TransactionSummary(a.usdMatches + b.usdMatches, a.usdPending + b.usdPending, a.purchases + b.purchases,
                       a.refunds + b.refunds, a.net + b.net)
  }

  lemma {:induction false} NetIsPurchasesMinusRefunds(rows: seq<Row>)
    ensures SummaryOf(rows).net == SummaryOf(rows).purchases - SummaryOf(rows).refunds
    ensures 0 <= SummaryOf(rows).usdPending <= SummaryOf(rows).usdMatches <= |rows|
  {
    if rows != [] {
      NetIsPurchasesMinusRefunds(rows[..|rows| - 1]);
    }
  }

  lemma {:induction false} SumAppend(a: seq<Row>, b: seq<Row>, column: Row -> int)
    ensures Sum(a + b, column) == Sum(a, column) + Sum(b, column)
  {
    if b == [] {
      assert a + b == a;
    } else {
      assert (a + b)[..|a + b| - 1] == a + b[..|b| - 1];
      SumAppend(a, b[..|b| - 1], column);
    }
  }

  // ---- What a summary says ------------------------------------------------------------------------------

  /** The USD rows among some rows, in some part of them. */
  function InUsd(rows: seq<Row>, part: Row -> bool): seq<Row> {
    Fetched(rows, (row: Row) => row.currency == "USD" && part(row))
  }

  /** Numbers and sums of the USD rows: all of them, the pending ones, purchases and refunds. */
  predicate SaysOf(summary: TransactionSummary, rows: seq<Row>) {
    && summary.usdMatches == |InUsd(rows, (row: Row) => true)|
    && summary.usdPending == |InUsd(rows, (row: Row) => row.pending)|
    && summary.purchases == CentsOf(InUsd(rows, (row: Row) => row.cents > 0))
    && summary.refunds == -CentsOf(InUsd(rows, (row: Row) => row.cents < 0))
    && summary.net == CentsOf(InUsd(rows, (row: Row) => true))
  }

  /** A column that is 1 on some rows and 0 elsewhere counts them. */
  lemma {:induction false} SumIsNumber(rows: seq<Row>, column: Row -> int, keep: Row -> bool)
    requires forall row :: column(row) == if keep(row) then 1 else 0
    ensures Sum(rows, column) == |Fetched(rows, keep)|
  {
    if rows != [] {
      SumIsNumber(rows[..|rows| - 1], column, keep);
    }
  }

  /** A column that is the amount, with a sign, on some rows and 0 elsewhere adds them up. */
  lemma {:induction false} SumIsCents(rows: seq<Row>, column: Row -> int, keep: Row -> bool, sign: int)
    requires (sign == 1 || sign == -1) && forall row :: column(row) == if keep(row) then sign * row.cents else 0
    ensures Sum(rows, column) == sign * CentsOf(Fetched(rows, keep))
  {
    if rows != [] {
      var init, last := rows[..|rows| - 1], rows[|rows| - 1];
      SumIsCents(init, column, keep, sign);
      CentsLast(Fetched(init, keep), last);
      assert Fetched(init, keep) + [] == Fetched(init, keep);
    }
  }

  /** The five columns, each summed by itself, are these numbers and sums. */
  lemma SummarySays(rows: seq<Row>)
    ensures SaysOf(SummaryOf(rows), rows)
  {
    var all, pending := (row: Row) => true, (row: Row) => row.pending;
    var bought, back := (row: Row) => row.cents > 0, (row: Row) => row.cents < 0;
    SumIsNumber(rows, UsdMatch, (row: Row) => row.currency == "USD" && all(row));
    SumIsNumber(rows, UsdPending, (row: Row) => row.currency == "USD" && pending(row));
    SumIsCents(rows, Purchase, (row: Row) => row.currency == "USD" && bought(row), 1);
    SumIsCents(rows, Refund, (row: Row) => row.currency == "USD" && back(row), -1);
    SumIsCents(rows, NetAmount, (row: Row) => row.currency == "USD" && all(row), 1);
  }

  // ---- By card and all together -----------------------------------------------------------------------

  /** The rows of one card, of some cards. */
  function OnCard(rows: seq<Row>, card: CardId): seq<Row> {
    Fetched(rows, (row: Row) => row.card == card)
  }

  function OnCards(rows: seq<Row>, cards: seq<CardId>): seq<Row> {
    Fetched(rows, (row: Row) => row.card in cards)
  }

  ghost predicate DistinctCards(cards: seq<CardId>) {
    forall i, j :: 0 <= i < j < |cards| ==> cards[i] != cards[j]
  }

  /** The cards of a list partition its rows: a sum over all is the sum of the sums by card. */
  lemma {:induction false} SumByCard(rows: seq<Row>, cards: seq<CardId>, card: CardId, column: Row -> int)
    requires card !in cards
    ensures Sum(OnCards(rows, cards + [card]), column) == Sum(OnCards(rows, cards), column) + Sum(OnCard(rows, card), column)
  {
    if rows != [] {
      var init, last := rows[..|rows| - 1], rows[|rows| - 1];
      SumByCard(init, cards, card, column);
      SumLast(OnCards(init, cards + [card]), last, column);
      SumLast(OnCards(init, cards), last, column);
      SumLast(OnCard(init, card), last, column);
      assert last.card in cards + [card] <==> last.card in cards || last.card == card;
      assert OnCards(init, cards) + [] == OnCards(init, cards) && OnCard(init, card) + [] == OnCard(init, card);
      assert OnCards(init, cards + [card]) + [] == OnCards(init, cards + [card]);
    }
  }

  lemma SumLast(rows: seq<Row>, row: Row, column: Row -> int)
    ensures Sum(rows + [row], column) == Sum(rows, column) + column(row)
  {
    assert (rows + [row])[..|rows + [row]| - 1] == rows;
  }

  lemma {:induction false} SumOfOnes(rows: seq<Row>)
    ensures Sum(rows, (row: Row) => 1) == |rows|
  {
    if rows != [] {
      SumOfOnes(rows[..|rows| - 1]);
    }
  }

  lemma {:induction false} NoCards(rows: seq<Row>)
    ensures OnCards(rows, []) == []
  {
    if rows != [] {
      NoCards(rows[..|rows| - 1]);
    }
  }

  datatype Group = Group(card: CardId, matches: int, summary: TransactionSummary)

  function GroupOf(found: seq<Row>, card: CardId): Group {
    Group(card, |OnCard(found, card)|, SummaryOf(OnCard(found, card)))
  }

  function GroupsOf(found: seq<Row>, cards: seq<CardId>): seq<Group> {
    if cards == [] then [] else GroupsOf(found, cards[..|cards| - 1]) + [GroupOf(found, cards[|cards| - 1])]
  }

  // ---- Grouped and global search ------------------------------------------------------------------------

  type BankId = string

  datatype Account = Account(bank: BankId, active: bool)
  datatype Bank = Bank(owner: string, active: bool)

  /** The card accounts and the bank connections by their ids. */
  datatype Directory = Directory(accounts: map<CardId, Account>, banks: map<BankId, Bank>)

  /** The joins both searches make: an active card of an active connection of this owner. */
  predicate Listed(dir: Directory, owner: string, card: CardId) {
    && card in dir.accounts && dir.accounts[card].active
    && dir.accounts[card].bank in dir.banks
    && dir.banks[dir.accounts[card].bank].owner == owner && dir.banks[dir.accounts[card].bank].active
  }

  /** The rows of the all-transactions query: joined with card and connection, then matched. */
  function GlobalMatches(dir: Directory, owner: string, u: Unicode, fold: char -> char, query: string, rows: seq<Row>): seq<Row> {
    Fetched(rows, (row: Row) => Listed(dir, owner, row.card) && Found(u, fold, query, row))
  }

  /** Which rows these are: those found on active cards of active connections of the owner, each as often
      as it is there. */
  lemma GlobalMatchesAre(dir: Directory, owner: string, u: Unicode, fold: char -> char, query: string, rows: seq<Row>, row: Row)
    ensures var times := multiset(GlobalMatches(dir, owner, u, fold, query, rows))[row];
            if row.card in dir.accounts && dir.accounts[row.card].active && dir.accounts[row.card].bank in dir.banks &&
               dir.banks[dir.accounts[row.card].bank].owner == owner && dir.banks[dir.accounts[row.card].bank].active &&
               Found(u, fold, query, row)
            then times == multiset(rows)[row] else times == 0
  {
    FetchedAre(rows, (r: Row) => Listed(dir, owner, r.card) && Found(u, fold, query, r), row);
  }

  /** The grouped search over the listed cards, in whatever order they are sorted: a group for every
      card, and the total counted on the way. Total and sums over the groups are those of the
      global search. */
  method Search(dir: Directory, owner: string, cards: seq<CardId>, u: Unicode, fold: char -> char, query: string, rows: seq<Row>)
    returns (groups: seq<Group>, total: int)
    requires DistinctCards(cards) && forall card :: card in cards <==> Listed(dir, owner, card)
    ensures |groups| == |cards|
    ensures forall i :: 0 <= i < |cards| ==> groups[i] == GroupOf(FoundOn(u, fold, rows, query, cards[i]), cards[i])
    ensures total == |GlobalMatches(dir, owner, u, fold, query, rows)|
    ensures Reduced(groups) == SummaryOf(GlobalMatches(dir, owner, u, fold, query, rows))
    ensures forall i :: 0 <= i < |cards| ==>
              groups[i].card == cards[i] && groups[i].matches == |FoundOn(u, fold, rows, query, cards[i])| &&
              SaysOf(groups[i].summary, FoundOn(u, fold, rows, query, cards[i]))
    ensures SaysOf(Reduced(groups), GlobalMatches(dir, owner, u, fold, query, rows))
  {
    ghost var found := AllFound(u, fold, query, rows);
    groups, total := [], 0;
    NoCards(found);
    for i := 0 to |cards|
      invariant groups == GroupsOf(found, cards[..i]) && total == |OnCards(found, cards[..i])|
    {
      var own := FoundOn(u, fold, rows, query, cards[i]);
      NextGroup(u, fold, query, rows, cards, i);
      total := total + |own|;
      groups := groups + [Group(cards[i], |own|, SummaryOf(own))];
    }
    assert cards[..|cards|] == cards;
    GroupsReduceToWhole(found, cards);
    FoundOnListed(dir, owner, cards, u, fold, query, rows);
    GroupsOfFound(u, fold, query, rows, cards);
    GroupsSay(dir, owner, u, fold, query, rows, cards);
  }

  lemma GroupsSay(dir: Directory, owner: string, u: Unicode, fold: char -> char, query: string, rows: seq<Row>, cards: seq<CardId>)
    ensures SaysOf(SummaryOf(GlobalMatches(dir, owner, u, fold, query, rows)), GlobalMatches(dir, owner, u, fold, query, rows))
    ensures forall i :: 0 <= i < |cards| ==>
              var group := GroupOf(FoundOn(u, fold, rows, query, cards[i]), cards[i]);
              group.card == cards[i] && group.matches == |FoundOn(u, fold, rows, query, cards[i])| &&
              SaysOf(group.summary, FoundOn(u, fold, rows, query, cards[i]))
  {
    SummarySays(GlobalMatches(dir, owner, u, fold, query, rows));
    forall i | 0 <= i < |cards|
      ensures var group := GroupOf(FoundOn(u, fold, rows, query, cards[i]), cards[i]);
              group.card == cards[i] && group.matches == |FoundOn(u, fold, rows, query, cards[i])| &&
              SaysOf(group.summary, FoundOn(u, fold, rows, query, cards[i]))
    {
      FoundIsOnCard(u, fold, rows, query, cards[i]);
      SummarySays(FoundOn(u, fold, rows, query, cards[i]));
    }
  }

  lemma NextGroup(u: Unicode, fold: char -> char, query: string, rows: seq<Row>, cards: seq<CardId>, i: nat)
    requires DistinctCards(cards) && i < |cards|
    ensures var found, own := AllFound(u, fold, query, rows), FoundOn(u, fold, rows, query, cards[i]);
            && GroupsOf(found, cards[..i + 1]) == GroupsOf(found, cards[..i]) + [Group(cards[i], |own|, SummaryOf(own))]
            && |OnCards(found, cards[..i + 1])| == |OnCards(found, cards[..i])| + |own|
  {
    assert cards[..i + 1] == cards[..i] + [cards[i]];
    assert cards[..i + 1][..i] == cards[..i];
    CardCounted(AllFound(u, fold, query, rows), cards[..i], cards[i]);
    FoundIsOnCard(u, fold, rows, query, cards[i]);
  }

  function AllFound(u: Unicode, fold: char -> char, query: string, rows: seq<Row>): seq<Row> {
    Fetched(rows, (row: Row) => Found(u, fold, query, row))
  }

  lemma {:induction false} GroupsOfFound(u: Unicode, fold: char -> char, query: string, rows: seq<Row>, cards: seq<CardId>)
    ensures var groups := GroupsOf(AllFound(u, fold, query, rows), cards);
            && |groups| == |cards|
            && forall i :: 0 <= i < |cards| ==> groups[i] == GroupOf(FoundOn(u, fold, rows, query, cards[i]), cards[i])
  {
    if cards != [] {
      GroupsOfFound(u, fold, query, rows, cards[..|cards| - 1]);
      FoundIsOnCard(u, fold, rows, query, cards[|cards| - 1]);
    }
  }

  lemma FoundOnListed(dir: Directory, owner: string, cards: seq<CardId>, u: Unicode, fold: char -> char, query: string, rows: seq<Row>)
    requires forall card :: card in cards <==> Listed(dir, owner, card)
    ensures OnCards(AllFound(u, fold, query, rows), cards) == GlobalMatches(dir, owner, u, fold, query, rows)
  {
    GroupedIsGlobal(rows, cards, (row: Row) => Found(u, fold, query, row));
    SameFetched(rows, (row: Row) => row.card in cards && Found(u, fold, query, row),
                (row: Row) => Listed(dir, owner, row.card) && Found(u, fold, query, row));
    SameFetched(rows, (row: Row) => row.card in cards && ((r: Row) => Found(u, fold, query, r))(row),
                (row: Row) => row.card in cards && Found(u, fold, query, row));
  }

  lemma {:induction false} SameFetched(rows: seq<Row>, p: Row -> bool, q: Row -> bool)
    requires forall row :: p(row) == q(row)
    ensures Fetched(rows, p) == Fetched(rows, q)
  {
    if rows != [] {
      SameFetched(rows[..|rows| - 1], p, q);
    }
  }

  /** The rows found on one card are those found, on that card; fetching them again changes nothing. */
  lemma {:induction false} FoundIsOnCard(u: Unicode, fold: char -> char, rows: seq<Row>, query: string, card: CardId)
    ensures FoundOn(u, fold, rows, query, card) == OnCard(Fetched(rows, (row: Row) => Found(u, fold, query, row)), card)
    ensures OnCard(FoundOn(u, fold, rows, query, card), card) == FoundOn(u, fold, rows, query, card)
  {
    if rows != [] {
      var init, last := rows[..|rows| - 1], rows[|rows| - 1];
      var found, own := Fetched(init, (row: Row) => Found(u, fold, query, row)), FoundOn(u, fold, init, query, card);
      FoundIsOnCard(u, fold, init, query, card);
      FetchedLast(found, last, (row: Row) => row.card == card);
      FetchedLast(own, last, (row: Row) => row.card == card);
      assert found + [] == found && own + [] == own && OnCard(found, card) + [] == OnCard(found, card);
    }
  }

  /** What the dashboard adds up from the groups is the summary of all matches at once. */
  lemma {:induction false} GroupsReduceToWhole(found: seq<Row>, cards: seq<CardId>)
    requires DistinctCards(cards)
    ensures Reduced(GroupsOf(found, cards)) == SummaryOf(OnCards(found, cards))
  {
    if cards == [] {
      NoCards(found);
    } else {
      var init, last := cards[..|cards| - 1], cards[|cards| - 1];
      assert cards == init + [last];
      GroupsReduceToWhole(found, init);
      ReduceStep(found, init, last, GroupsOf(found, init));
    }
  }

  lemma ReduceStep(found: seq<Row>, cards: seq<CardId>, card: CardId, groups: seq<Group>)
    requires Reduced(groups) == SummaryOf(OnCards(found, cards)) && card !in cards
    ensures Reduced(groups + [GroupOf(found, card)]) == SummaryOf(OnCards(found, cards + [card]))
  {
    ReducedLast(groups, GroupOf(found, card));
    CardAdded(found, cards, card);
  }

  lemma ReducedLast(groups: seq<Group>, group: Group)
    ensures Reduced(groups + [group]) == PlusSummary(Reduced(groups), group.summary)
  {
    assert (groups + [group])[..|groups + [group]| - 1] == groups;
  }

  lemma CardCounted(rows: seq<Row>, cards: seq<CardId>, card: CardId)
    requires card !in cards
    ensures |OnCards(rows, cards + [card])| == |OnCards(rows, cards)| + |OnCard(rows, card)|
  {
    SumByCard(rows, cards, card, (row: Row) => 1);
    SumOfOnes(OnCards(rows, cards + [card]));
    SumOfOnes(OnCards(rows, cards));
    SumOfOnes(OnCard(rows, card));
  }

  /** Grouped and global search count the same rows: those on the listed cards that match. */
  lemma {:induction false} GroupedIsGlobal(rows: seq<Row>, cards: seq<CardId>, matches: Row -> bool)
    ensures OnCards(Fetched(rows, matches), cards) == Fetched(rows, (row: Row) => row.card in cards && matches(row))
  {
    if rows != [] {
      var init, last := rows[..|rows| - 1], rows[|rows| - 1];
      GroupedIsGlobal(init, cards, matches);
      FetchedLast(Fetched(init, matches), last, (row: Row) => row.card in cards);
      assert Fetched(init, matches) + [] == Fetched(init, matches);
      assert OnCards(Fetched(init, matches), cards) + [] == OnCards(Fetched(init, matches), cards);
    }
  }

  lemma CardAdded(rows: seq<Row>, cards: seq<CardId>, card: CardId)
    requires card !in cards
    ensures SummaryOf(OnCards(rows, cards + [card])) == PlusSummary(SummaryOf(OnCards(rows, cards)), SummaryOf(OnCard(rows, card)))
  {
    SumByCard(rows, cards, card, UsdMatch);
    SumByCard(rows, cards, card, UsdPending);
    SumByCard(rows, cards, card, Purchase);
    SumByCard(rows, cards, card, Refund);
    SumByCard(rows, cards, card, NetAmount);
  }

  /** The dashboard's reduce over the groups. */
  function Reduced(groups: seq<Group>): TransactionSummary {
    if groups == [] then EMPTY_SUMMARY else PlusSummary(Reduced(groups[..|groups| - 1]), groups[|groups| - 1].summary)
  }

  // ---- Saved aggregates -----------------------------------------------------------------------------------

  /** A definition stores its keyword normalised; evaluating it normalises it once more. */
  datatype Definition = Definition(id: string, keyword: string, cards: Option<set<CardId>>)

  datatype Evaluation = Evaluation(definition: nat, card: CardId, summary: TransactionSummary)

  function DefinitionTargets(d: Definition, active: set<CardId>): set<CardId> {
    if d.cards.None? then active else d.cards.value * active
  }

  /** A search for the keyword finds the row. */
  predicate Found(u: Unicode, fold: char -> char, keyword: string, row: Row) {
    MatchFilter(fold, NormalizeQuery(u, keyword), ColumnsOf(row), row.text)
  }

  function FoundOn(u: Unicode, fold: char -> char, rows: seq<Row>, keyword: string, card: CardId): seq<Row> {
    Fetched(rows, (row: Row) => row.card == card && Found(u, fold, keyword, row))
  }

  /** One definition on one card it targets. */
  ghost predicate Expected(definitions: seq<Definition>, active: set<CardId>, u: Unicode, fold: char -> char, rows: seq<Row>, e: Evaluation) {
    && e.definition < |definitions| && e.card in DefinitionTargets(definitions[e.definition], active)
    && e.summary == SummaryOf(FoundOn(u, fold, rows, definitions[e.definition].keyword, e.card))
  }

  function ByCardThenDefinition(cards: seq<CardId>): (Evaluation, Evaluation) -> bool {
    (a: Evaluation, b: Evaluation) =>
      Position(cards, a.card) < Position(cards, b.card) ||
      (Position(cards, a.card) == Position(cards, b.card) && a.definition < b.definition)
  }

  method EvaluateDefinition(definitions: seq<Definition>, i: nat, active: set<CardId>, u: Unicode, fold: char -> char, rows: seq<Row>)
    returns (evaluations: seq<Evaluation>)
    requires i < |definitions|
    ensures forall e :: e in evaluations <==> e.definition == i && Expected(definitions, active, u, fold, rows, e)
    ensures forall a, b :: 0 <= a < b < |evaluations| ==> evaluations[a].card != evaluations[b].card
  {
    evaluations := [];
    var todo := DefinitionTargets(definitions[i], active);
    while todo != {}
      invariant todo <= DefinitionTargets(definitions[i], active)
      invariant forall e :: e in evaluations <==>
                  e.definition == i && Expected(definitions, active, u, fold, rows, e) && e.card !in todo
      invariant forall a, b :: 0 <= a < b < |evaluations| ==> evaluations[a].card != evaluations[b].card
      decreases todo
    {
      var card :| card in todo;
      assert forall a :: 0 <= a < |evaluations| ==> evaluations[a] in evaluations && evaluations[a].card != card;
      todo := todo - {card};
      evaluations := evaluations + [Evaluation(i, card, SummaryOf(FoundOn(u, fold, rows, definitions[i].keyword, card)))];
    }
  }

  /** Every definition on every active card it targets, once, by card position and then by the
      position of the definition. */
  method EvaluateSavedAggregates(definitions: seq<Definition>, cards: seq<CardId>, u: Unicode, fold: char -> char, rows: seq<Row>)
    returns (evaluations: seq<Evaluation>)
    ensures forall e :: e in evaluations <==> Expected(definitions, CardSet(cards), u, fold, rows, e)
    ensures forall e :: e in evaluations ==>
              e.definition < |definitions| && SaysOf(e.summary, FoundOn(u, fold, rows, definitions[e.definition].keyword, e.card))
    ensures forall i, card :: 0 <= i < |definitions| ==>
              (Evaluates(evaluations, i, card) <==> card in cards && (definitions[i].cards.None? || card in definitions[i].cards.value))
    ensures Sorted(ByCardThenDefinition(cards), evaluations)
  {
    var active := CardSet(cards);
    evaluations := [];
    for i := 0 to |definitions|
      invariant forall e :: e in evaluations <==> e.definition < i && Expected(definitions, active, u, fold, rows, e)
      invariant forall a, b :: 0 <= a < b < |evaluations| ==>
                  evaluations[a].definition != evaluations[b].definition || evaluations[a].card != evaluations[b].card
    {
      var more := EvaluateDefinition(definitions, i, active, u, fold, rows);
      forall a, b | 0 <= a < |evaluations| && 0 <= b < |more|
        ensures evaluations[a].definition != more[b].definition
      {
        assert evaluations[a] in evaluations && more[b] in more;
      }
      evaluations := evaluations + more;
    }
    EvaluationsComparable(definitions, cards, u, fold, rows, evaluations);
    evaluations := SortBy(ByCardThenDefinition(cards), evaluations);
    EvaluationsSay(definitions, cards, u, fold, rows, evaluations);
  }

  /** There is an evaluation of this definition on this card. */
  predicate Evaluates(evaluations: seq<Evaluation>, i: int, card: CardId) {
    exists e :: e in evaluations && e.definition == i && e.card == card
  }

  lemma EvaluationsSay(definitions: seq<Definition>, cards: seq<CardId>, u: Unicode, fold: char -> char,
                       rows: seq<Row>, evaluations: seq<Evaluation>)
    requires forall e :: e in evaluations <==> Expected(definitions, CardSet(cards), u, fold, rows, e)
    ensures forall e :: e in evaluations ==>
              e.definition < |definitions| && SaysOf(e.summary, FoundOn(u, fold, rows, definitions[e.definition].keyword, e.card))
    ensures forall i, card :: 0 <= i < |definitions| ==>
              (Evaluates(evaluations, i, card) <==> card in cards && (definitions[i].cards.None? || card in definitions[i].cards.value))
  {
    forall e | e in evaluations
      ensures e.definition < |definitions| && SaysOf(e.summary, FoundOn(u, fold, rows, definitions[e.definition].keyword, e.card))
    {
      SummarySays(FoundOn(u, fold, rows, definitions[e.definition].keyword, e.card));
    }
    forall i, card | 0 <= i < |definitions|
      ensures Evaluates(evaluations, i, card) <==> card in cards && (definitions[i].cards.None? || card in definitions[i].cards.value)
    {
      var e := Evaluation(i, card, SummaryOf(FoundOn(u, fold, rows, definitions[i].keyword, card)));
      assert Expected(definitions, CardSet(cards), u, fold, rows, e) ==> e in evaluations;
    }
  }

  lemma EvaluationsComparable(definitions: seq<Definition>, cards: seq<CardId>, u: Unicode, fold: char -> char,
                              rows: seq<Row>, evaluations: seq<Evaluation>)
    requires forall e :: e in evaluations ==> Expected(definitions, CardSet(cards), u, fold, rows, e)
    requires forall a, b :: 0 <= a < b < |evaluations| ==>
               evaluations[a].definition != evaluations[b].definition || evaluations[a].card != evaluations[b].card
    ensures Sorted(ByCardThenDefinition(cards), SortBy(ByCardThenDefinition(cards), evaluations))
    ensures forall e :: e in SortBy(ByCardThenDefinition(cards), evaluations) <==> e in evaluations
  {
    var before := ByCardThenDefinition(cards);
    forall i, j | 0 <= i < j < |evaluations|
      ensures before(evaluations[i], evaluations[j]) || before(evaluations[j], evaluations[i])
    {
      assert evaluations[i] in evaluations;
      if Position(cards, evaluations[i].card) == Position(cards, evaluations[j].card) {
        PositionInjective(cards, evaluations[i].card, evaluations[j].card);
      }
    }
    SortBySorted(before, evaluations);
  }
}
