/** Active limit alerts: one scan of the matching rows for all rules, with a cache of which
    rules a kind of row matches (backend/app/services/limitation_service.py). */
module Alerts {
  import opened Wrappers
  import opened Ordering
  import opened Matching
  import opened Folding
  import opened Trigrams
  import opened Prefilter

  type CardId = string
  type RuleId = string

  datatype Window = AllTime | Rolling(days: nat) | Fixed(start: int, end: int)

  datatype Metric = MatchCount(threshold: int) | NetTotal(totalThreshold: Option<int>)

  /** An enabled rule; `cards` is None when it watches all cards. */
  datatype Rule = Rule(id: RuleId, keyword: string, metric: Metric, cards: Option<set<CardId>>, window: Window)

  /** A cached transaction: `raw` holds merchant, name and statement text as the provider sent
      them, `text` the search text; the date is the posted or else the authorized one. */
  datatype Row = Row(card: CardId, pending: bool, raw: seq<Option<string>>, text: string, date: Option<int>, cents: int, currency: string)

  /** The indexed columns of a row, the search text last. */
  function ColumnsOf(row: Row): Columns {
    row.raw + [Some(row.text)]
  }

  /** What an evaluation is made under: the Unicode tables and the day. */
  datatype Setting = Setting(u: Unicode, today: int)

  datatype Prepared = Prepared(rule: Rule, query: NormalizedQuery, targets: set<CardId>, start: Option<int>, end: Option<int>)

  datatype Tally = Tally(count: int, pending: int, total: int, pendingTotal: int)

  const NOTHING: Tally := Tally(0, 0, 0, 0)

  datatype Alert = Alert(rule: Rule, card: CardId, tally: Tally)

  // ---- What each rule asks for, rule by rule and card by card --------------------------------------

  function StartOf(window: Window, today: int): Option<int> {
    match window
    case AllTime => None
    case Rolling(days) => Some(today - (days - 1))
    case Fixed(start, _) => Some(start)
  }

  function EndOf(window: Window, today: int): Option<int> {
    match window
    case AllTime => None
    case Rolling(_) => Some(today)
    case Fixed(_, end) => Some(end)
  }

  function TargetsOf(rule: Rule, active: set<CardId>): set<CardId> {
    if rule.cards.None? then active else rule.cards.value * active
  }

  /** A total rule without a threshold is skipped, and so is a rule without an active card. */
  predicate Evaluated(rule: Rule, active: set<CardId>) {
    !(rule.metric.NetTotal? && rule.metric.totalThreshold.None?) && TargetsOf(rule, active) != {}
  }

  predicate InWindow(rule: Rule, today: int, date: Option<int>) {
    match rule.window
    case AllTime => true
    case Rolling(days) => date.Some? && today - days < date.value <= today
    case Fixed(start, end) => date.Some? && start <= date.value <= end
  }

  function QueryOf(at: Setting, rule: Rule): NormalizedQuery {
    NormalizeQuery(at.u, rule.keyword)
  }

  /** Does this row count for the rule on this card? */
  predicate Counts(rule: Rule, card: CardId, at: Setting, row: Row) {
    && row.card == card && Contains(row.text, QueryOf(at, rule).normalized)
    && (rule.metric.NetTotal? ==> row.currency == "USD")
    && InWindow(rule, at.today, row.date)
  }

  function Add(t: Tally, row: Row): Tally {
    Tally(t.count + 1, if row.pending then t.pending + 1 else t.pending,
          t.total + row.cents, if row.pending then t.pendingTotal + row.cents else t.pendingTotal)
  }

  /** The naive scan for one rule and one card. */
  function TallyOf(rule: Rule, card: CardId, at: Setting, rows: seq<Row>): Tally {
    if rows == [] then NOTHING
    else
      var before := TallyOf(rule, card, at, rows[..|rows| - 1]);
      if Counts(rule, card, at, rows[|rows| - 1]) then Add(before, rows[|rows| - 1]) else before
  }

  predicate Reached(rule: Rule, t: Tally) {
    match rule.metric
    case MatchCount(threshold) => t.count >= threshold
    case NetTotal(threshold) => threshold.Some? && t.total >= threshold.value
  }

  /** Exactly the rules and cards an alert is due for. */
  ghost predicate Due(rules: seq<Rule>, active: set<CardId>, at: Setting, rows: seq<Row>, alert: Alert) {
    && alert.rule in rules && Evaluated(alert.rule, active) && alert.card in TargetsOf(alert.rule, active)
    && alert.tally == TallyOf(alert.rule, alert.card, at, rows) && Reached(alert.rule, alert.tally)
  }

  // ---- The order of the result -------------------------------------------------------------------------

  function Position(cards: seq<CardId>, card: CardId): nat {
    if cards == [] || cards[0] == card then 0 else 1 + Position(cards[1..], card)
  }

  predicate AlertBefore(cards: seq<CardId>, a: Alert, b: Alert) {
    Position(cards, a.card) < Position(cards, b.card) ||
    (Position(cards, a.card) == Position(cards, b.card) && Less(a.rule.id, b.rule.id))
  }

  function ByCardThenRule(cards: seq<CardId>): (Alert, Alert) -> bool {
    (a: Alert, b: Alert) => AlertBefore(cards, a, b)
  }

  lemma ByCardThenRuleStrict(cards: seq<CardId>)
    ensures StrictOrder(ByCardThenRule(cards))
  {
    var before := ByCardThenRule(cards);
    forall a: Alert
      ensures !before(a, a)
    {
      LessIrreflexive(a.rule.id);
    }
    forall a: Alert, b: Alert, c: Alert | before(a, b) && before(b, c)
      ensures before(a, c)
    {
      if Less(a.rule.id, b.rule.id) && Less(b.rule.id, c.rule.id) {
        LessTransitive(a.rule.id, b.rule.id, c.rule.id);
      }
    }
  }

  lemma {:induction false} PositionInjective(cards: seq<CardId>, a: CardId, b: CardId)
    requires a in cards && Position(cards, a) == Position(cards, b)
    ensures a == b
  {
    if cards[0] != a && cards[0] != b {
      PositionInjective(cards[1..], a, b);
    }
  }

  // ---- The one scan --------------------------------------------------------------------------------------

  /** What the cache is keyed by. Amount and pending flag of a row are not part of it. */
  datatype Kind = Kind(card: CardId, text: string, date: Option<int>, currency: string)

  function KindOf(row: Row): Kind {
    Kind(row.card, row.text, row.date, row.currency)
  }

  predicate Matches(p: Prepared, kind: Kind) {
    && kind.card in p.targets && Contains(kind.text, p.query.normalized)
    && (!p.rule.metric.NetTotal? || kind.currency == "USD")
    && (p.start.None? || p.end.None? || (kind.date.Some? && p.start.value <= kind.date.value <= p.end.value))
  }

  function MatchingRules(prepared: seq<Prepared>, kind: Kind): seq<Prepared> {
    if prepared == [] then []
    else
      MatchingRules(prepared[..|prepared| - 1], kind) +
      (if Matches(prepared[|prepared| - 1], kind) then [prepared[|prepared| - 1]] else [])
  }

  /** The counts are kept by rule id and card. */
  datatype Slot = Slot(rule: RuleId, card: CardId)

  function Get(counts: map<Slot, Tally>, slot: Slot): Tally {
    if slot in counts then counts[slot] else NOTHING
  }

  ghost predicate PreparedFor(rules: seq<Rule>, active: set<CardId>, at: Setting, p: Prepared) {
    && p.rule in rules && Evaluated(p.rule, active) && p.targets == TargetsOf(p.rule, active)
    && p.query == QueryOf(at, p.rule)
    && p.start == StartOf(p.rule.window, at.today) && p.end == EndOf(p.rule.window, at.today)
  }

  ghost predicate UniqueIds(rules: seq<Rule>) {
    forall i, j :: 0 <= i < j < |rules| ==> rules[i].id != rules[j].id
  }

  method Prepare(rules: seq<Rule>, active: set<CardId>, at: Setting) returns (prepared: seq<Prepared>)
    ensures forall p :: p in prepared <==> PreparedFor(rules, active, at, p)
    ensures UniqueIds(rules) ==> forall i, j :: 0 <= i < j < |prepared| ==> prepared[i].rule.id != prepared[j].rule.id
  {
    prepared := [];
    for i := 0 to |rules|
      invariant forall p :: p in prepared <==> PreparedFor(rules[..i], active, at, p)
      invariant UniqueIds(rules) ==> forall a, b :: 0 <= a < b < |prepared| ==> prepared[a].rule.id != prepared[b].rule.id
    {
      var rule := rules[i];
      assert rules[..i + 1] == rules[..i] + [rule];
      ghost var before := prepared;
      if !(rule.metric.NetTotal? && rule.metric.totalThreshold.None?) {
        var targets := if rule.cards.None? then active else rule.cards.value * active;
        if targets != {} {
          prepared := prepared + [Prepared(rule, NormalizeQuery(at.u, rule.keyword), targets,
                                           StartOf(rule.window, at.today), EndOf(rule.window, at.today))];
          forall a | UniqueIds(rules) && 0 <= a < |before|
            ensures before[a].rule.id != rule.id
          {
            assert PreparedFor(rules[..i], active, at, before[a]);
          }
        }
      }
    }
    assert rules[..|rules|] == rules;
  }

  lemma MatchesMeans(rules: seq<Rule>, active: set<CardId>, at: Setting, p: Prepared, row: Row)
    requires PreparedFor(rules, active, at, p)
    ensures Matches(p, KindOf(row)) <==> row.card in p.targets && Counts(p.rule, row.card, at, row)
  {
  }

  // ---- The scan and its cache -------------------------------------------------------------------------

  ghost predicate UniqueRules(prepared: seq<Prepared>) {
    forall i, j :: 0 <= i < j < |prepared| ==> prepared[i].rule.id != prepared[j].rule.id
  }

  lemma {:induction false} MatchingAre(prepared: seq<Prepared>, kind: Kind)
    ensures forall p :: p in MatchingRules(prepared, kind) <==> p in prepared && Matches(p, kind)
    ensures UniqueRules(prepared) ==> UniqueRules(MatchingRules(prepared, kind))
  {
    if prepared != [] {
      var init, last := prepared[..|prepared| - 1], prepared[|prepared| - 1];
      MatchingAre(init, kind);
      assert prepared == init + [last];
      if UniqueRules(prepared) {
        assert UniqueRules(init);
        OneMoreUnique(prepared, MatchingRules(init, kind));
      }
    }
  }

  lemma OneMoreUnique(prepared: seq<Prepared>, some: seq<Prepared>)
    requires prepared != [] && UniqueRules(prepared) && UniqueRules(some)
    requires forall p :: p in some ==> p in prepared[..|prepared| - 1]
    ensures UniqueRules(some + [prepared[|prepared| - 1]])
  {
    var init, last := prepared[..|prepared| - 1], prepared[|prepared| - 1];
    forall i | 0 <= i < |some|
      ensures some[i].rule.id != last.rule.id
    {
      assert some[i] in some;
      var j :| 0 <= j < |init| && init[j] == some[i];
      assert prepared[j] == some[i];
    }
  }

  /** The counts so far are the naive ones of the rows so far. */
  ghost predicate CountsOk(counts: map<Slot, Tally>, prepared: seq<Prepared>, at: Setting, rows: seq<Row>) {
    forall p, card :: p in prepared ==> CountOk(counts, p, card, at, rows)
  }

  ghost predicate CountOk(counts: map<Slot, Tally>, p: Prepared, card: CardId, at: Setting, rows: seq<Row>) {
    card in p.targets ==> Get(counts, Slot(p.rule.id, card)) == TallyOf(p.rule, card, at, rows)
  }

  /** In the middle of a row: the rules in `done` have counted it. */
  ghost predicate CountsMid(counts: map<Slot, Tally>, prepared: seq<Prepared>, at: Setting, rows: seq<Row>, row: Row, done: seq<Prepared>) {
    forall p, card :: p in prepared ==> CountMid(counts, p, card, at, rows, row, done)
  }

  ghost predicate CountMid(counts: map<Slot, Tally>, p: Prepared, card: CardId, at: Setting, rows: seq<Row>, row: Row, done: seq<Prepared>) {
    card in p.targets ==>
      Get(counts, Slot(p.rule.id, card)) ==
      (if p in done && card == row.card then Add(TallyOf(p.rule, card, at, rows), row) else TallyOf(p.rule, card, at, rows))
  }

  lemma SameRule(prepared: seq<Prepared>, p: Prepared, q: Prepared)
    requires UniqueRules(prepared) && p in prepared && q in prepared && p.rule.id == q.rule.id
    ensures p == q
  {
  }

  lemma CountOneRule(counts: map<Slot, Tally>, prepared: seq<Prepared>, at: Setting, rows: seq<Row>, row: Row,
                     done: seq<Prepared>, next: Prepared)
    requires UniqueRules(prepared) && CountsMid(counts, prepared, at, rows, row, done)
    requires next in prepared && next !in done && row.card in next.targets
    ensures var slot := Slot(next.rule.id, row.card);
            CountsMid(counts[slot := Add(Get(counts, slot), row)], prepared, at, rows, row, done + [next])
  {
    var slot := Slot(next.rule.id, row.card);
    var after, more := counts[slot := Add(Get(counts, slot), row)], done + [next];
    assert CountMid(counts, next, row.card, at, rows, row, done);
    forall p, card | p in prepared
      ensures CountMid(after, p, card, at, rows, row, more)
    {
      assert CountMid(counts, p, card, at, rows, row, done);
      if p.rule.id == next.rule.id {
        SameRule(prepared, p, next);
      }
    }
  }

  lemma RowCounted(counts: map<Slot, Tally>, rules: seq<Rule>, active: set<CardId>, prepared: seq<Prepared>, at: Setting,
                   rows: seq<Row>, row: Row)
    requires forall p :: p in prepared ==> PreparedFor(rules, active, at, p)
    requires CountsMid(counts, prepared, at, rows, row, MatchingRules(prepared, KindOf(row)))
    ensures CountsOk(counts, prepared, at, rows + [row])
  {
    MatchingAre(prepared, KindOf(row));
    var longer := rows + [row];
    assert longer[..|longer| - 1] == rows;
    forall p, card | p in prepared
      ensures CountOk(counts, p, card, at, longer)
    {
      assert CountMid(counts, p, card, at, rows, row, MatchingRules(prepared, KindOf(row)));
      MatchesMeans(rules, active, at, p, row);
    }
  }

  method CountMatches(rules: seq<Rule>, active: set<CardId>, prepared: seq<Prepared>, at: Setting, rows: seq<Row>)
    returns (counts: map<Slot, Tally>)
    requires UniqueRules(prepared) && forall p :: p in prepared ==> PreparedFor(rules, active, at, p)
    ensures CountsOk(counts, prepared, at, rows)
  {
    counts := map[];
    var cache: map<Kind, seq<Prepared>> := map[];
    for i := 0 to |rows|
      invariant CountsOk(counts, prepared, at, rows[..i])
      invariant forall kind :: kind in cache ==> cache[kind] == MatchingRules(prepared, kind)
    {
      var row := rows[i];
      var kind := KindOf(row);
      if kind !in cache {
        cache := cache[kind := MatchingRules(prepared, kind)];
      }
      assert rows[..i + 1] == rows[..i] + [row];
      counts := CountRow(counts, rules, active, prepared, at, rows[..i], row, cache[kind]);
    }
    assert rows[..|rows|] == rows;
  }

  /** One row is counted for all rules it matches. */
  method CountRow(counts: map<Slot, Tally>, rules: seq<Rule>, active: set<CardId>, prepared: seq<Prepared>, at: Setting,
                  ghost before: seq<Row>, row: Row, matching: seq<Prepared>) returns (after: map<Slot, Tally>)
    requires UniqueRules(prepared) && forall p :: p in prepared ==> PreparedFor(rules, active, at, p)
    requires CountsOk(counts, prepared, at, before) && matching == MatchingRules(prepared, KindOf(row))
    ensures CountsOk(after, prepared, at, before + [row])
  {
    after := counts;
    MatchingAre(prepared, KindOf(row));
    NoneCounted(counts, prepared, at, before, row);
    for k := 0 to |matching|
      invariant CountsMid(after, prepared, at, before, row, matching[..k])
    {
      var slot := Slot(matching[k].rule.id, row.card);
      assert matching[..k + 1] == matching[..k] + [matching[k]];
      CountOneRule(after, prepared, at, before, row, matching[..k], matching[k]);
      after := after[slot := Add(Get(after, slot), row)];
    }
    assert matching[..|matching|] == matching;
    RowCounted(after, rules, active, prepared, at, before, row);
  }

  lemma NoneCounted(counts: map<Slot, Tally>, prepared: seq<Prepared>, at: Setting, rows: seq<Row>, row: Row)
    requires CountsOk(counts, prepared, at, rows)
    ensures CountsMid(counts, prepared, at, rows, row, [])
  {
    forall p, card | p in prepared
      ensures CountMid(counts, p, card, at, rows, row, [])
    {
      assert CountOk(counts, p, card, at, rows);
    }
  }

  // ---- The rows the query fetches ------------------------------------------------------------------------

  function Fetched(rows: seq<Row>, keep: Row -> bool): seq<Row> {
    if rows == [] then []
    else Fetched(rows[..|rows| - 1], keep) + (if keep(rows[|rows| - 1]) then [rows[|rows| - 1]] else [])
  }

  lemma FetchedLast(rows: seq<Row>, row: Row, keep: Row -> bool)
    ensures Fetched(rows + [row], keep) == Fetched(rows, keep) + (if keep(row) then [row] else [])
  {
    assert (rows + [row])[..|rows + [row]| - 1] == rows;
  }

  /** What is fetched is every row to be kept, as often as it is there, and no other. */
  lemma {:induction false} FetchedAre(rows: seq<Row>, keep: Row -> bool, row: Row)
    ensures multiset(Fetched(rows, keep))[row] == if keep(row) then multiset(rows)[row] else 0
  {
    if rows != [] {
      var init, last := rows[..|rows| - 1], rows[|rows| - 1];
      assert rows == init + [last];
      FetchedAre(init, keep, row);
      assert multiset(rows) == multiset(init) + multiset{last};
      FetchedLast(init, last, keep);
      assert multiset(Fetched(init, keep) + [last]) == multiset(Fetched(init, keep)) + multiset{last};
      assert Fetched(init, keep) + [] == Fetched(init, keep);
    }
  }

  function PlacesOf(rows: seq<Row>, keep: Row -> bool): set<nat> {
    set i: nat | i < |rows| && keep(rows[i])
  }

  lemma {:induction false} FetchedSize(rows: seq<Row>, keep: Row -> bool)
    ensures |Fetched(rows, keep)| == |PlacesOf(rows, keep)|
  {
    if rows != [] {
      var init, n := rows[..|rows| - 1], |rows| - 1;
      FetchedSize(init, keep);
      assert PlacesOf(rows, keep) == PlacesOf(init, keep) + (if keep(rows[n]) then {n} else {});
    }
  }

  // ---- What a tally says -----------------------------------------------------------------------------------

  /** The amounts of some rows, added up. */
  function CentsOf(rows: seq<Row>): int {
    if rows == [] then 0 else CentsOf(rows[..|rows| - 1]) + rows[|rows| - 1].cents
  }

  /** The rows that count for a rule on a card. */
  function Counted(rule: Rule, card: CardId, at: Setting, rows: seq<Row>): seq<Row> {
    Fetched(rows, (row: Row) => Counts(rule, card, at, row))
  }

  function PendingOnes(rows: seq<Row>): seq<Row> {
    Fetched(rows, (row: Row) => row.pending)
  }

  /** Numbers and sums of all these rows, and of the pending ones among them. */
  predicate Tells(tally: Tally, counted: seq<Row>) {
    && tally.count == |counted| && tally.pending == |PendingOnes(counted)|
    && tally.total == CentsOf(counted) && tally.pendingTotal == CentsOf(PendingOnes(counted))
  }

  lemma CentsLast(rows: seq<Row>, row: Row)
    ensures CentsOf(rows + [row]) == CentsOf(rows) + row.cents
  {
    assert (rows + [row])[..|rows + [row]| - 1] == rows;
  }

  lemma OneMoreTold(tally: Tally, counted: seq<Row>, row: Row)
    requires Tells(tally, counted)
    ensures Tells(Add(tally, row), counted + [row])
  {
    FetchedLast(counted, row, (r: Row) => r.pending);
    CentsLast(counted, row);
    CentsLast(PendingOnes(counted), row);
    assert PendingOnes(counted) + [] == PendingOnes(counted);
  }

  /** A tally counts the matching rows and the pending ones among them, and adds up their amounts. */
  lemma {:induction false} TallyTells(rule: Rule, card: CardId, at: Setting, rows: seq<Row>)
    ensures Tells(TallyOf(rule, card, at, rows), Counted(rule, card, at, rows))
  {
    if rows != [] {
      var init, last := rows[..|rows| - 1], rows[|rows| - 1];
      assert rows == init + [last];
      TallyTells(rule, card, at, init);
      FetchedLast(init, last, (row: Row) => Counts(rule, card, at, row));
      assert Counted(rule, card, at, init) + [] == Counted(rule, card, at, init);
      if Counts(rule, card, at, last) {
        OneMoreTold(TallyOf(rule, card, at, init), Counted(rule, card, at, init), last);
      }
    }
  }

  /** A rolling window of so many days ends today and holds that many days; the others hold what they say. */
  lemma WindowHolds(rule: Rule, today: int)
    ensures rule.window.Rolling? ==> forall day :: InWindow(rule, today, Some(day)) <==> day in LastDays(today, rule.window.days)
    ensures rule.window.Rolling? ==> |LastDays(today, rule.window.days)| == rule.window.days
    ensures rule.window.Fixed? ==> forall day :: InWindow(rule, today, Some(day)) <==> rule.window.start <= day <= rule.window.end
    ensures InWindow(rule, today, None) <==> rule.window.AllTime?
    ensures rule.window.AllTime? ==> forall day :: InWindow(rule, today, Some(day))
  {
    if rule.window.Rolling? {
      LastDaysAre(today, rule.window.days);
    }
  }

  /** Today, the day before, and so on. */
  function LastDays(today: int, days: nat): set<int> {
    if days == 0 then {} else LastDays(today, days - 1) + {today - (days - 1)}
  }

  lemma {:induction false} LastDaysAre(today: int, days: nat)
    ensures forall day :: day in LastDays(today, days) <==> today - days < day <= today
    ensures |LastDays(today, days)| == days
  {
    if days > 0 {
      LastDaysAre(today, days - 1);
    }
  }

  lemma TallyLast(rule: Rule, card: CardId, at: Setting, rows: seq<Row>, row: Row)
    ensures var before := TallyOf(rule, card, at, rows);
            TallyOf(rule, card, at, rows + [row]) == if Counts(rule, card, at, row) then Add(before, row) else before
  {
  }

  /** Leaving out rows that do not count changes no tally. */
  lemma {:induction false} FetchedTally(rule: Rule, card: CardId, at: Setting, rows: seq<Row>, keep: Row -> bool)
    requires forall row :: row in rows && Counts(rule, card, at, row) ==> keep(row)
    ensures TallyOf(rule, card, at, Fetched(rows, keep)) == TallyOf(rule, card, at, rows)
  {
    if rows != [] {
      var init, last := rows[..|rows| - 1], rows[|rows| - 1];
      FetchedTally(rule, card, at, init, keep);
      assert rows == init + [last];
      assert last in rows;
      OneFetched(rule, card, at, init, last, keep);
    }
  }

  lemma OneFetched(rule: Rule, card: CardId, at: Setting, rows: seq<Row>, row: Row, keep: Row -> bool)
    requires TallyOf(rule, card, at, Fetched(rows, keep)) == TallyOf(rule, card, at, rows)
    requires Counts(rule, card, at, row) ==> keep(row)
    ensures TallyOf(rule, card, at, Fetched(rows + [row], keep)) == TallyOf(rule, card, at, rows + [row])
  {
    assert (rows + [row])[..|rows|] == rows;
    TallyLast(rule, card, at, rows, row);
    TallyLast(rule, card, at, Fetched(rows, keep), row);
    assert Fetched(rows, keep) + [] == Fetched(rows, keep);
  }

  function Watched(prepared: seq<Prepared>): set<CardId> {
    if prepared == [] then {} else Watched(prepared[..|prepared| - 1]) + prepared[|prepared| - 1].targets
  }

  lemma {:induction false} WatchedHas(prepared: seq<Prepared>, p: Prepared)
    requires p in prepared
    ensures p.targets <= Watched(prepared)
  {
    if p != prepared[|prepared| - 1] {
      assert p in prepared[..|prepared| - 1];
      WatchedHas(prepared[..|prepared| - 1], p);
    }
  }

  // ---- The alerts ---------------------------------------------------------------------------------------

  /** An alert of this prepared rule, with the counts of the scan. */
  ghost predicate AlertOf(counts: map<Slot, Tally>, p: Prepared, alert: Alert) {
    && alert.rule == p.rule && alert.card in p.targets
    && alert.tally == Get(counts, Slot(p.rule.id, alert.card)) && Reached(p.rule, alert.tally)
  }

  ghost predicate AlertsOf(counts: map<Slot, Tally>, prepared: seq<Prepared>, alerts: seq<Alert>) {
    && (forall alert :: alert in alerts <==> exists p :: p in prepared && AlertOf(counts, p, alert))
    && (forall i, j :: 0 <= i < j < |alerts| ==> !(alerts[i].rule.id == alerts[j].rule.id && alerts[i].card == alerts[j].card))
  }

  /** One rule: its cards in any order. */
  method CollectRule(counts: map<Slot, Tally>, p: Prepared) returns (alerts: seq<Alert>)
    ensures forall alert :: alert in alerts <==> AlertOf(counts, p, alert)
    ensures forall i, j :: 0 <= i < j < |alerts| ==> alerts[i].card != alerts[j].card
  {
    alerts := [];
    var todo := p.targets;
    while todo != {}
      invariant todo <= p.targets
      invariant forall alert :: alert in alerts <==> AlertOf(counts, p, alert) && alert.card !in todo
      invariant forall i, j :: 0 <= i < j < |alerts| ==> alerts[i].card != alerts[j].card
      decreases todo
    {
      var card :| card in todo;
      assert forall i :: 0 <= i < |alerts| ==> alerts[i] in alerts && alerts[i].card != card;
      todo := todo - {card};
      var tally := Get(counts, Slot(p.rule.id, card));
      if Reached(p.rule, tally) {
        alerts := alerts + [Alert(p.rule, card, tally)];
      }
    }
  }

  method Collect(counts: map<Slot, Tally>, prepared: seq<Prepared>) returns (alerts: seq<Alert>)
    requires UniqueRules(prepared)
    ensures AlertsOf(counts, prepared, alerts)
  {
    alerts := [];
    for i := 0 to |prepared|
      invariant AlertsOf(counts, prepared[..i], alerts)
    {
      var more := CollectRule(counts, prepared[i]);
      assert prepared[..i + 1] == prepared[..i] + [prepared[i]];
      forall a, b | 0 <= a < |alerts| && 0 <= b < |more|
        ensures alerts[a].rule.id != more[b].rule.id
      {
        assert alerts[a] in alerts && more[b] in more;
        var p :| p in prepared[..i] && AlertOf(counts, p, alerts[a]);
      }
      alerts := alerts + more;
    }
    assert prepared[..|prepared|] == prepared;
  }

  lemma AlertsComparable(cards: seq<CardId>, counts: map<Slot, Tally>, prepared: seq<Prepared>, alerts: seq<Alert>)
    requires AlertsOf(counts, prepared, alerts)
    requires forall p, card :: p in prepared && card in p.targets ==> card in cards
    ensures Comparable(ByCardThenRule(cards), alerts)
  {
    forall i, j | 0 <= i < j < |alerts|
      ensures AlertBefore(cards, alerts[i], alerts[j]) || AlertBefore(cards, alerts[j], alerts[i])
    {
      assert alerts[i] in alerts;
      var p :| p in prepared && AlertOf(counts, p, alerts[i]);
      LessTotal(alerts[i].rule.id, alerts[j].rule.id);
      if Position(cards, alerts[i].card) == Position(cards, alerts[j].card) {
        PositionInjective(cards, alerts[i].card, alerts[j].card);
      }
    }
  }

  /** The queries of the prepared rules, each once. */
  function QueriesOf(prepared: seq<Prepared>): seq<NormalizedQuery> {
    if prepared == [] then []
    else
      var before, last := QueriesOf(prepared[..|prepared| - 1]), prepared[|prepared| - 1].query;
      if last in before then before else before + [last]
  }

  lemma {:induction false} QueriesHave(prepared: seq<Prepared>, p: Prepared)
    requires p in prepared
    ensures p.query in QueriesOf(prepared)
  {
    if p != prepared[|prepared| - 1] {
      assert p in prepared[..|prepared| - 1];
      QueriesHave(prepared[..|prepared| - 1], p);
    }
  }

  /** The filter of the scan: made from the queries of the prepared rules alone. */
  predicate LetThrough(fold: char -> char, at: Setting, prepared: seq<Prepared>, row: Row) {
    row.card in Watched(prepared) && Accepts(fold, BatchedMatchFilter(at.u, QueriesOf(prepared)), ColumnsOf(row), row.text)
  }

  /** The filter lets every row through that counts for an evaluated rule. */
  lemma FilterServesRules(fold: char -> char, rules: seq<Rule>, active: set<CardId>, at: Setting, prepared: seq<Prepared>, p: Prepared, row: Row)
    requires TablesOk(at.u) && p in prepared && PreparedFor(rules, active, at, p) && !p.query.isBlank
    requires row.card in p.targets && Contains(row.text, p.query.normalized)
    ensures LetThrough(fold, at, prepared, row)
  {
    WatchedHas(prepared, p);
    QueriesHave(prepared, p);
    NormalizedIsWellFormed(at.u, p.rule.keyword);
    BatchedFilterLosesNothing(at.u, fold, QueriesOf(prepared), p.query, ColumnsOf(row), row.text);
  }

  /** The one-pass evaluation, with the filter it really makes, finds exactly the alerts that a
      scan per rule and card finds, each once, by card position and then rule id. Keywords are
      refused as blank when a rule is stored. */
  method EvaluateActiveAlerts(rules: seq<Rule>, cards: seq<CardId>, at: Setting, fold: char -> char, rows: seq<Row>)
    returns (alerts: seq<Alert>)
    requires UniqueIds(rules) && TablesOk(at.u)
    requires forall rule :: rule in rules && Evaluated(rule, CardSet(cards)) ==> !QueryOf(at, rule).isBlank
    ensures forall alert :: alert in alerts <==> Due(rules, CardSet(cards), at, rows, alert)
    ensures forall alert :: alert in alerts ==> Tells(alert.tally, Counted(alert.rule, alert.card, at, rows))
    ensures forall rule, card :: rule in rules && card in cards && (rule.cards.None? || card in rule.cards.value) ==>
              var counted := Counted(rule, card, at, rows);
              match rule.metric
              case MatchCount(threshold) => Reports(alerts, rule, card) <==> |counted| >= threshold
              case NetTotal(Some(threshold)) => Reports(alerts, rule, card) <==> CentsOf(counted) >= threshold
              case NetTotal(None) => !Reports(alerts, rule, card)
    ensures forall alert :: alert in alerts ==>
              alert.rule in rules && alert.card in cards && (alert.rule.cards.None? || alert.card in alert.rule.cards.value)
    ensures Sorted(ByCardThenRule(cards), alerts)
    ensures forall i, j :: 0 <= i < j < |alerts| ==> Follows(cards, alerts[i], alerts[j])
  {
    var active := set card | card in cards;
    var prepared := Prepare(rules, active, at);
    var keep := (row: Row) => LetThrough(fold, at, prepared, row);
    var fetched := Fetched(rows, keep);
    var counts := CountMatches(rules, active, prepared, at, fetched);
    alerts := Collect(counts, prepared);
    forall p, row | p in prepared && row in rows && row.card in p.targets && Contains(row.text, p.query.normalized)
      ensures keep(row)
    {
      assert PreparedFor(rules, active, at, p);
      FilterServesRules(fold, rules, active, at, prepared, p, row);
    }
    forall alert
      ensures alert in alerts <==> Due(rules, active, at, rows, alert)
    {
      FoundIsDue(rules, active, prepared, at, rows, keep, counts, alert);
    }
    AlertsComparable(cards, counts, prepared, alerts);
    ByCardThenRuleStrict(cards);
    SortBySorted(ByCardThenRule(cards), alerts);
    alerts := SortBy(ByCardThenRule(cards), alerts);
    DueSpelledOut(rules, cards, at, rows, alerts);
    forall i, j | 0 <= i < j < |alerts|
      ensures Follows(cards, alerts[i], alerts[j])
    {
      assert alerts[i] in alerts && alerts[j] in alerts;
      AlertsFollow(cards, alerts[i], alerts[j]);
    }
  }

  /** The second alert is on a later card of the list, or on the same card for a rule with a larger id. */
  predicate Follows(cards: seq<CardId>, a: Alert, b: Alert) {
    || (a.card == b.card && Less(a.rule.id, b.rule.id))
    || exists k :: 0 <= k < |cards| && cards[k] == a.card && b.card !in cards[..k + 1]
  }

  lemma {:induction false} PositionIs(cards: seq<CardId>, card: CardId)
    requires card in cards
    ensures Position(cards, card) < |cards| && cards[Position(cards, card)] == card && card !in cards[..Position(cards, card)]
  {
    if cards[0] != card {
      PositionIs(cards[1..], card);
      assert cards[..Position(cards, card)] == [cards[0]] + cards[1..][..Position(cards[1..], card)];
    }
  }

  lemma AlertsFollow(cards: seq<CardId>, a: Alert, b: Alert)
    requires a.card in cards && b.card in cards && AlertBefore(cards, a, b)
    ensures Follows(cards, a, b)
  {
    PositionIs(cards, a.card);
    PositionIs(cards, b.card);
    var k, l := Position(cards, a.card), Position(cards, b.card);
    if k < l {
      assert b.card !in cards[..k + 1] by {
        assert cards[..k + 1] <= cards[..l];
      }
    } else {
      PositionInjective(cards, a.card, b.card);
    }
  }

  /** There is an alert for this rule on this card. */
  predicate Reports(alerts: seq<Alert>, rule: Rule, card: CardId) {
    exists alert :: alert in alerts && alert.rule == rule && alert.card == card
  }

  lemma DueSpelledOut(rules: seq<Rule>, cards: seq<CardId>, at: Setting, rows: seq<Row>, alerts: seq<Alert>)
    requires forall alert :: alert in alerts <==> Due(rules, CardSet(cards), at, rows, alert)
    ensures forall alert :: alert in alerts ==> Tells(alert.tally, Counted(alert.rule, alert.card, at, rows))
    ensures forall rule, card :: rule in rules && card in cards && (rule.cards.None? || card in rule.cards.value) ==>
              var counted := Counted(rule, card, at, rows);
              match rule.metric
              case MatchCount(threshold) => Reports(alerts, rule, card) <==> |counted| >= threshold
              case NetTotal(Some(threshold)) => Reports(alerts, rule, card) <==> CentsOf(counted) >= threshold
              case NetTotal(None) => !Reports(alerts, rule, card)
    ensures forall alert :: alert in alerts ==>
              alert.rule in rules && alert.card in cards && (alert.rule.cards.None? || alert.card in alert.rule.cards.value)
  {
    forall alert | alert in alerts
      ensures Tells(alert.tally, Counted(alert.rule, alert.card, at, rows))
    {
      TallyTells(alert.rule, alert.card, at, rows);
    }
    forall rule, card | rule in rules && card in cards && (rule.cards.None? || card in rule.cards.value)
      ensures var counted := Counted(rule, card, at, rows);
              match rule.metric
              case MatchCount(threshold) => Reports(alerts, rule, card) <==> |counted| >= threshold
              case NetTotal(Some(threshold)) => Reports(alerts, rule, card) <==> CentsOf(counted) >= threshold
              case NetTotal(None) => !Reports(alerts, rule, card)
    {
      ReportedExactly(rules, cards, at, rows, alerts, rule, card);
    }
  }

  lemma ReportedExactly(rules: seq<Rule>, cards: seq<CardId>, at: Setting, rows: seq<Row>, alerts: seq<Alert>, rule: Rule, card: CardId)
    requires forall alert :: alert in alerts <==> Due(rules, CardSet(cards), at, rows, alert)
    requires rule in rules && card in cards && (rule.cards.None? || card in rule.cards.value)
    ensures var counted := Counted(rule, card, at, rows);
            match rule.metric
            case MatchCount(threshold) => Reports(alerts, rule, card) <==> |counted| >= threshold
            case NetTotal(Some(threshold)) => Reports(alerts, rule, card) <==> CentsOf(counted) >= threshold
            case NetTotal(None) => !Reports(alerts, rule, card)
  {
    var alert := Alert(rule, card, TallyOf(rule, card, at, rows));
    TallyTells(rule, card, at, rows);
    assert card in TargetsOf(rule, CardSet(cards));
    assert Due(rules, CardSet(cards), at, rows, alert) ==> alert in alerts;
  }

  function CardSet(cards: seq<CardId>): set<CardId> {
    set card | card in cards
  }

  lemma FoundIsDue(rules: seq<Rule>, active: set<CardId>, prepared: seq<Prepared>, at: Setting, rows: seq<Row>,
                   keep: Row -> bool, counts: map<Slot, Tally>, alert: Alert)
    requires forall p :: p in prepared <==> PreparedFor(rules, active, at, p)
    requires CountsOk(counts, prepared, at, Fetched(rows, keep))
    requires forall p, row :: p in prepared && row in rows && row.card in p.targets && Contains(row.text, p.query.normalized) ==> keep(row)
    ensures (exists p :: p in prepared && AlertOf(counts, p, alert)) <==> Due(rules, active, at, rows, alert)
  {
    if p :| p in prepared && AlertOf(counts, p, alert) {
      assert CountOk(counts, p, alert.card, at, Fetched(rows, keep));
      FetchedTally(p.rule, alert.card, at, rows, keep);
    }
    if Due(rules, active, at, rows, alert) {
      var rule := alert.rule;
      var p := Prepared(rule, QueryOf(at, rule), TargetsOf(rule, active),
                        StartOf(rule.window, at.today), EndOf(rule.window, at.today));
      assert PreparedFor(rules, active, at, p);
      assert CountOk(counts, p, alert.card, at, Fetched(rows, keep));
      FetchedTally(rule, alert.card, at, rows, keep);
      assert AlertOf(counts, p, alert);
    }
  }

  // ---- Order does not matter ------------------------------------------------------------------------------

  function Plus(a: Tally, b: Tally): Tally {
    Tally(a.count + b.count, a.pending + b.pending, a.total + b.total, a.pendingTotal + b.pendingTotal)
  }

  lemma {:induction false} TallyAppend(rule: Rule, card: CardId, at: Setting, a: seq<Row>, b: seq<Row>)
    ensures TallyOf(rule, card, at, a + b) == Plus(TallyOf(rule, card, at, a), TallyOf(rule, card, at, b))
  {
    if b == [] {
      assert a + b == a;
    } else {
      var init, last := b[..|b| - 1], b[|b| - 1];
      assert a + b == (a + init) + [last] && b == init + [last];
      TallyAppend(rule, card, at, a, init);
      TallyLast(rule, card, at, a + init, last);
      TallyLast(rule, card, at, init, last);
    }
  }

  /** Another order of the same rows has the last one somewhere, around rows in the order of the rest. */
  lemma TakeOut(init: seq<Row>, last: Row, b: seq<Row>) returns (head: seq<Row>, tail: seq<Row>)
    requires multiset(init + [last]) == multiset(b)
    ensures b == head + [last] + tail && multiset(head + tail) == multiset(init)
  {
    assert last in multiset(init + [last]);
    var k :| 0 <= k < |b| && b[k] == last;
    head, tail := b[..k], b[k + 1..];
    assert b == head + [last] + tail;
    assert multiset(head + tail) == multiset(b) - multiset{last};
  }

  /** The same rows in another order give the same tally. */
  lemma {:induction false} TallyUnordered(rule: Rule, card: CardId, at: Setting, a: seq<Row>, b: seq<Row>)
    requires multiset(a) == multiset(b)
    ensures TallyOf(rule, card, at, a) == TallyOf(rule, card, at, b)
    decreases |a|
  {
    if a == [] {
      assert |multiset(b)| == 0;
    } else {
      var init, last := a[..|a| - 1], a[|a| - 1];
      assert a == init + [last];
      var head, tail := TakeOut(init, last, b);
      TallyUnordered(rule, card, at, init, head + tail);
      TallyLast(rule, card, at, init, last);
      TallyWithout(rule, card, at, head, last, tail);
    }
  }

  lemma TallyWithout(rule: Rule, card: CardId, at: Setting, head: seq<Row>, row: Row, tail: seq<Row>)
    ensures var rest := TallyOf(rule, card, at, head + tail);
            TallyOf(rule, card, at, head + [row] + tail) == if Counts(rule, card, at, row) then Add(rest, row) else rest
  {
    TallyAppend(rule, card, at, head + [row], tail);
    TallyAppend(rule, card, at, head, tail);
    TallyLast(rule, card, at, head, row);
    PlusAdd(TallyOf(rule, card, at, head), TallyOf(rule, card, at, tail), row);
  }

  lemma PlusAdd(a: Tally, b: Tally, row: Row)
    ensures Plus(Add(a, row), b) == Add(Plus(a, b), row)
  {
  }

  /** The result depends on the rows as a multiset only, and not on the order in which sets are
      walked: two sorted lists of the due alerts are the same list. */
  lemma ResultIsDetermined(rules: seq<Rule>, cards: seq<CardId>, at: Setting, rows: seq<Row>, others: seq<Row>,
                           a: seq<Alert>, b: seq<Alert>)
    requires multiset(rows) == multiset(others)
    requires forall alert :: alert in a <==> Due(rules, CardSet(cards), at, rows, alert)
    requires forall alert :: alert in b <==> Due(rules, CardSet(cards), at, others, alert)
    requires Sorted(ByCardThenRule(cards), a) && Sorted(ByCardThenRule(cards), b)
    ensures a == b
  {
    forall alert
      ensures alert in a <==> alert in b
    {
      TallyUnordered(alert.rule, alert.card, at, rows, others);
    }
    ByCardThenRuleStrict(cards);
    SortedUnique(ByCardThenRule(cards), a, b);
  }
}
