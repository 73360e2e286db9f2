/** Normalised queries, and the one filter that stands in for many when all alert rules are
    evaluated in one scan (backend/app/services/search_service.py, limitation_service.py). */
module Prefilter {
  import opened Wrappers
  import opened Matching
  import opened Folding
  import opened Trigrams

  const MAX_QUERY_LENGTH: nat := 100
  const TRIGRAM_MINIMUM: nat := 3

  // ---- Queries -----------------------------------------------------------------------------------

  datatype NormalizedQuery = NormalizedQuery(
    normalized: string, isBlank: bool, usesIndex: bool, ftsExpression: Option<string>, likePattern: Option<string>)

  function Cut(s: string, n: nat): string {
    if |s| <= n then s else s[..n]
  }

  function NormalizeQuery(u: Unicode, query: string): NormalizedQuery {
    var raw := Strip(u.space, query);
    var folded := Cut(Nfkd(u, raw), MAX_QUERY_LENGTH);
    var normalized := Collapse(u.space, Casefold(u, folded));
    if normalized == [] then NormalizedQuery([], true, false, None, None)
    else if |normalized| >= TRIGRAM_MINIMUM then NormalizedQuery(normalized, false, true, Some(Quote(normalized)), None)
    else NormalizedQuery(normalized, false, false, None, Some(LikePattern(normalized)))
  }

  /** A normalised query is tidy and normalised text, and is searched for by its length, only one way. */
  predicate WellFormed(u: Unicode, q: NormalizedQuery) {
    && Tidy(u.space, q.normalized) && Normal(u, q.normalized)
    && (q.isBlank <==> q.normalized == []) && (q.usesIndex <==> |q.normalized| >= TRIGRAM_MINIMUM)
    && (q.usesIndex ==> q.ftsExpression == Some(Quote(q.normalized)))
    && (!q.usesIndex && !q.isBlank ==> q.likePattern == Some(LikePattern(q.normalized)))
  }

  lemma NormalizedIsWellFormed(u: Unicode, query: string)
    requires TablesOk(u)
    ensures WellFormed(u, NormalizeQuery(u, query))
  {
    var decomposed := Nfkd(u, Strip(u.space, query));
    var folded := Cut(decomposed, MAX_QUERY_LENGTH);
    NfkdDecomposed(u, Strip(u.space, query));
    FoldedChars(u, folded);
    FoldedCanonical(u, folded);
    CollapseIsTidy(u.space, Casefold(u, folded));
    CollapseStaysNormal(u, Casefold(u, folded));
  }

  predicate AllSpace(space: char -> bool, s: string) {
    forall i :: 0 <= i < |s| ==> space(s[i])
  }

  lemma {:induction false} LeftStripped(space: char -> bool, a: string, s: string)
    requires AllSpace(space, a)
    ensures StripLeft(space, a + s) == StripLeft(space, s)
  {
    if a == [] {
      assert a + s == s;
    } else {
      assert (a + s)[1..] == a[1..] + s;
      LeftStripped(space, a[1..], s);
    }
  }

  lemma {:induction false} RightStripped(space: char -> bool, s: string, b: string)
    requires AllSpace(space, b)
    ensures StripRight(space, s + b) == StripRight(space, s)
    decreases |b|
  {
    if b == [] {
      assert s + b == s;
    } else {
      assert (s + b)[..|s + b| - 1] == s + b[..|b| - 1];
      RightStripped(space, s, b[..|b| - 1]);
    }
  }

  lemma {:induction false} LeftKeepsRight(space: char -> bool, s: string, b: string)
    requires AllSpace(space, b)
    ensures StripRight(space, StripLeft(space, s + b)) == StripRight(space, StripLeft(space, s))
  {
    if s == [] {
      assert s + b == b && b + [] == b;
      LeftStripped(space, b, []);
    } else if space(s[0]) {
      assert (s + b)[1..] == s[1..] + b;
      LeftKeepsRight(space, s[1..], b);
    } else {
      RightStripped(space, s, b);
    }
  }

  /** White space around a query never counts, however long it is. */
  lemma OuterSpaceIsFree(u: Unicode, a: string, query: string, b: string)
    requires AllSpace(u.space, a) && AllSpace(u.space, b)
    ensures NormalizeQuery(u, a + query + b) == NormalizeQuery(u, query)
  {
    assert a + query + b == a + (query + b);
    LeftStripped(u.space, a, query + b);
    LeftKeepsRight(u.space, query, b);
  }

  // ---- The batched filter ---------------------------------------------------------------------------

  function CommonPrefix2(a: string, b: string): string {
    if a == [] || b == [] || a[0] != b[0] then [] else [a[0]] + CommonPrefix2(a[1..], b[1..])
  }

  function CommonPrefix(texts: seq<string>): string
    requires texts != []
  {
    if |texts| == 1 then texts[0] else CommonPrefix2(texts[0], CommonPrefix(texts[1..]))
  }

  /** A full-text expression, if any query is indexed, and the patterns of the short ones. */
  datatype Filter = Filter(fts: Option<string>, likes: seq<string>)

  function Texts(queries: seq<NormalizedQuery>): seq<string> {
    if queries == [] then []
    else (if queries[0].usesIndex then [queries[0].normalized] else []) + Texts(queries[1..])
  }

  function Likes(queries: seq<NormalizedQuery>): seq<string> {
    if queries == [] then []
    else
      (if queries[0].usesIndex then []
       else [if queries[0].likePattern.Some? then queries[0].likePattern.value else ""]) + Likes(queries[1..])
  }

  /** One phrase for a shared prefix that is long enough, otherwise all phrases joined by OR. */
  function FtsExpression(u: Unicode, texts: seq<string>): string
    requires texts != []
  {
    var shared := Strip(u.space, CommonPrefix(texts));
    if |shared| >= 3 then
      var query := NormalizeQuery(u, shared);
      if query.ftsExpression.Some? then query.ftsExpression.value else ""
    else JoinOr(texts)
  }

  function BatchedMatchFilter(u: Unicode, queries: seq<NormalizedQuery>): Filter {
    var texts := Texts(queries);
    Filter(if texts == [] then None else Some(FtsExpression(u, texts)), Likes(queries))
  }

  /** A row by its indexed columns; the last one is the search text. */
  type Columns = Trigrams.Columns

  predicate HasText(columns: Columns, text: string) {
    columns != [] && columns[|columns| - 1] == Some(text)
  }

  /** Does the filter let the row through? A full-text expression is parsed, and one of its
      phrases has to be in one of the columns. */
  predicate Accepts(fold: char -> char, filter: Filter, columns: Columns, text: string) {
    || (filter.fts.Some? && ParseOr(filter.fts.value).Some? &&
        exists phrase :: phrase in ParseOr(filter.fts.value).value && ColumnContains(fold, columns, phrase))
    || (exists pattern :: pattern in filter.likes && Like(pattern, text))
  }

  lemma {:induction false} CommonPrefix2IsPrefix(a: string, b: string)
    ensures CommonPrefix2(a, b) <= a && CommonPrefix2(a, b) <= b
  {
    if a != [] && b != [] && a[0] == b[0] {
      CommonPrefix2IsPrefix(a[1..], b[1..]);
    }
  }

  lemma {:induction false} CommonPrefixIsPrefix(texts: seq<string>, text: string)
    requires texts != [] && text in texts
    ensures CommonPrefix(texts) <= text
  {
    if |texts| > 1 {
      CommonPrefix2IsPrefix(texts[0], CommonPrefix(texts[1..]));
      if text != texts[0] {
        assert text in texts[1..];
        CommonPrefixIsPrefix(texts[1..], text);
      }
    }
  }

  /** Stripping the head of a tidy text takes at most one blank off its end. */
  lemma StripPrefix(space: char -> bool, s: string, n: nat)
    requires Tidy(space, s) && n <= |s|
    ensures Strip(space, s[..n]) <= s && n - 1 <= |Strip(space, s[..n])| <= n && Tidy(space, Strip(space, s[..n]))
  {
    var p := s[..n];
    assert StripLeft(space, p) == p;
    if n > 0 && space(p[n - 1]) {
      assert p[..n - 1] == s[..n - 1];
      assert StripRight(space, p) == StripRight(space, s[..n - 1]);
      if n > 1 {
        assert !space(s[n - 2]);
      }
      assert StripRight(space, p) == s[..n - 1];
      TidyPrefix(space, s, n - 1);
    } else {
      TidyPrefix(space, s, n);
    }
  }

  lemma TidyPrefix(space: char -> bool, s: string, n: nat)
    requires Tidy(space, s) && n <= |s| && (n > 0 ==> !space(s[n - 1]))
    ensures Tidy(space, s[..n])
  {
  }

  /** Normalising a prefix of a normalised text again gives a prefix of it. */
  lemma PrefixNormalizes(u: Unicode, s: string, n: nat)
    requires Tidy(u.space, s) && Normal(u, s) && n <= |s| && Tidy(u.space, s[..n])
    ensures NormalizeQuery(u, s[..n]).normalized <= s
    ensures n >= 3 ==> |NormalizeQuery(u, s[..n]).normalized| >= 3
  {
    var p := s[..n];
    StripPrefix(u.space, p, n);
    assert p[..n] == p;
    assert Strip(u.space, p) == p by {
      StripTidy(u.space, p);
    }
    var m := if n <= MAX_QUERY_LENGTH then n else MAX_QUERY_LENGTH;
    NormalPrefix(u, s, n);
    NormalPrefix(u, s, m);
    assert Cut(p, MAX_QUERY_LENGTH) == s[..m];
    CollapsePrefix(u.space, s, m);
  }

  lemma StripTidy(space: char -> bool, s: string)
    requires Tidy(space, s)
    ensures Strip(space, s) == s
  {
  }

  /** Collapsing the head of a tidy text takes at most one blank off its end. */
  lemma CollapsePrefix(space: char -> bool, s: string, n: nat)
    requires Tidy(space, s) && n <= |s|
    ensures Collapse(space, s[..n]) <= s && |Collapse(space, s[..n])| >= n - 1
    ensures n < MAX_QUERY_LENGTH && n > 0 && !space(s[n - 1]) ==> Collapse(space, s[..n]) == s[..n]
  {
    if n > 0 && space(s[n - 1]) {
      TidyPrefix(space, s, n - 1);
      CollapseTrailing(space, [], s[..n - 1], s[n - 1]);
      assert s[..n - 1] + [s[n - 1]] == s[..n];
      CollapseTidy(space, s[..n - 1]);
    } else {
      TidyPrefix(space, s, n);
      CollapseTidy(space, s[..n]);
    }
  }

  lemma {:induction false} CollapseTrailing(space: char -> bool, word: string, s: string, c: char)
    requires space(c)
    ensures WordsFrom(space, word, s + [c]) == WordsFrom(space, word, s)
    decreases |s|
  {
    if s == [] {
      assert ([] + [c])[1..] == [];
      assert [] + [c] == [c];
    } else {
      assert (s + [c])[1..] == s[1..] + [c];
      if space(s[0]) {
        CollapseTrailing(space, [], s[1..], c);
      } else {
        CollapseTrailing(space, word + [s[0]], s[1..], c);
      }
    }
  }

  // ---- Soundness ----------------------------------------------------------------------------------------

  lemma {:induction false} TextIsListed(queries: seq<NormalizedQuery>, q: NormalizedQuery)
    requires q in queries
    ensures q.usesIndex ==> q.normalized in Texts(queries)
    ensures !q.usesIndex && q.likePattern.Some? ==> q.likePattern.value in Likes(queries)
  {
    if q != queries[0] {
      assert q in queries[1..];
      TextIsListed(queries[1..], q);
    }
  }

  lemma ContainsPrefix(text: string, q: string, p: string)
    requires Contains(text, q) && p <= q
    ensures Contains(text, p)
  {
    var i :| 0 <= i <= |text| && ContainsAt(text, q, i);
    assert text[i..i + |p|] == text[i..i + |q|][..|p|];
    assert ContainsAt(text, p, i);
  }

  /** A row that contains a phrase is found by it: its search text is one of the indexed columns. */
  lemma TextIsIndexed(fold: char -> char, columns: Columns, text: string, p: string)
    requires HasText(columns, text) && Contains(text, p)
    ensures ColumnContains(fold, columns, p)
  {
    var i :| 0 <= i <= |text| && ContainsAt(text, p, i);
    assert Fold(fold, text)[i..i + |p|] == Fold(fold, p) by {
      forall k | 0 <= k < |p|
        ensures Fold(fold, text)[i + k] == Fold(fold, p)[k]
      {
        assert text[i..i + |p|][k] == p[k];
      }
    }
    assert ContainsAt(Fold(fold, text), Fold(fold, p), i);
    assert columns[|columns| - 1].Some?;
  }

  /** The expression names a phrase that is the text itself or a prefix of it. */
  lemma ExpressionCovers(u: Unicode, texts: seq<string>, text: string)
    requires text in texts && Tidy(u.space, text) && Normal(u, text)
    ensures ParseOr(FtsExpression(u, texts)).Some?
    ensures exists phrase :: phrase in ParseOr(FtsExpression(u, texts)).value && phrase <= text
  {
    CommonPrefixIsPrefix(texts, text);
    var head := CommonPrefix(texts);
    assert head == text[..|head|];
    StripPrefix(u.space, text, |head|);
    var shared := Strip(u.space, head);
    if |shared| >= 3 {
      assert shared == text[..|shared|];
      PrefixNormalizes(u, text, |shared|);
      var phrase := NormalizeQuery(u, shared).normalized;
      JoinParsesBack([phrase]);
      assert phrase in [phrase];
    } else {
      JoinParsesBack(texts);
    }
  }

  lemma {:induction false} LongestOfTwo(a: string, b: string, p: string)
    requires p <= a && p <= b
    ensures p <= CommonPrefix2(a, b)
  {
    if p != [] {
      LongestOfTwo(a[1..], b[1..], p[1..]);
      assert p == [p[0]] + p[1..];
    }
  }

  /** The common prefix is the longest there is. */
  lemma {:induction false} CommonPrefixIsLongest(texts: seq<string>, p: string)
    requires texts != [] && forall text :: text in texts ==> p <= text
    ensures p <= CommonPrefix(texts)
  {
    assert texts[0] in texts;
    if |texts| > 1 {
      forall text | text in texts[1..]
        ensures p <= text
      {
        assert text in texts;
      }
      CommonPrefixIsLongest(texts[1..], p);
      LongestOfTwo(texts[0], CommonPrefix(texts[1..]), p);
    }
  }

  /** Exactly which phrases the expression asks for: one, the shared prefix, if it is three characters or
      longer, and otherwise all of them. */
  lemma ExpressionAsks(u: Unicode, texts: seq<string>, text: string)
    requires text in texts && Tidy(u.space, text) && Normal(u, text)
    ensures var shared := Strip(u.space, CommonPrefix(texts));
            ParseOr(FtsExpression(u, texts)) == Some(if |shared| >= 3 then [NormalizeQuery(u, shared).normalized] else texts)
  {
    ExpressionCovers(u, texts, text);
    CommonPrefixIsPrefix(texts, text);
    var head := CommonPrefix(texts);
    assert head == text[..|head|];
    StripPrefix(u.space, text, |head|);
    var shared := Strip(u.space, head);
    if |shared| >= 3 {
      assert shared == text[..|shared|];
      PrefixNormalizes(u, text, |shared|);
      JoinParsesBack([NormalizeQuery(u, shared).normalized]);
    } else {
      JoinParsesBack(texts);
    }
  }

  /** The batched filter loses no row: whichever rule's keyword the search text of a row
      contains, the filter made for all rules lets the row through. */
  lemma BatchedFilterLosesNothing(u: Unicode, fold: char -> char, queries: seq<NormalizedQuery>,
                                  q: NormalizedQuery, columns: Columns, text: string)
    requires q in queries && WellFormed(u, q) && !q.isBlank
    requires HasText(columns, text) && Contains(text, q.normalized)
    ensures Accepts(fold, BatchedMatchFilter(u, queries), columns, text)
  {
    TextIsListed(queries, q);
    var filter := BatchedMatchFilter(u, queries);
    if q.usesIndex {
      ExpressionCovers(u, Texts(queries), q.normalized);
      var phrase :| phrase in ParseOr(filter.fts.value).value && phrase <= q.normalized;
      ContainsPrefix(text, q.normalized, phrase);
      TextIsIndexed(fold, columns, text, phrase);
    } else {
      LikeFinds(q.normalized, text);
      var i :| 0 <= i <= |text| && ContainsAt(text, q.normalized, i);
      assert PieceAlike(text, q.normalized, i);
      assert q.likePattern.value in filter.likes;
    }
  }

  // ---- One query alone --------------------------------------------------------------------------------------

  /** The filter of a single search: all rows, a phrase in some column, or a pattern on the search text. */
  predicate MatchFilter(fold: char -> char, q: NormalizedQuery, columns: Columns, text: string) {
    if q.isBlank then true
    else if q.usesIndex then
      q.ftsExpression.Some? && ParseOr(q.ftsExpression.value).Some? &&
      exists phrase :: phrase in ParseOr(q.ftsExpression.value).value && ColumnContains(fold, columns, phrase)
    else q.likePattern.Some? && Like(q.likePattern.value, text)
  }

  /** A search finds a row exactly when a column contains the query (three characters or more),
      or the search text does (fewer), whatever operators and wildcards the query looks like. */
  lemma SearchIsContainment(u: Unicode, fold: char -> char, q: NormalizedQuery, columns: Columns, text: string)
    requires WellFormed(u, q) && FoldingOk(u) && NoCapitals(text)
    ensures MatchFilter(fold, q, columns, text) <==>
            if q.isBlank then true
            else if |q.normalized| >= 3 then ColumnContains(fold, columns, q.normalized)
            else Contains(text, q.normalized)
  {
    if q.usesIndex {
      JoinParsesBack([q.normalized]);
      assert q.normalized in [q.normalized];
    } else if !q.isBlank {
      NormalHasNoCapitals(u, q.normalized);
      LikeIsContainment(q.normalized, text);
    }
  }
}
