/** How texts are made comparable: decomposed, put in canonical order, case-folded, and their white
    space collapsed (`normalize_search_text` in backend/app/services/sync_service.py and
    `normalize_query` in backend/app/services/search_service.py). */
module Folding {
  import opened Wrappers
  import opened Matching

  // ---- Unicode by its tables ---------------------------------------------------------------------

  /** The full compatibility decomposition, the combining class and the full case folding of each
      character, and which characters are white space. */
  datatype Unicode = Unicode(decomposition: char -> string, combining: char -> nat, folding: char -> string, space: char -> bool)

  function MapChars(f: char -> string, s: string): string {
    if s == [] then [] else f(s[0]) + MapChars(f, s[1..])
  }

  /** Put a character in front: past the combining marks of lower class, never past a starter. */
  function Settle(u: Unicode, c: char, s: string): string {
    if s == [] || u.combining(c) == 0 || u.combining(s[0]) == 0 || u.combining(c) <= u.combining(s[0]) then [c] + s
    else [s[0]] + Settle(u, c, s[1..])
  }

  /** Canonical order: combining marks between two starters by class, equal ones as they came. */
  function Order(u: Unicode, s: string): string {
    if s == [] then [] else Settle(u, s[0], Order(u, s[1..]))
  }

  function Nfkd(u: Unicode, s: string): string {
    Order(u, MapChars(u.decomposition, s))
  }

  function Casefold(u: Unicode, s: string): string {
    MapChars(u.folding, s)
  }

  // ---- White space -------------------------------------------------------------------------------

  function StripLeft(space: char -> bool, s: string): string {
    if s != [] && space(s[0]) then StripLeft(space, s[1..]) else s
  }

  function StripRight(space: char -> bool, s: string): string {
    if s != [] && space(s[|s| - 1]) then StripRight(space, s[..|s| - 1]) else s
  }

  function Strip(space: char -> bool, s: string): string {
    StripRight(space, StripLeft(space, s))
  }

  function WordsFrom(space: char -> bool, word: string, s: string): seq<string>
    decreases |s|
  {
    var done := if word == [] then [] else [word];
    if s == [] then done
    else if space(s[0]) then done + WordsFrom(space, [], s[1..])
    else WordsFrom(space, word + [s[0]], s[1..])
  }

  function JoinWords(words: seq<string>): string {
    if words == [] then []
    else if |words| == 1 then words[0]
    else words[0] + " " + JoinWords(words[1..])
  }

  /** Split at white space and join with single blanks. */
  function Collapse(space: char -> bool, s: string): string {
    JoinWords(WordsFrom(space, [], s))
  }

  /** No white space at either end, single blanks inside and no other white space. */
  predicate Tidy(space: char -> bool, s: string) {
    && (forall i :: 0 <= i < |s| && space(s[i]) ==> s[i] == ' ' && 0 < i < |s| - 1 && !space(s[i - 1]) && !space(s[i + 1]))
  }

  predicate AllInk(space: char -> bool, s: string) {
    forall i :: 0 <= i < |s| ==> !space(s[i])
  }

  ghost predicate Words(space: char -> bool, words: seq<string>) {
    forall i :: 0 <= i < |words| ==> words[i] != [] && AllInk(space, words[i])
  }

  lemma {:induction false} WordsAreWords(space: char -> bool, word: string, s: string)
    requires AllInk(space, word)
    ensures Words(space, WordsFrom(space, word, s))
    decreases |s|
  {
    if s != [] {
      if space(s[0]) {
        WordsAreWords(space, [], s[1..]);
      } else {
        WordsAreWords(space, word + [s[0]], s[1..]);
      }
    }
  }

  lemma TidyJoin(space: char -> bool, word: string, rest: string)
    requires word != [] && AllInk(space, word) && rest != [] && Tidy(space, rest) && space(' ')
    ensures Tidy(space, word + " " + rest)
  {
  }

  lemma {:induction false} JoinedIsTidy(space: char -> bool, words: seq<string>)
    requires Words(space, words) && space(' ')
    ensures Tidy(space, JoinWords(words)) && (words != [] ==> JoinWords(words) != [])
  {
    if |words| > 1 {
      JoinedIsTidy(space, words[1..]);
      TidyJoin(space, words[0], JoinWords(words[1..]));
    }
  }

  lemma CollapseIsTidy(space: char -> bool, s: string)
    requires space(' ')
    ensures Tidy(space, Collapse(space, s))
  {
    WordsAreWords(space, [], s);
    JoinedIsTidy(space, WordsFrom(space, [], s));
  }

  /** What is left to read, after `word`, of a tidy text. */
  predicate TidyRest(space: char -> bool, word: string, s: string) {
    && AllInk(space, word) && (s != [] && space(s[0]) ==> word != [])
    && (forall i :: 0 <= i < |s| && space(s[i]) ==>
          s[i] == ' ' && i < |s| - 1 && !space(s[i + 1]) && (i > 0 ==> !space(s[i - 1])))
  }

  lemma {:induction false} CollapseRest(space: char -> bool, word: string, s: string)
    requires TidyRest(space, word, s)
    ensures JoinWords(WordsFrom(space, word, s)) == word + s
    ensures word + s != [] ==> WordsFrom(space, word, s) != []
    decreases |s|
  {
    if s != [] {
      if space(s[0]) {
        assert !space(s[1]);
        CollapseRest(space, [], s[1..]);
        var more := WordsFrom(space, [], s[1..]);
        assert ([word] + more)[1..] == more;
        assert word + " " + ([] + s[1..]) == word + s;
      } else {
        CollapseRest(space, word + [s[0]], s[1..]);
        assert word + [s[0]] + s[1..] == word + s;
      }
    } else {
      assert word + s == word;
    }
  }

  lemma CollapseTidy(space: char -> bool, s: string)
    requires Tidy(space, s)
    ensures Collapse(space, s) == s
  {
    CollapseRest(space, [], s);
    assert [] + s == s;
  }

  // ---- The search text of a row ---------------------------------------------------------------------

  /** Columns that are absent or empty are left out. */
  function Filled(parts: seq<Option<string>>): seq<string> {
    if parts == [] then []
    else (if parts[0].Some? && parts[0].value != [] then [parts[0].value] else []) + Filled(parts[1..])
  }

  /** One haystack over merchant, name and statement text. */
  function SearchText(u: Unicode, parts: seq<Option<string>>): string {
    Collapse(u.space, Casefold(u, Nfkd(u, JoinWords(Filled(parts)))))
  }

  // ---- What holds of the tables ------------------------------------------------------------------------

  predicate Decomposed(u: Unicode, c: char) {
    u.decomposition(c) == [c]
  }

  /** Decomposing and folding leave this character as it is. */
  predicate Closed(u: Unicode, c: char) {
    Decomposed(u, c) && u.folding(c) == [c]
  }

  /** What is decomposed stays decomposed. */
  ghost predicate DecompositionOk(u: Unicode) {
    forall c, d :: d in u.decomposition(c) ==> Decomposed(u, d)
  }

  /** What is folded stays folded; a decomposed character folds to decomposed ones, and a mark
      that changes becomes a starter. */
  ghost predicate FoldingOk(u: Unicode) {
    forall c :: CharFolds(u, c)
  }

  ghost predicate CharFolds(u: Unicode, c: char) {
    && u.folding(c) != []
    && (forall e :: e in u.folding(c) ==> u.folding(e) == [e])
    && (Decomposed(u, c) ==> forall e :: e in u.folding(c) ==> Decomposed(u, e) && (e != c ==> u.combining(e) == 0))
    && ('A' <= c <= 'Z' ==> u.folding(c) != [c])
  }

  ghost predicate SpaceOk(u: Unicode) {
    u.space(' ') && Closed(u, ' ') && forall c :: u.space(c) ==> u.combining(c) == 0
  }

  /** Facts of the Unicode tables that the search relies on. */
  ghost predicate TablesOk(u: Unicode) {
    DecompositionOk(u) && FoldingOk(u) && SpaceOk(u)
  }

  predicate AllDecomposed(u: Unicode, s: string) {
    forall i :: 0 <= i < |s| ==> Decomposed(u, s[i])
  }

  predicate AllClosed(u: Unicode, s: string) {
    forall i :: 0 <= i < |s| ==> Closed(u, s[i])
  }

  predicate AllStarters(u: Unicode, s: string) {
    forall i :: 0 <= i < |s| ==> u.combining(s[i]) == 0
  }

  predicate Canonical(u: Unicode, s: string) {
    forall i :: 0 < i < |s| ==> u.combining(s[i]) == 0 || u.combining(s[i - 1]) <= u.combining(s[i])
  }

  // ---- Normalised text ------------------------------------------------------------------------------------

  lemma {:induction false} MapAppend(f: char -> string, a: string, b: string)
    ensures MapChars(f, a + b) == MapChars(f, a) + MapChars(f, b)
  {
    if a == [] {
      assert a + b == b;
    } else {
      assert (a + b)[0] == a[0] && (a + b)[1..] == a[1..] + b;
      MapAppend(f, a[1..], b);
    }
  }

  lemma {:induction false} MapFixed(f: char -> string, s: string)
    requires forall i :: 0 <= i < |s| ==> f(s[i]) == [s[i]]
    ensures MapChars(f, s) == s
  {
    if s != [] {
      MapFixed(f, s[1..]);
      assert [s[0]] + s[1..] == s;
    }
  }

  lemma {:induction false} SettleElements(u: Unicode, c: char, s: string)
    ensures forall x :: x in Settle(u, c, s) <==> x == c || x in s
  {
    if s != [] {
      SettleElements(u, c, s[1..]);
    }
  }

  lemma {:induction false} OrderElements(u: Unicode, s: string)
    ensures forall x :: x in Order(u, s) <==> x in s
  {
    if s != [] {
      OrderElements(u, s[1..]);
      SettleElements(u, s[0], Order(u, s[1..]));
    }
  }

  lemma CanonicalCons(u: Unicode, c: char, s: string)
    requires Canonical(u, s)
    requires s != [] ==> u.combining(s[0]) == 0 || u.combining(c) <= u.combining(s[0])
    ensures Canonical(u, [c] + s)
  {
  }

  lemma CanonicalTail(u: Unicode, s: string)
    requires Canonical(u, s) && s != []
    ensures Canonical(u, s[1..])
  {
  }

  lemma {:induction false} SettleCanonical(u: Unicode, c: char, s: string)
    requires Canonical(u, s)
    ensures Canonical(u, Settle(u, c, s))
  {
    if s == [] || u.combining(c) == 0 || u.combining(s[0]) == 0 || u.combining(c) <= u.combining(s[0]) {
      CanonicalCons(u, c, s);
    } else {
      CanonicalTail(u, s);
      SettleCanonical(u, c, s[1..]);
      CanonicalCons(u, s[0], Settle(u, c, s[1..]));
    }
  }

  lemma {:induction false} OrderCanonical(u: Unicode, s: string)
    ensures Canonical(u, Order(u, s))
  {
    if s != [] {
      OrderCanonical(u, s[1..]);
      SettleCanonical(u, s[0], Order(u, s[1..]));
    }
  }

  lemma {:induction false} CanonicalStays(u: Unicode, s: string)
    requires Canonical(u, s)
    ensures Order(u, s) == s
  {
    if s != [] {
      CanonicalTail(u, s);
      CanonicalStays(u, s[1..]);
      assert [s[0]] + s[1..] == s;
    }
  }

  lemma {:induction false} DecomposedChars(u: Unicode, s: string)
    requires DecompositionOk(u)
    ensures AllDecomposed(u, MapChars(u.decomposition, s))
  {
    if s != [] {
      DecomposedChars(u, s[1..]);
      AppendAll(u, u.decomposition(s[0]), MapChars(u.decomposition, s[1..]));
    }
  }

  lemma AppendAll(u: Unicode, a: string, b: string)
    requires AllDecomposed(u, b) && forall i :: 0 <= i < |a| ==> a[i] in a && Decomposed(u, a[i])
    ensures AllDecomposed(u, a + b)
  {
  }

  lemma NfkdDecomposed(u: Unicode, s: string)
    requires DecompositionOk(u)
    ensures AllDecomposed(u, Nfkd(u, s)) && Canonical(u, Nfkd(u, s))
  {
    var d := MapChars(u.decomposition, s);
    DecomposedChars(u, s);
    OrderElements(u, d);
    OrderCanonical(u, d);
    forall i | 0 <= i < |Order(u, d)|
      ensures Decomposed(u, Order(u, d)[i])
    {
      assert Order(u, d)[i] in d;
    }
  }

  lemma {:induction false} FoldedChars(u: Unicode, s: string)
    requires FoldingOk(u) && AllDecomposed(u, s)
    ensures AllClosed(u, Casefold(u, s))
  {
    if s != [] {
      assert CharFolds(u, s[0]);
      FoldedChars(u, s[1..]);
    }
  }

  /** Case folding keeps the canonical order: a mark either stays or becomes a starter. */
  lemma {:induction false} FoldedCanonical(u: Unicode, s: string)
    requires FoldingOk(u) && AllDecomposed(u, s) && Canonical(u, s)
    ensures Canonical(u, Casefold(u, s))
    ensures s != [] ==> Casefold(u, s) != [] && (Casefold(u, s)[0] == s[0] || u.combining(Casefold(u, s)[0]) == 0)
  {
    if s != [] {
      assert CharFolds(u, s[0]);
      CanonicalTail(u, s);
      FoldedCanonical(u, s[1..]);
      FoldedHead(u, s[0], Casefold(u, s[1..]));
    }
  }

  lemma FoldedHead(u: Unicode, c: char, s: string)
    requires CharFolds(u, c) && Decomposed(u, c) && Canonical(u, s)
    requires s != [] ==> u.combining(s[0]) == 0 || u.combining(c) <= u.combining(s[0])
    ensures Canonical(u, u.folding(c) + s) && (u.folding(c)[0] == c || u.combining(u.folding(c)[0]) == 0)
  {
    var f := u.folding(c);
    assert f[0] in f;
    if c in f {
      assert f == [c];
      CanonicalCons(u, c, s);
    } else {
      assert forall i :: 0 <= i < |f| ==> f[i] in f && u.combining(f[i]) == 0;
    }
  }

  // ---- White space and canonical order ------------------------------------------------------------------

  /** Normalised text is in canonical order, and no character of it changes any more. */
  predicate Normal(u: Unicode, s: string) {
    Canonical(u, s) && AllClosed(u, s)
  }

  ghost predicate NormalWords(u: Unicode, words: seq<string>) {
    forall i :: 0 <= i < |words| ==> Normal(u, words[i])
  }

  lemma NormalParts(u: Unicode, a: string, b: string)
    requires Normal(u, a + b)
    ensures Normal(u, a) && Normal(u, b)
  {
    var s := a + b;
    assert forall i :: 0 <= i < |a| ==> a[i] == s[i];
    forall i | 0 <= i < |b|
      ensures Closed(u, b[i]) && (i > 0 ==> u.combining(b[i]) == 0 || u.combining(b[i - 1]) <= u.combining(b[i]))
    {
      assert b[i] == s[|a| + i];
      if i > 0 {
        assert b[i - 1] == s[|a| + i - 1];
      }
    }
  }

  lemma {:induction false} WordsStayNormal(u: Unicode, word: string, s: string)
    requires Normal(u, word + s)
    ensures NormalWords(u, WordsFrom(u.space, word, s))
    decreases |s|
  {
    NormalParts(u, word, s);
    if s != [] {
      assert word + s == (word + [s[0]]) + s[1..];
      if u.space(s[0]) {
        NormalParts(u, word + [s[0]], s[1..]);
        assert [] + s[1..] == s[1..];
        WordsStayNormal(u, [], s[1..]);
        OneMoreWord(u, word, WordsFrom(u.space, [], s[1..]));
      } else {
        WordsStayNormal(u, word + [s[0]], s[1..]);
      }
    }
  }

  lemma OneMoreWord(u: Unicode, word: string, words: seq<string>)
    requires Normal(u, word) && NormalWords(u, words)
    ensures NormalWords(u, (if word == [] then [] else [word]) + words)
  {
    if word == [] {
      assert [] + words == words;
    }
  }

  lemma {:induction false} JoinStaysNormal(u: Unicode, words: seq<string>)
    requires SpaceOk(u) && NormalWords(u, words)
    ensures Canonical(u, JoinWords(words)) && AllClosed(u, JoinWords(words))
  {
    if |words| > 1 {
      JoinStaysNormal(u, words[1..]);
      BlankBetween(u, words[0], JoinWords(words[1..]));
    }
  }

  lemma BlankBetween(u: Unicode, a: string, b: string)
    requires SpaceOk(u) && Canonical(u, a) && Canonical(u, b) && AllClosed(u, a) && AllClosed(u, b)
    ensures Canonical(u, a + " " + b) && AllClosed(u, a + " " + b)
  {
    assert u.combining(' ') == 0;
  }

  lemma CollapseStaysNormal(u: Unicode, s: string)
    requires SpaceOk(u) && Normal(u, s)
    ensures Normal(u, Collapse(u.space, s))
  {
    assert [] + s == s;
    WordsStayNormal(u, [], s);
    JoinStaysNormal(u, WordsFrom(u.space, [], s));
  }

  lemma SearchTextIsNormal(u: Unicode, parts: seq<Option<string>>)
    requires TablesOk(u)
    ensures Normal(u, SearchText(u, parts)) && NoCapitals(SearchText(u, parts))
  {
    var joined := JoinWords(Filled(parts));
    NfkdDecomposed(u, joined);
    FoldedChars(u, Nfkd(u, joined));
    FoldedCanonical(u, Nfkd(u, joined));
    CollapseStaysNormal(u, Casefold(u, Nfkd(u, joined)));
    NormalHasNoCapitals(u, SearchText(u, parts));
  }

  lemma NormalHasNoCapitals(u: Unicode, s: string)
    requires FoldingOk(u) && AllClosed(u, s)
    ensures NoCapitals(s)
  {
    forall i | 0 <= i < |s|
      ensures !('A' <= s[i] <= 'Z')
    {
      assert CharFolds(u, s[i]);
    }
  }

  /** Normalised text cut anywhere is still normalised, and folds to itself. */
  lemma NormalPrefix(u: Unicode, s: string, n: nat)
    requires Normal(u, s) && n <= |s|
    ensures Normal(u, s[..n]) && Nfkd(u, s[..n]) == s[..n] && Casefold(u, s[..n]) == s[..n]
  {
    MapFixed(u.decomposition, s[..n]);
    CanonicalStays(u, s[..n]);
    MapFixed(u.folding, s[..n]);
  }

  // ---- A piece of a column in the search text --------------------------------------------------------------

  lemma {:induction false} SettleAtStarter(u: Unicode, c: char, p: string, d: char, q: string)
    requires u.combining(d) == 0
    ensures Settle(u, c, p + [d] + q) == Settle(u, c, p) + [d] + q
  {
    var s := p + [d] + q;
    if p == [] {
      assert s[0] == d;
      assert [c] + s == [c] + [d] + q;
    } else {
      assert s[0] == p[0] && s[1..] == p[1..] + [d] + q;
      SettleAtStarter(u, c, p[1..], d, q);
    }
  }

  /** Nothing moves past a starter. */
  lemma {:induction false} OrderAtStarter(u: Unicode, a: string, d: char, b: string)
    requires u.combining(d) == 0
    ensures Order(u, a + [d] + b) == Order(u, a) + [d] + Order(u, b)
  {
    var s := a + [d] + b;
    if a == [] {
      assert s[0] == d && s[1..] == b;
    } else {
      assert s[0] == a[0] && s[1..] == a[1..] + [d] + b;
      OrderAtStarter(u, a[1..], d, b);
      SettleAtStarter(u, a[0], Order(u, a[1..]), d, Order(u, b));
    }
  }

  lemma {:induction false} OrderAround(u: Unicode, a: string, w: string, b: string)
    requires w != [] && AllStarters(u, w)
    ensures Order(u, a + w + b) == Order(u, a) + w + Order(u, b)
    decreases |w|
  {
    if |w| == 1 {
      assert w == [w[0]];
      OrderAtStarter(u, a, w[0], b);
    } else {
      var rest := w[1..];
      assert a + w + b == a + [w[0]] + ([] + rest + b);
      OrderAround(u, [], rest, b);
      OrderAtStarter(u, a, w[0], [] + rest + b);
      assert w == [w[0]] + rest && Order(u, []) == [];
      assert Order(u, a) + [w[0]] + ([] + rest + Order(u, b)) == Order(u, a) + w + Order(u, b);
    }
  }

  /** This character of a column becomes exactly this character of the search text, and is no mark. */
  predicate Reads(u: Unicode, c: char, x: char) {
    |u.decomposition(c)| == 1 && u.combining(u.decomposition(c)[0]) == 0 && u.folding(u.decomposition(c)[0]) == [x]
  }

  predicate ReadsAs(u: Unicode, w: string, q: string) {
    |w| == |q| && forall i :: 0 <= i < |w| ==> Reads(u, w[i], q[i])
  }

  lemma {:induction false} PieceFolds(u: Unicode, w: string, q: string)
    requires ReadsAs(u, w, q)
    ensures var d := MapChars(u.decomposition, w); |d| == |w| && AllStarters(u, d) && MapChars(u.folding, d) == q
  {
    if w != [] {
      PieceFolds(u, w[1..], q[1..]);
      var d := u.decomposition(w[0]);
      assert d == [d[0]];
      MapAppend(u.folding, d, MapChars(u.decomposition, w[1..]));
      MapFixedOne(u.folding, d[0]);
      assert [q[0]] + q[1..] == q;
    }
  }

  lemma MapFixedOne(f: char -> string, c: char)
    ensures MapChars(f, [c]) == f(c)
  {
    assert [c][1..] == [] && f(c) + [] == f(c);
  }

  /** A piece whose characters are no marks keeps its place through decomposition, ordering and folding. */
  lemma FoldAround(u: Unicode, a: string, w: string, b: string, q: string) returns (left: string, right: string)
    requires w != [] && ReadsAs(u, w, q)
    ensures Casefold(u, Nfkd(u, a + w + b)) == left + q + right
  {
    var x, d, y := MapChars(u.decomposition, a), MapChars(u.decomposition, w), MapChars(u.decomposition, b);
    PieceFolds(u, w, q);
    MapAppend(u.decomposition, a + w, b);
    MapAppend(u.decomposition, a, w);
    OrderAround(u, x, d, y);
    MapAppend(u.folding, Order(u, x) + d, Order(u, y));
    MapAppend(u.folding, Order(u, x), d);
    left, right := MapChars(u.folding, Order(u, x)), MapChars(u.folding, Order(u, y));
  }

  // ---- A tidy piece survives the collapse of white space ----------------------------------------------------

  lemma {:induction false} WordStarts(space: char -> bool, word: string, s: string)
    requires word != []
    ensures word <= JoinWords(WordsFrom(space, word, s)) && WordsFrom(space, word, s) != []
    decreases |s|
  {
    if s != [] {
      if !space(s[0]) {
        WordStarts(space, word + [s[0]], s[1..]);
      }
    }
  }

  lemma {:induction false} TidyStarts(space: char -> bool, word: string, q: string, b: string)
    requires TidyRest(space, word, q) && word + q != []
    ensures word + q <= JoinWords(WordsFrom(space, word, q + b)) && WordsFrom(space, word, q + b) != []
    decreases |q|
  {
    var s := q + b;
    if q == [] {
      assert word + q == word && s == b;
      WordStarts(space, word, b);
    } else {
      assert s[0] == q[0] && s[1..] == q[1..] + b;
      if space(q[0]) {
        assert !space(q[1]);
        TidyStarts(space, [], q[1..], b);
        var more := WordsFrom(space, [], q[1..] + b);
        assert ([word] + more)[1..] == more;
        assert word + q == word + " " + ([] + q[1..]);
      } else {
        TidyStarts(space, word + [q[0]], q[1..], b);
        assert word + [q[0]] + q[1..] == word + q;
      }
    }
  }

  /** What was read before a text: finished words and an unfinished one. */
  lemma {:induction false} ReadBefore(space: char -> bool, word: string, a: string, s: string) returns (done: seq<string>, open: string)
    requires AllInk(space, word)
    ensures WordsFrom(space, word, a + s) == done + WordsFrom(space, open, s) && AllInk(space, open)
    decreases |a|
  {
    if a == [] {
      assert a + s == s;
      done, open := [], word;
    } else {
      assert (a + s)[0] == a[0] && (a + s)[1..] == a[1..] + s;
      if space(a[0]) {
        done, open := ReadBefore(space, [], a[1..], s);
        done := (if word == [] then [] else [word]) + done;
      } else {
        done, open := ReadBefore(space, word + [a[0]], a[1..], s);
      }
    }
  }

  lemma {:induction false} JoinEnds(done: seq<string>, words: seq<string>) returns (front: string)
    requires words != []
    ensures JoinWords(done + words) == front + JoinWords(words)
  {
    if done == [] {
      assert done + words == words;
      front := [];
    } else {
      assert (done + words)[0] == done[0] && (done + words)[1..] == done[1..] + words;
      var more := JoinEnds(done[1..], words);
      front := done[0] + " " + more;
    }
  }

  lemma PieceInside(text: string, front: string, q: string)
    requires front <= text && q <= text[|front|..]
    ensures Contains(text, q)
  {
    assert ContainsAt(text, q, |front|);
  }

  lemma CollapseKeeps(space: char -> bool, a: string, q: string, b: string)
    requires Tidy(space, q) && q != []
    ensures Contains(Collapse(space, a + q + b), q)
  {
    assert a + q + b == a + (q + b);
    var done, open := ReadBefore(space, [], a, q + b);
    assert TidyRest(space, open, q);
    TidyStarts(space, open, q, b);
    var words := WordsFrom(space, open, q + b);
    var front := JoinEnds(done, words);
    var text := JoinWords(done + words);
    assert open + q <= JoinWords(words);
    assert text == front + JoinWords(words);
    assert text[|front + open|..] == JoinWords(words)[|open|..];
    PieceInside(text, front + open, q);
  }

  lemma {:induction false} PartOfJoin(words: seq<string>, i: nat) returns (a: string, b: string)
    requires i < |words|
    ensures JoinWords(words) == a + words[i] + b
  {
    if |words| == 1 {
      a, b := [], [];
    } else if i == 0 {
      a, b := [], " " + JoinWords(words[1..]);
    } else {
      a, b := PartOfJoin(words[1..], i - 1);
      a := words[0] + " " + a;
    }
  }

  lemma {:induction false} FilledHas(parts: seq<Option<string>>, k: nat) returns (i: nat)
    requires k < |parts| && parts[k].Some? && parts[k].value != []
    ensures i < |Filled(parts)| && Filled(parts)[i] == parts[k].value
  {
    var own := if parts[0].Some? && parts[0].value != [] then [parts[0].value] else [];
    if k == 0 {
      i := 0;
    } else {
      i := FilledHas(parts[1..], k - 1);
      i := i + |own|;
    }
  }

  /** A piece of a text that reads as `q` is in the collapsed, folded, decomposed text as `q`. */
  lemma PieceComesThrough(u: Unicode, a: string, w: string, b: string, q: string)
    requires q != [] && Tidy(u.space, q) && ReadsAs(u, w, q)
    ensures Contains(Collapse(u.space, Casefold(u, Nfkd(u, a + w + b))), q)
  {
    var left, right := FoldAround(u, a, w, b, q);
    CollapseKeeps(u.space, left, q, right);
  }

  /** A piece of a column that reads as `q`, character by character, is in the search text as `q`. */
  lemma PieceIsSearchable(u: Unicode, parts: seq<Option<string>>, k: nat, p: nat, q: string)
    requires k < |parts| && parts[k].Some? && p + |q| <= |parts[k].value|
    requires q != [] && Tidy(u.space, q) && ReadsAs(u, parts[k].value[p..p + |q|], q)
    ensures Contains(SearchText(u, parts), q)
  {
    var column := parts[k].value;
    var i := FilledHas(parts, k);
    var a, b := PartOfJoin(Filled(parts), i);
    InTheMiddle(a, column, b, p, p + |q|);
    PieceComesThrough(u, a + column[..p], column[p..p + |q|], column[p + |q|..] + b, q);
  }

  lemma InTheMiddle(a: string, column: string, b: string, from: nat, to: nat)
    requires from <= to <= |column|
    ensures a + column + b == (a + column[..from]) + column[from..to] + (column[to..] + b)
  {
    assert column == column[..from] + column[from..to] + column[to..];
  }
}
