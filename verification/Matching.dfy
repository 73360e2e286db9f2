/** Literal text in two pattern languages: an escaped LIKE pattern and a quoted full-text phrase
    (backend/app/services/search_service.py). */
module Matching {
  import opened Wrappers

  predicate ContainsAt(text: string, q: string, i: int) {
    0 <= i && i + |q| <= |text| && text[i..i + |q|] == q
  }

  predicate Contains(text: string, q: string) {
    exists i :: 0 <= i <= |text| && ContainsAt(text, q, i)
  }

  // ---- Replacing one character -------------------------------------------------------------------

  function Replace(s: string, c: char, piece: string): string {
    if s == [] then [] else (if s[0] == c then piece else [s[0]]) + Replace(s[1..], c, piece)
  }

  lemma {:induction false} ReplaceAppend(a: string, b: string, c: char, piece: string)
    ensures Replace(a + b, c, piece) == Replace(a, c, piece) + Replace(b, c, piece)
  {
    if a == [] {
      assert a + b == b;
    } else {
      assert (a + b)[1..] == a[1..] + b;
      ReplaceAppend(a[1..], b, c, piece);
    }
  }

  // ---- LIKE ------------------------------------------------------------------------------------------

  function Lower(c: char): char {
    if 'A' <= c <= 'Z' then c + 32 as char else c
  }

  /** SQLite compares ASCII letters in a LIKE without regard to case. */
  predicate Alike(a: string, b: string) {
    |a| == |b| && forall i :: 0 <= i < |a| ==> Lower(a[i]) == Lower(b[i])
  }

  /** LIKE with the backslash as escape character. */
  predicate Like(pattern: string, text: string)
    decreases |pattern| + |text|
  {
    if pattern == [] then text == []
    else if pattern[0] == '%' then Like(pattern[1..], text) || (text != [] && Like(pattern, text[1..]))
    else if text == [] then false
    else if pattern[0] == '\\' then
      |pattern| >= 2 && Lower(pattern[1]) == Lower(text[0]) && Like(pattern[2..], text[1..])
    else (pattern[0] == '_' || Lower(pattern[0]) == Lower(text[0])) && Like(pattern[1..], text[1..])
  }

  /** The three replacements in their order: the escape character itself first. */
  function EscapeLike(s: string): string {
    Replace(Replace(Replace(s, '\\', "\\\\"), '%', "\\%"), '_', "\\_")
  }

  function LikePattern(s: string): string {
    "%" + EscapeLike(s) + "%"
  }

  function EscapeChar(c: char): string {
    if c == '\\' || c == '%' || c == '_' then ['\\', c] else [c]
  }

  lemma EscapeOne(c: char)
    ensures EscapeLike([c]) == EscapeChar(c)
  {
    ReplaceOne(c, '\\', "\\\\");
    if c == '\\' {
      ReplaceTwo('\\', '\\', '%', "\\%");
      ReplaceTwo('\\', '\\', '_', "\\_");
    } else {
      ReplaceOne(c, '%', "\\%");
      if c == '%' {
        ReplaceTwo('\\', '%', '_', "\\_");
      } else {
        ReplaceOne(c, '_', "\\_");
      }
    }
  }

  lemma ReplaceOne(c: char, from: char, piece: string)
    ensures Replace([c], from, piece) == if c == from then piece else [c]
  {
  }

  lemma ReplaceTwo(a: char, b: char, from: char, piece: string)
    requires a != from && b != from
    ensures Replace([a, b], from, piece) == [a, b]
  {
    assert [a, b] == [a] + [b];
    ReplaceAppend([a], [b], from, piece);
    ReplaceOne(a, from, piece);
    ReplaceOne(b, from, piece);
  }

  /** The three replacements one after the other escape every character once. */
  lemma {:induction false} EscapeIsCharwise(s: string)
    requires s != []
    ensures EscapeLike(s) == EscapeChar(s[0]) + EscapeLike(s[1..])
  {
    assert s == [s[0]] + s[1..];
    var one, rest := [s[0]], s[1..];
    ReplaceAppend(one, rest, '\\', "\\\\");
    ReplaceAppend(Replace(one, '\\', "\\\\"), Replace(rest, '\\', "\\\\"), '%', "\\%");
    ReplaceAppend(Replace(Replace(one, '\\', "\\\\"), '%', "\\%"), Replace(Replace(rest, '\\', "\\\\"), '%', "\\%"), '_', "\\_");
    EscapeOne(s[0]);
  }

  lemma LikeOne(c: char, rest: string, text: string)
    ensures Like(EscapeChar(c) + rest, text) <==> text != [] && Lower(c) == Lower(text[0]) && Like(rest, text[1..])
  {
  }

  /** An escaped text in a pattern stands for itself. */
  lemma {:induction false} LikeLiteral(s: string, rest: string, text: string)
    ensures Like(EscapeLike(s) + rest, text) <==> |s| <= |text| && Alike(text[..|s|], s) && Like(rest, text[|s|..])
    decreases |s|
  {
    if s == [] {
      assert EscapeLike(s) + rest == rest && text[0..] == text;
    } else {
      EscapeIsCharwise(s);
      assert EscapeLike(s) + rest == EscapeChar(s[0]) + (EscapeLike(s[1..]) + rest);
      LikeOne(s[0], EscapeLike(s[1..]) + rest, text);
      if text != [] {
        LikeLiteral(s[1..], rest, text[1..]);
        if |s| <= |text| {
          assert text[1..][|s[1..]|..] == text[|s|..];
          assert Alike(text[..|s|], s) <==> Lower(text[0]) == Lower(s[0]) && Alike(text[1..][..|s[1..]|], s[1..]) by {
            AlikeCons(text[..|s|], s);
            assert text[..|s|][1..] == text[1..][..|s[1..]|];
          }
        }
      }
    }
  }

  lemma AlikeCons(a: string, b: string)
    requires |a| == |b| > 0
    ensures Alike(a, b) <==> Lower(a[0]) == Lower(b[0]) && Alike(a[1..], b[1..])
  {
  }

  lemma {:induction false} AnyTail(text: string)
    ensures Like("%", text)
    decreases |text|
  {
    if text != [] {
      AnyTail(text[1..]);
    } else {
      assert Like("%"[1..], text);
    }
  }

  /** A piece of the text that reads like `s`. */
  predicate PieceAlike(text: string, s: string, i: int) {
    0 <= i && i + |s| <= |text| && Alike(text[i..i + |s|], s)
  }

  lemma {:induction false} LikeFinds(s: string, text: string)
    ensures Like(LikePattern(s), text) <==> exists i :: PieceAlike(text, s, i)
    decreases |text|
  {
    var pattern := LikePattern(s);
    assert pattern[1..] == EscapeLike(s) + "%";
    LikeLiteral(s, "%", text);
    if |s| <= |text| {
      AnyTail(text[|s|..]);
      assert PieceAlike(text, s, 0) <==> Alike(text[..|s|], s);
    }
    if text != [] {
      LikeFinds(s, text[1..]);
      PiecesMove(text, s);
    } else {
      assert forall i :: PieceAlike(text, s, i) ==> i == 0;
    }
  }

  lemma PiecesMove(text: string, s: string)
    requires text != []
    ensures (exists i :: PieceAlike(text, s, i)) <==> PieceAlike(text, s, 0) || exists i :: PieceAlike(text[1..], s, i)
  {
    if i :| PieceAlike(text, s, i) {
      if i > 0 {
        assert text[1..][i - 1..i - 1 + |s|] == text[i..i + |s|];
        assert PieceAlike(text[1..], s, i - 1);
      }
    }
    if i :| PieceAlike(text[1..], s, i) {
      assert text[1..][i..i + |s|] == text[i + 1..i + 1 + |s|];
      assert PieceAlike(text, s, i + 1);
    }
  }

  predicate NoCapitals(s: string) {
    forall i :: 0 <= i < |s| ==> !('A' <= s[i] <= 'Z')
  }

  /** On case-folded text the pattern made from a query matches exactly the texts that contain
      it, whatever wildcards or backslashes it is made of. */
  lemma LikeIsContainment(s: string, text: string)
    requires NoCapitals(s) && NoCapitals(text)
    ensures Like(LikePattern(s), text) <==> Contains(text, s)
  {
    LikeFinds(s, text);
    forall i
      ensures PieceAlike(text, s, i) <==> ContainsAt(text, s, i)
    {
    }
    if exists i :: PieceAlike(text, s, i) {
      var i :| PieceAlike(text, s, i);
      assert ContainsAt(text, s, i);
    }
    if Contains(text, s) {
      var i :| ContainsAt(text, s, i);
      assert PieceAlike(text, s, i);
    }
  }

  // ---- Full-text phrases ------------------------------------------------------------------------------

  /** A phrase in double quotes, its own double quotes doubled. */
  function Quote(s: string): string {
    "\"" + Replace(s, '"', "\"\"") + "\""
  }

  /** The rest of a quoted string, up to a quote that is not doubled. */
  function ParseBody(s: string): Option<(string, string)>
    decreases |s|
  {
    if s == [] then None
    else if s[0] != '"' then
      match ParseBody(s[1..])
      case None => None
      case Some((body, rest)) => Some(([s[0]] + body, rest))
    else if |s| >= 2 && s[1] == '"' then
      match ParseBody(s[2..])
      case None => None
      case Some((body, rest)) => Some((['"'] + body, rest))
    else Some(([], s[1..]))
  }

  function ParseString(s: string): Option<(string, string)> {
    if s == [] || s[0] != '"' then None else ParseBody(s[1..])
  }

  /** A full-text expression: quoted strings joined by OR. */
  function ParseOr(s: string): Option<seq<string>>
    decreases |s|
  {
    match ParseString(s)
    case None => None
    case Some((phrase, rest)) =>
      if rest == [] then Some([phrase])
      else if |rest| >= 4 && rest[..4] == " OR " && |rest| < |s| then
        match ParseOr(rest[4..])
        case None => None
        case Some(more) => Some([phrase] + more)
      else None
  }

  function JoinOr(phrases: seq<string>): string
    requires phrases != []
  {
    if |phrases| == 1 then Quote(phrases[0]) else Quote(phrases[0]) + " OR " + JoinOr(phrases[1..])
  }

  lemma {:induction false} BodyParsesBack(s: string, rest: string)
    requires rest == [] || rest[0] != '"'
    ensures ParseBody(Replace(s, '"', "\"\"") + "\"" + rest) == Some((s, rest))
  {
    var text := Replace(s, '"', "\"\"") + "\"" + rest;
    if s == [] {
      assert text == "\"" + rest;
      assert text[1..] == rest;
    } else {
      BodyParsesBack(s[1..], rest);
      var tail := Replace(s[1..], '"', "\"\"") + "\"" + rest;
      if s[0] == '"' {
        assert text == "\"\"" + tail;
        assert text[2..] == tail;
      } else {
        assert text == [s[0]] + tail;
        assert text[1..] == tail;
      }
      assert [s[0]] + s[1..] == s;
    }
  }

  /** Reading a quoted phrase gives the phrase back, whatever quotes it holds. */
  lemma QuoteParsesBack(s: string, rest: string)
    requires rest == [] || rest[0] != '"'
    ensures ParseString(Quote(s) + rest) == Some((s, rest))
  {
    BodyParsesBack(s, rest);
    assert (Quote(s) + rest)[1..] == Replace(s, '"', "\"\"") + "\"" + rest;
  }

  /** Phrases joined by OR read back as exactly those phrases, even when they contain OR. */
  lemma {:induction false} JoinParsesBack(phrases: seq<string>)
    requires phrases != []
    ensures ParseOr(JoinOr(phrases)) == Some(phrases)
  {
    if |phrases| == 1 {
      assert [phrases[0]] == phrases;
      assert JoinOr(phrases) == Quote(phrases[0]) + [];
      QuoteParsesBack(phrases[0], []);
    } else {
      assert [phrases[0]] + phrases[1..] == phrases;
      JoinParsesBack(phrases[1..]);
      OneMorePhrase(phrases[0], JoinOr(phrases[1..]), phrases[1..]);
    }
  }

  lemma OneMorePhrase(phrase: string, joined: string, phrases: seq<string>)
    requires ParseOr(joined) == Some(phrases)
    ensures ParseOr(Quote(phrase) + " OR " + joined) == Some([phrase] + phrases)
  {
    var rest := " OR " + joined;
    var s := Quote(phrase) + " OR " + joined;
    assert s == Quote(phrase) + rest;
    assert rest[..4] == " OR ";
    assert rest[4..] == joined;
    QuoteParsesBack(phrase, rest);
  }
}
