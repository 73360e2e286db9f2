/** URL-safe base64 without padding, section 5 of RFC 4648
    (`_b64` and `_unb64` in backend/app/services/search_service.py). */
module Base64 {
  import opened Wrappers

  type Byte = b: int | 0 <= b < 256 witness 0
  type Sextet = s: int | 0 <= s < 64 witness 0

  /** A-Z, a-z, 0-9, minus and underscore, in this order. */
  function CharOf(s: Sextet): char {
    if s < 26 then ('A' as int + s) as char
    else if s < 52 then ('a' as int + (s - 26)) as char
    else if s < 62 then ('0' as int + (s - 52)) as char
    else if s == 62 then '-' else '_'
  }

  function SextetOf(c: char): Option<Sextet> {
    if 'A' <= c <= 'Z' then Some(c as int - 'A' as int)
    else if 'a' <= c <= 'z' then Some(c as int - 'a' as int + 26)
    else if '0' <= c <= '9' then Some(c as int - '0' as int + 52)
    else if c == '-' then Some(62)
    else if c == '_' then Some(63)
    else None
  }

  lemma CharsAreDigits(s: Sextet)
    ensures SextetOf(CharOf(s)) == Some(s) && CharOf(s) != '=' && CharOf(s) != '.'
  {
  }

  // ---- Groups of three bytes and four digits ---------------------------------------------------------

  function Digits(raw: seq<Byte>): seq<Sextet> {
    if raw == [] then []
    else if |raw| == 1 then [raw[0] / 4, raw[0] % 4 * 16]
    else if |raw| == 2 then [raw[0] / 4, raw[0] % 4 * 16 + raw[1] / 16, raw[1] % 16 * 4]
    else
      [raw[0] / 4, raw[0] % 4 * 16 + raw[1] / 16, raw[1] % 16 * 4 + raw[2] / 64, raw[2] % 64] + Digits(raw[3..])
  }

  function First(a: Sextet, b: Sextet): Byte {
    var high: int, low: int := a, b;
    high * 4 + low / 16
  }

  function Second(b: Sextet, c: Sextet): Byte {
    var high: int, low: int := b, c;
    high % 16 * 16 + low / 4
  }

  function Third(c: Sextet, d: Sextet): Byte {
    var high: int, low: int := c, d;
    high % 4 * 64 + low
  }

  function Bytes(digits: seq<Sextet>): Option<seq<Byte>> {
    if digits == [] then Some([])
    else if |digits| == 1 then None
    else if |digits| == 2 then Some([First(digits[0], digits[1])])
    else if |digits| == 3 then Some([First(digits[0], digits[1]), Second(digits[1], digits[2])])
    else
      match Bytes(digits[4..])
      case None => None
      case Some(rest) => Some([First(digits[0], digits[1]), Second(digits[1], digits[2]), Third(digits[2], digits[3])] + rest)
  }

  lemma FirstComesBack(x: Byte, low: int)
    requires 0 <= low < 16
    ensures First(x / 4, x % 4 * 16 + low) == x
  {
  }

  lemma SecondComesBack(y: Byte, high: int, low: int)
    requires 0 <= high < 4 && 0 <= low < 4
    ensures Second(high * 16 + y / 16, y % 16 * 4 + low) == y
  {
    var q, r := y / 16, y % 16;
    assert (high * 16 + q) % 16 == q;
    assert (r * 4 + low) / 4 == r;
  }

  lemma ThirdComesBack(z: Byte, high: int)
    requires 0 <= high < 16
    ensures Third(high * 4 + z / 64, z % 64) == z
  {
  }

  lemma {:induction false} BytesOfDigits(raw: seq<Byte>)
    ensures Bytes(Digits(raw)) == Some(raw)
    ensures |Digits(raw)| % 4 != 1
  {
    if raw != [] {
      FirstComesBack(raw[0], if |raw| > 1 then raw[1] / 16 else 0);
    }
    if |raw| >= 2 {
      SecondComesBack(raw[1], raw[0] % 4, if |raw| > 2 then raw[2] / 64 else 0);
    }
    if |raw| >= 3 {
      ThirdComesBack(raw[2], raw[1] % 16);
      assert raw == [raw[0], raw[1], raw[2]] + raw[3..];
      assert Digits(raw)[4..] == Digits(raw[3..]);
      BytesOfDigits(raw[3..]);
    } else {
      assert |raw| == 1 ==> raw == [raw[0]];
      assert |raw| == 2 ==> raw == [raw[0], raw[1]];
    }
  }

  // ---- Characters and padding --------------------------------------------------------------------------

  function Chars(digits: seq<Sextet>): string {
    seq(|digits|, i requires 0 <= i < |digits| => CharOf(digits[i]))
  }

  function ReadChars(s: string): Option<seq<Sextet>> {
    if s == [] then Some([])
    else
      match (SextetOf(s[0]), ReadChars(s[1..]))
      case (Some(d), Some(rest)) => Some([d] + rest)
      case _ => None
  }

  function Padding(n: nat): string {
    seq(n, _ => '=')
  }

  /** How much padding a text of this length lacks. */
  function Lacking(n: nat): nat {
    (4 - n % 4) % 4
  }

  function StripPadding(s: string): string {
    if s != [] && s[|s| - 1] == '=' then StripPadding(s[..|s| - 1]) else s
  }

  function UrlsafeEncode(raw: seq<Byte>): string {
    Chars(Digits(raw)) + Padding(Lacking(|Digits(raw)|))
  }

  /** None stands for the error raised on text that is not padded base64. */
  function UrlsafeDecode(s: string): Option<seq<Byte>> {
    var body := StripPadding(s);
    if |s| % 4 != 0 || |s| - |body| > 2 then None
    else
      match ReadChars(body)
      case None => None
      case Some(digits) => Bytes(digits)
  }

  function B64(raw: seq<Byte>): string {
    StripPadding(UrlsafeEncode(raw))
  }

  function Unb64(value: string): Option<seq<Byte>> {
    UrlsafeDecode(value + Padding(Lacking(|value|)))
  }

  lemma {:induction false} StripPadded(s: string, n: nat)
    requires s == [] || s[|s| - 1] != '='
    ensures StripPadding(s + Padding(n)) == s
  {
    if n > 0 {
      assert (s + Padding(n))[..|s| + n - 1] == s + Padding(n - 1);
      StripPadded(s, n - 1);
    } else {
      assert s + Padding(0) == s;
    }
  }

  lemma {:induction false} CharsReadBack(digits: seq<Sextet>)
    ensures ReadChars(Chars(digits)) == Some(digits)
  {
    if digits != [] {
      CharsAreDigits(digits[0]);
      assert Chars(digits)[1..] == Chars(digits[1..]);
      CharsReadBack(digits[1..]);
      assert [digits[0]] + digits[1..] == digits;
    }
  }

  lemma B64IsChars(raw: seq<Byte>)
    ensures B64(raw) == Chars(Digits(raw))
    ensures forall i :: 0 <= i < |B64(raw)| ==> B64(raw)[i] != '.' && B64(raw)[i] != '='
  {
    var digits := Digits(raw);
    forall i | 0 <= i < |digits|
      ensures Chars(digits)[i] != '.' && Chars(digits)[i] != '='
    {
      CharsAreDigits(digits[i]);
    }
    StripPadded(Chars(digits), Lacking(|digits|));
  }

  /** Every byte string comes back, and its text never holds the separator of a cursor. */
  lemma Base64RoundTrip(raw: seq<Byte>)
    ensures Unb64(B64(raw)) == Some(raw) && '.' !in B64(raw) && '=' !in B64(raw)
  {
    B64IsChars(raw);
    BytesOfDigits(raw);
    CharsReadBack(Digits(raw));
    PaddedDecodes(B64(raw), Digits(raw), raw);
  }

  lemma PaddedDecodes(value: string, digits: seq<Sextet>, raw: seq<Byte>)
    requires ReadChars(value) == Some(digits) && Bytes(digits) == Some(raw) && |value| % 4 != 1
    requires value == [] || value[|value| - 1] != '='
    ensures Unb64(value) == Some(raw)
  {
    var n, k := |value|, Lacking(|value|);
    LackingFits(n);
    StripPadded(value, k);
    var padded := value + Padding(k);
    assert |padded| == n + k;
    assert UrlsafeDecode(padded) == Bytes(digits);
  }

  lemma LackingFits(n: nat)
    requires n % 4 != 1
    ensures (n + Lacking(n)) % 4 == 0 && Lacking(n) <= 2
  {
  }
}
