/** Signed continuation cursors: a JSON payload and its signature, each in base64url
    (`CursorCodec` and `AggregateCursorCodec` in backend/app/services/search_service.py). */
module Cursors {
  import opened Wrappers
  import opened Base64

  // ---- JSON strings, with everything outside printable ASCII escaped ---------------------------------

  function HexDigit(d: int): char
    requires 0 <= d < 16
  {
    if d < 10 then ('0' as int + d) as char else ('a' as int + (d - 10)) as char
  }

  function HexValue(c: char): Option<int> {
    if '0' <= c <= '9' then Some(c as int - '0' as int)
    else if 'a' <= c <= 'f' then Some(c as int - 'a' as int + 10)
    else if 'A' <= c <= 'F' then Some(c as int - 'A' as int + 10)
    else None
  }

  /** A backslash, u and four digits. */
  function Unit(n: int): string
    requires 0 <= n < 0x10000
  {
    ['\\', 'u', HexDigit(n / 4096), HexDigit(n / 256 % 16), HexDigit(n / 16 % 16), HexDigit(n % 16)]
  }

  /** Characters beyond the basic plane take two units, a surrogate pair. */
  function EscapeJson(c: char): string {
    var n := c as int;
    if c == '"' then "\\\""
    else if c == '\\' then "\\\\"
    else if c == '\n' then "\\n"
    else if c == '\r' then "\\r"
    else if c == '\t' then "\\t"
    else if n == 8 then "\\b"
    else if n == 12 then "\\f"
    else if 0x20 <= n <= 0x7e then [c]
    else if n < 0x10000 then Unit(n)
    else Unit(0xd800 + (n - 0x10000) / 1024) + Unit(0xdc00 + (n - 0x10000) % 1024)
  }

  function JsonBody(s: string): string {
    if s == [] then [] else EscapeJson(s[0]) + JsonBody(s[1..])
  }

  function JsonString(s: string): string {
    "\"" + JsonBody(s) + "\""
  }

  // ---- Reading them back ---------------------------------------------------------------------------------

  function ReadUnit(s: string): Option<int> {
    if |s| < 6 || s[0] != '\\' || s[1] != 'u' then None
    else
      match (HexValue(s[2]), HexValue(s[3]), HexValue(s[4]), HexValue(s[5]))
      case (Some(a), Some(b), Some(c), Some(d)) => Some(a * 4096 + b * 256 + c * 16 + d)
      case _ => None
  }

  function Scalar(n: int): Option<char> {
    if 0 <= n < 0xd800 || 0xe000 <= n < 0x11_0000 then Some(n as char) else None
  }

  function Simple(c: char): Option<char> {
    match c
    case '"' => Some('"')
    case '\\' => Some('\\')
    case '/' => Some('/')
    case 'n' => Some('\n')
    case 'r' => Some('\r')
    case 't' => Some('\t')
    case 'b' => Some(8 as char)
    case 'f' => Some(12 as char)
    case _ => None
  }

  /** One character of a JSON string and how many characters of the text it took. */
  function ReadChar(s: string): (r: Option<(char, nat)>)
    ensures r.Some? ==> 0 < r.value.1 <= |s|
  {
    if s == [] || s[0] == '"' || (s[0] as int) < 0x20 then None
    else if s[0] != '\\' then Some((s[0], 1))
    else
      match ReadUnit(s)
      case None =>
        if |s| < 2 then None
        else (match Simple(s[1]) case None => None case Some(c) => Some((c, 2)))
      case Some(high) =>
        var low := ReadUnit(s[6..]);
        if 0xd800 <= high < 0xdc00 && low.Some? && 0xdc00 <= low.value < 0xe000 then
          Some(((0x10000 + (high - 0xd800) * 1024 + (low.value - 0xdc00)) as char, 12))
        else (match Scalar(high) case None => None case Some(c) => Some((c, 6)))
  }

  /** The rest of a JSON string up to its closing quote. */
  function ReadBody(s: string): Option<(string, string)>
    decreases |s|
  {
    if s != [] && s[0] == '"' then Some(([], s[1..]))
    else
      match ReadChar(s)
      case None => None
      case Some((c, n)) =>
        match ReadBody(s[n..])
        case None => None
        case Some((body, rest)) => Some(([c] + body, rest))
  }

  function ReadString(s: string): Option<(string, string)> {
    if s == [] || s[0] != '"' then None else ReadBody(s[1..])
  }

  lemma DigitsSum(n: int)
    requires 0 <= n < 0x10000
    ensures n == n / 4096 * 4096 + n / 256 % 16 * 256 + n / 16 % 16 * 16 + n % 16
  {
    assert n / 16 / 16 == n / 256 && n / 256 / 16 == n / 4096;
  }

  lemma FourDigits(a: int, b: int, c: int, d: int, rest: string)
    requires 0 <= a < 16 && 0 <= b < 16 && 0 <= c < 16 && 0 <= d < 16
    ensures var s := ['\\', 'u', HexDigit(a), HexDigit(b), HexDigit(c), HexDigit(d)] + rest;
            ReadUnit(s) == Some(a * 4096 + b * 256 + c * 16 + d) && s[6..] == rest
  {
  }

  lemma UnitComesBack(n: int, rest: string)
    requires 0 <= n < 0x10000
    ensures ReadUnit(Unit(n) + rest) == Some(n) && (Unit(n) + rest)[6..] == rest
  {
    FourDigits(n / 4096, n / 256 % 16, n / 16 % 16, n % 16, rest);
    DigitsSum(n);
  }

  predicate Named(c: char) {
    c == '"' || c == '\\' || c == '\n' || c == '\r' || c == '\t' || c as int == 8 || c as int == 12
  }

  lemma NamedComesBack(c: char, rest: string)
    requires Named(c)
    ensures ReadChar(EscapeJson(c) + rest) == Some((c, |EscapeJson(c)|)) && (EscapeJson(c) + rest)[0] != '"'
  {
  }

  lemma UnnamedComesBack(c: char, rest: string)
    requires !Named(c) && !(0x20 <= c as int <= 0x7e) && (c as int) < 0x10000
    ensures ReadChar(EscapeJson(c) + rest) == Some((c, |EscapeJson(c)|)) && (EscapeJson(c) + rest)[0] != '"'
  {
    UnitComesBack(c as int, rest);
  }

  /** Every character comes back from its escape, and the escape does not run on into what follows. */
  lemma CharComesBack(c: char, rest: string)
    ensures ReadChar(EscapeJson(c) + rest) == Some((c, |EscapeJson(c)|)) && (EscapeJson(c) + rest)[0] != '"'
  {
    if Named(c) {
      NamedComesBack(c, rest);
    } else if c as int >= 0x10000 {
      FarComesBack(c, rest);
    } else if !(0x20 <= c as int <= 0x7e) {
      UnnamedComesBack(c, rest);
    }
  }

  lemma FarComesBack(c: char, rest: string)
    requires c as int >= 0x10000
    ensures ReadChar(EscapeJson(c) + rest) == Some((c, |EscapeJson(c)|)) && (EscapeJson(c) + rest)[0] != '"'
  {
    var n := c as int;
    FarEscape(c, 0xd800 + (n - 0x10000) / 1024, 0xdc00 + (n - 0x10000) % 1024);
    PairComesBack(n, rest);
  }

  lemma FarEscape(c: char, high: int, low: int)
    requires c as int >= 0x10000 && high == 0xd800 + (c as int - 0x10000) / 1024 && low == 0xdc00 + (c as int - 0x10000) % 1024
    ensures 0xd800 <= high < 0xdc00 && 0xdc00 <= low < 0xe000
    ensures EscapeJson(c) == Unit(high) + Unit(low)
    ensures |EscapeJson(c)| == 12 && EscapeJson(c)[0] == '\\'
  {
  }

  lemma PairComesBack(n: int, rest: string)
    requires 0x10000 <= n < 0x11_0000
    ensures var high, low := 0xd800 + (n - 0x10000) / 1024, 0xdc00 + (n - 0x10000) % 1024;
            && 0xd800 <= high < 0xdc00 && 0xdc00 <= low < 0xe000
            && ReadChar(Unit(high) + Unit(low) + rest) == Some((n as char, 12))
  {
    var high, low := 0xd800 + (n - 0x10000) / 1024, 0xdc00 + (n - 0x10000) % 1024;
    assert Unit(high) + Unit(low) + rest == Unit(high) + (Unit(low) + rest);
    UnitComesBack(high, Unit(low) + rest);
    UnitComesBack(low, rest);
  }

  lemma {:induction false} BodyComesBack(s: string, rest: string)
    ensures ReadBody(JsonBody(s) + "\"" + rest) == Some((s, rest))
  {
    var text := JsonBody(s) + "\"" + rest;
    if s == [] {
      assert text == "\"" + rest;
      assert text[1..] == rest;
    } else {
      var more := JsonBody(s[1..]) + "\"" + rest;
      assert text == EscapeJson(s[0]) + more;
      CharComesBack(s[0], more);
      assert text[|EscapeJson(s[0])|..] == more;
      BodyComesBack(s[1..], rest);
      assert [s[0]] + s[1..] == s;
    }
  }

  lemma StringComesBack(s: string, rest: string)
    ensures ReadString(JsonString(s) + rest) == Some((s, rest))
  {
    BodyComesBack(s, rest);
    assert (JsonString(s) + rest)[1..] == JsonBody(s) + "\"" + rest;
  }

  // ---- Payloads ------------------------------------------------------------------------------------------

  /** The two codecs differ in the key of the scope: a card, or a query. */
  datatype Codec = CardCursor | QueryCursor

  function ScopeKey(codec: Codec): char {
    if codec.CardCursor? then 'c' else 'q'
  }

  datatype Payload = Payload(key: char, scope: string, date: Option<string>, id: string)

  function JsonDate(date: Option<string>): string {
    if date.None? then "null" else JsonString(date.value)
  }

  function Dumps(p: Payload): string {
    "{\"" + [p.key] + "\":" + (JsonString(p.scope) + (",\"d\":" + (JsonDate(p.date) + (",\"i\":" + (JsonString(p.id) + "}")))))
  }

  function Expect(s: string, lead: string): Option<string> {
    if lead <= s then Some(s[|lead|..]) else None
  }

  function ReadDate(s: string): Option<(Option<string>, string)> {
    match Expect(s, "null")
    case Some(rest) => Some((None, rest))
    case None =>
      match ReadString(s)
      case None => None
      case Some((date, rest)) => Some((Some(date), rest))
  }

  /** Payloads as the codecs write them; anything else is refused. */
  function Loads(s: string): Option<Payload> {
    if |s| < 5 || s[..2] != "{\"" || s[3..5] != "\":" then None
    else
      match ReadString(s[5..])
      case None => None
      case Some((scope, afterScope)) =>
        match Expect(afterScope, ",\"d\":")
        case None => None
        case Some(atDate) =>
          match ReadDate(atDate)
          case None => None
          case Some((date, afterDate)) =>
            match Expect(afterDate, ",\"i\":")
            case None => None
            case Some(atId) =>
              match ReadString(atId)
              case None => None
              case Some((id, end)) => if end == "}" then Some(Payload(s[2], scope, date, id)) else None
  }

  lemma ExpectComesBack(lead: string, rest: string)
    ensures Expect(lead + rest, lead) == Some(rest)
  {
  }

  lemma DateComesBack(date: Option<string>, rest: string)
    ensures ReadDate(JsonDate(date) + rest) == Some((date, rest))
  {
    if date.None? {
      ExpectComesBack("null", rest);
    } else {
      StringComesBack(date.value, rest);
      assert (JsonDate(date) + rest)[0] == '"';
    }
  }

  lemma PayloadComesBack(p: Payload)
    ensures Loads(Dumps(p)) == Some(p)
  {
    var atId := JsonString(p.id) + "}";
    var afterDate := ",\"i\":" + atId;
    var atDate := JsonDate(p.date) + afterDate;
    var afterScope := ",\"d\":" + atDate;
    var s := Dumps(p);
    assert s == "{\"" + [p.key] + "\":" + (JsonString(p.scope) + afterScope);
    assert s[5..] == JsonString(p.scope) + afterScope;
    assert s[3..5] == "\":";
    StringComesBack(p.scope, afterScope);
    ExpectComesBack(",\"d\":", atDate);
    DateComesBack(p.date, afterDate);
    ExpectComesBack(",\"i\":", atId);
    StringComesBack(p.id, "}");
  }

  // ---- UTF-8 of ASCII text ----------------------------------------------------------------------------------

  predicate Ascii(s: string) {
    forall i :: 0 <= i < |s| ==> (s[i] as int) < 128
  }

  function ToBytes(s: string): seq<Byte>
    requires Ascii(s)
  {
    seq(|s|, i requires 0 <= i < |s| => s[i] as int)
  }

  /** Bytes of ASCII text; payloads hold no others. */
  function FromBytes(raw: seq<Byte>): Option<string> {
    if raw == [] then Some([])
    else if raw[0] >= 128 then None
    else
      match FromBytes(raw[1..])
      case None => None
      case Some(rest) => Some([raw[0] as char] + rest)
  }

  lemma {:induction false} BytesComeBack(s: string)
    requires Ascii(s)
    ensures FromBytes(ToBytes(s)) == Some(s)
  {
    if s != [] {
      assert ToBytes(s)[1..] == ToBytes(s[1..]);
      BytesComeBack(s[1..]);
      assert [s[0]] + s[1..] == s;
    }
  }

  lemma {:induction false} BodyIsAscii(s: string)
    ensures Ascii(JsonBody(s))
  {
    if s != [] {
      BodyIsAscii(s[1..]);
    }
  }

  lemma DumpsIsAscii(p: Payload)
    requires (p.key as int) < 128
    ensures Ascii(Dumps(p))
  {
    StringIsAscii(p.scope);
    StringIsAscii(p.id);
    if p.date.Some? {
      StringIsAscii(p.date.value);
    }
    var atId := JsonString(p.id) + "}";
    var afterDate := ",\"i\":" + atId;
    var atDate := JsonDate(p.date) + afterDate;
    var afterScope := ",\"d\":" + atDate;
    AsciiAppend(JsonString(p.id), "}");
    AsciiAppend(",\"i\":", atId);
    AsciiAppend(JsonDate(p.date), afterDate);
    AsciiAppend(",\"d\":", atDate);
    AsciiAppend(JsonString(p.scope), afterScope);
    AsciiAppend("{\"" + [p.key] + "\":", JsonString(p.scope) + afterScope);
  }

  lemma AsciiAppend(a: string, b: string)
    requires Ascii(a) && Ascii(b)
    ensures Ascii(a + b)
  {
  }

  lemma StringIsAscii(s: string)
    ensures Ascii(JsonString(s))
  {
    BodyIsAscii(s);
    AsciiAppend("\"", JsonBody(s));
    AsciiAppend("\"" + JsonBody(s), "\"");
  }

  // ---- Cursors --------------------------------------------------------------------------------------------------

  /** The keyed hash under the application secret, cut to 16 bytes. */
  type Mac = seq<Byte> -> seq<Byte>

  function Encode(codec: Codec, mac: Mac, scope: string, date: Option<string>, id: string): string {
    var p := Payload(ScopeKey(codec), scope, date, id);
    DumpsIsAscii(p);
    var payload := ToBytes(Dumps(p));
    B64(payload) + "." + B64(mac(payload))
  }

  /** The text before the first dot and the text after it. */
  function SplitAtDot(s: string): Option<(string, string)> {
    if s == [] then None
    else if s[0] == '.' then Some(([], s[1..]))
    else
      match SplitAtDot(s[1..])
      case None => None
      case Some((head, tail)) => Some(([s[0]] + head, tail))
  }

  function Verified(mac: Mac, cursor: string): Option<Payload> {
    match SplitAtDot(cursor)
    case None => None
    case Some((payloadPart, signaturePart)) =>
      match (Unb64(payloadPart), Unb64(signaturePart))
      case (Some(payload), Some(signature)) =>
        if mac(payload) != signature then None
        else (match FromBytes(payload) case None => None case Some(text) => Loads(text))
      case _ => None
  }

  /** `Err` stands for CURSOR_INVALID. */
  function Decode(codec: Codec, mac: Mac, cursor: string, expected: string): Result<(Option<string>, string), string> {
    match Verified(mac, cursor)
    case None => Err("CURSOR_INVALID")
    case Some(p) =>
      if p.key != ScopeKey(codec) || p.scope != expected then Err("CURSOR_INVALID") else Ok((p.date, p.id))
  }

  lemma {:induction false} SplitComesBack(head: string, tail: string)
    requires '.' !in head
    ensures SplitAtDot(head + "." + tail) == Some((head, tail))
  {
    var s := head + "." + tail;
    if head == [] {
      assert s == "." + tail;
      assert s[1..] == tail;
    } else {
      assert s[1..] == head[1..] + "." + tail;
      SplitComesBack(head[1..], tail);
      assert [head[0]] + head[1..] == head;
    }
  }

  lemma EncodedIsVerified(codec: Codec, mac: Mac, scope: string, date: Option<string>, id: string)
    ensures Verified(mac, Encode(codec, mac, scope, date, id)) == Some(Payload(ScopeKey(codec), scope, date, id))
  {
    var p := Payload(ScopeKey(codec), scope, date, id);
    DumpsIsAscii(p);
    var payload := ToBytes(Dumps(p));
    Base64RoundTrip(payload);
    Base64RoundTrip(mac(payload));
    SplitComesBack(B64(payload), B64(mac(payload)));
    BytesComeBack(Dumps(p));
    PayloadComesBack(p);
  }

  /** A cursor gives back exactly the date and the id it was made from under its own scope and
      codec, whatever characters they hold, and is refused under any other scope or codec. */
  lemma CursorComesBackForItsScopeOnly(codec: Codec, reader: Codec, mac: Mac, scope: string, expected: string,
                                       date: Option<string>, id: string)
    ensures Decode(reader, mac, Encode(codec, mac, scope, date, id), expected) ==
            if reader == codec && expected == scope then Ok((date, id)) else Err("CURSOR_INVALID")
  {
    EncodedIsVerified(codec, mac, scope, date, id);
  }
}
