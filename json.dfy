/** The JSON text `JSON.stringify({ error: message })` produces for the
    webhook's HTTP 500 body, and a reader for it that recovers the message. */
module Json {
  import opened Wrappers

  /** The lower-case hexadecimal digit ECMAScript uses in `\u` escapes. */
  function HexDigit(d: nat): (c: char)
    requires d < 16
    ensures '0' <= c <= '9' || 'a' <= c <= 'f'
  {
    "0123456789abcdef"[d]
  }

  /** The value of a hexadecimal digit of either case. */
  function HexValue(c: char): (v: Option<nat>)
    ensures v.Some? ==> v.value < 16
  {
    if '0' <= c <= '9' then Some(c as int - '0' as int)
    else if 'a' <= c <= 'f' then Some(c as int - 'a' as int + 10)
    else if 'A' <= c <= 'F' then Some(c as int - 'A' as int + 10)
    else None
  }

  lemma HexDigitValue(d: nat)
    requires d < 16
    ensures HexValue(HexDigit(d)) == Some(d)
  {
  }

  /** The value of four hexadecimal digits. */
  function Hex4(h: string): (v: Option<nat>)
    requires |h| == 4
    ensures v.Some? ==> v.value < 0x10000
  {
    match (HexValue(h[0]), HexValue(h[1]), HexValue(h[2]), HexValue(h[3]))
    case (Some(a), Some(b), Some(c), Some(d)) => Some(a * 4096 + b * 256 + c * 16 + d)
    case _ => None
  }

  /** How `JSON.stringify` writes one character inside a string literal
      (QuoteJSONString): a two-character escape for the quote, the backslash
      and five control characters, a `\u00XX` escape for the other control
      characters, and the character itself otherwise. A Dafny `char` is a
      Unicode scalar value, so the lone-surrogate escape of QuoteJSONString
      has no character to apply to. */
  function EscapeChar(c: char): (e: string)
    ensures |e| == 1 <==> (c != '"' && c != '\\' && c as int >= 0x20)
    ensures |e| == 1 ==> e == [c]
    ensures |e| > 1 ==> e[0] == '\\'
    ensures forall i :: 0 <= i < |e| ==> e[i] as int >= 0x20
  {
    var n := c as int;
    if c == '"' then "\\\""
    else if c == '\\' then "\\\\"
    else if n == 0x08 then "\\b"
    else if n == 0x09 then "\\t"
    else if n == 0x0A then "\\n"
    else if n == 0x0C then "\\f"
    else if n == 0x0D then "\\r"
    else if n < 0x20 then "\\u00" + [HexDigit(n / 16), HexDigit(n % 16)]
    else [c]
  }

  /** The body of a JSON string literal for `s` (without the quotes). */
  function Quote(s: string): (q: string)
    ensures |q| >= |s|
    ensures forall i :: 0 <= i < |q| ==> q[i] as int >= 0x20
    decreases |s|
  {
    if s == [] then [] else EscapeChar(s[0]) + Quote(s[1..])
  }

  /** `JSON.stringify({ error: message })`. */
  function ErrorObject(message: string): (json: string)
    ensures |json| == 12 + |Quote(message)|
    ensures json[..10] == "{\"error\":\"" && json[|json| - 2..] == "\"}"
    ensures json[10..|json| - 2] == Quote(message)
  {
    var json := "{\"error\":\"" + Quote(message) + "\"}";
    assert json[..10] == "{\"error\":\"" && json[|json| - 2..] == "\"}";
    assert json[10..|json| - 2] == Quote(message);
    json
  }

  /** The character a two-character escape `\x` stands for. */
  function SimpleEscape(x: char): (c: Option<char>)
  {
    if x == '"' then Some('"')
    else if x == '\\' then Some('\\')
    else if x == '/' then Some('/')
    else if x == 'b' then Some(8 as char)
    else if x == 't' then Some(9 as char)
    else if x == 'n' then Some(10 as char)
    else if x == 'f' then Some(12 as char)
    else if x == 'r' then Some(13 as char)
    else None
  }

  function Prepend(c: char, r: Option<string>): (p: Option<string>)
    ensures p.Some? <==> r.Some?
    ensures p.Some? ==> p.value == [c] + r.value
  {
    match r
    case Some(s) => Some([c] + s)
    case None => None
  }

  /** Reads the body of a JSON string literal back into the string it
      denotes; `None` for text `JSON.stringify` never writes for a string of
      Unicode scalar values (surrogate-pair escapes included). */
  function Unquote(t: string): (r: Option<string>)
    decreases |t|
  {
    if t == [] then Some([])
    else if t[0] == '\\' then
      if |t| >= 2 && SimpleEscape(t[1]).Some? then
        Prepend(SimpleEscape(t[1]).value, Unquote(t[2..]))
      else if |t| >= 6 && t[1] == 'u' then
        match Hex4(t[2..6])
        case None => None
        case Some(v) =>
          if v < 0xD800 || 0xDFFF < v then Prepend(v as char, Unquote(t[6..])) else None
      else None
    else if t[0] == '"' || t[0] as int < 0x20 then None
    else Prepend(t[0], Unquote(t[1..]))
  }

  /** Reading past the escape of one character yields that character. */
  lemma UnquoteEscapeChar(c: char, rest: string)
    ensures Unquote(EscapeChar(c) + rest) == Prepend(c, Unquote(rest))
  {
    var e := EscapeChar(c);
    var t := e + rest;
    var n := c as int;
    if |e| == 1 {
      assert t[0] == c && t[1..] == rest;
    } else if c == '"' || c == '\\' || n == 0x08 || n == 0x09 || n == 0x0A || n == 0x0C || n == 0x0D {
      assert t[0] == '\\' && t[2..] == rest;
      assert SimpleEscape(t[1]) == Some(c);
    } else {
      assert e == "\\u00" + [HexDigit(n / 16), HexDigit(n % 16)];
      assert t[0] == '\\' && t[1] == 'u' && SimpleEscape(t[1]).None?;
      assert t[2..6] == ['0', '0', HexDigit(n / 16), HexDigit(n % 16)];
      assert t[6..] == rest;
      HexDigitValue(0);
      HexDigitValue(n / 16);
      HexDigitValue(n % 16);
      assert Hex4(t[2..6]) == Some(n);
    }
  }

  /** Reading a quoted string gives back the string. */
  lemma {:induction false} UnquoteQuote(s: string)
    ensures Unquote(Quote(s)) == Some(s)
    decreases |s|
  {
    if s != [] {
      UnquoteQuote(s[1..]);
      UnquoteEscapeChar(s[0], Quote(s[1..]));
      assert [s[0]] + s[1..] == s;
    }
  }

  /** The `error` member of an `{"error":"…"}` object, as the webhook's
      caller would read it. */
  function ReadErrorObject(json: string): (message: Option<string>)
  {
    if |json| >= 12 && json[..10] == "{\"error\":\"" && json[|json| - 2..] == "\"}" then
      Unquote(json[10..|json| - 2])
    else None
  }

  /** The 500 body carries the error message exactly, for any string of
      Unicode scalar values. */
  lemma ErrorObjectRoundTrip(message: string)
    ensures ReadErrorObject(ErrorObject(message)) == Some(message)
  {
    UnquoteQuote(message);
  }
}
