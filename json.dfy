/**
 * JSON text for string values, as serde_json writes and reads it. The browser
 * backend stores every typed value as JSON; for the one type whose JSON form
 * matters to its behaviour, `String`, the codec is spelled out here so that the
 * difference between `set` (JSON, quoted) and `set_string` (raw text) can be
 * stated and proved.
 *
 * Writing (`Quote`): a double quote, each character escaped as serde_json does
 * (`\"`, `\\`, `\n`, `\r`, `\t`, `\b`, `\f`, other control characters below
 * U+0020 as `\u00xx` with lower-case hex digits, everything else verbatim), a
 * closing double quote.
 *
 * Reading (`Unquote`): optional leading whitespace, a string literal, optional
 * trailing whitespace and nothing else; raw control characters inside the
 * literal are refused, as are escapes serde_json refuses.
 */
module Json {
  import opened Wrappers
  import opened Codecs

  const HexDigits: string := "0123456789abcdef"

  /** The characters JSON allows between tokens. */
  predicate IsWhitespace(c: char) {
    c == ' ' || c == '\t' || c == '\n' || c == '\r'
  }

  predicate AllWhitespace(t: string) {
    forall i :: 0 <= i < |t| ==> IsWhitespace(t[i])
  }

  /** How serde_json writes one character inside a string literal. */
  function EscapeChar(c: char): (e: string)
    ensures 1 <= |e|
  {
    if c == '"' then ['\\', '"']
    else if c == '\\' then ['\\', '\\']
    else if c == '\n' then ['\\', 'n']
    else if c == '\r' then ['\\', 'r']
    else if c == '\t' then ['\\', 't']
    else if c == 8 as char then ['\\', 'b']
    else if c == 12 as char then ['\\', 'f']
    else if (c as int) < 0x20 then ['\\', 'u', '0', '0', HexDigits[c as int / 16], HexDigits[c as int % 16]]
    else [c]
  }

  /** The body of the literal: every character escaped, in order. */
  function Escape(s: string): (e: string)
    ensures |e| >= |s|
  {
    if s == [] then [] else EscapeChar(s[0]) + Escape(s[1..])
  }

  /** `serde_json::to_string` of a string. */
  function Quote(s: string): (q: string)
    ensures |q| >= |s| + 2
    ensures q[0] == '"' && q[|q| - 1] == '"'
  {
    ['"'] + Escape(s) + ['"']
  }

  function HexValue(c: char): (r: Option<int>)
    ensures r.Some? ==> 0 <= r.value < 16
  {
    if '0' <= c <= '9' then Some(c as int - '0' as int)
    else if 'a' <= c <= 'f' then Some(c as int - 'a' as int + 10)
    else if 'A' <= c <= 'F' then Some(c as int - 'A' as int + 10)
    else None
  }

  /** The character named by the four hex digits of a `\u` escape. */
  function HexChar(h: string): (c: Option<char>)
    requires |h| == 4
  {
    match (HexValue(h[0]), HexValue(h[1]), HexValue(h[2]), HexValue(h[3]))
    case (Some(a), Some(b), Some(c), Some(d)) =>
      var v := 4096 * a + 256 * b + 16 * c + d;
      if 0xD800 <= v <= 0xDFFF then None else Some(v as char)
    case _ => None
  }

  /** Reads the escape that follows a backslash: the character and how much of `t` it used. */
  function Unescape(t: string): (r: Option<(char, nat)>)
    ensures r.Some? ==> 1 <= r.value.1 <= |t|
  {
    if t == [] then None
    else if t[0] == '"' then Some(('"', 1))
    else if t[0] == '\\' then Some(('\\', 1))
    else if t[0] == '/' then Some(('/', 1))
    else if t[0] == 'b' then Some((8 as char, 1))
    else if t[0] == 'f' then Some((12 as char, 1))
    else if t[0] == 'n' then Some(('\n', 1))
    else if t[0] == 'r' then Some(('\r', 1))
    else if t[0] == 't' then Some(('\t', 1))
    else if t[0] == 'u' && |t| >= 5 then
      match HexChar(t[1..5])
      case Some(c) => Some((c, 5))
      case None => None
    else None
  }

  function Prepend(c: char, r: Option<string>): (p: Option<string>) {
    match r
    case Some(s) => Some([c] + s)
    case None => None
  }

  /** Reads the rest of a literal after its opening quote; only whitespace may follow the closing quote. */
  function ParseBody(t: string): (r: Option<string>)
    decreases |t|
  {
    if t == [] then None
    else if t[0] == '"' then
      if AllWhitespace(t[1..]) then Some([]) else None
    else if t[0] == '\\' then
      match Unescape(t[1..])
      case None => None
      case Some((c, n)) => Prepend(c, ParseBody(t[1 + n..]))
    else if (t[0] as int) < 0x20 then None
    else Prepend(t[0], ParseBody(t[1..]))
  }

  function TrimStart(t: string): (u: string) {
    if t != [] && IsWhitespace(t[0]) then TrimStart(t[1..]) else t
  }

  /** `serde_json::from_str::<String>`. */
  function Unquote(t: string): (r: Option<string>) {
    var u := TrimStart(t);
    if u != [] && u[0] == '"' then ParseBody(u[1..]) else None
  }

  /** The JSON codec at type `String`: encoding never fails. */
  function JsonString(): (c: Codec<string, string>) {
    Codec(s => Some(Quote(s)), Unquote)
  }

  lemma HexDigitValue(i: int)
    requires 0 <= i < 16
    ensures HexValue(HexDigits[i]) == Some(i)
  {
    if i < 10 {
      assert HexDigits[i] as int == '0' as int + i;
    } else {
      assert HexDigits[i] as int == 'a' as int + i - 10;
    }
  }

  /** Reading one escaped character and then `tail` yields the character followed by what `tail` yields. */
  lemma ParseEscapedChar(c: char, tail: string)
    ensures ParseBody(EscapeChar(c) + tail) == Prepend(c, ParseBody(tail))
  {
    var t := EscapeChar(c) + tail;
    if c == '"' || c == '\\' || c == '\n' || c == '\r' || c == '\t' || c == 8 as char || c == 12 as char {
      assert t[0] == '\\' && t[1..] == [EscapeChar(c)[1]] + tail && t[2..] == tail;
    } else if (c as int) < 0x20 {
      var hi, lo := c as int / 16, c as int % 16;
      HexDigitValue(hi);
      HexDigitValue(lo);
      assert t[1..][1..5] == ['0', '0', HexDigits[hi], HexDigits[lo]];
      assert HexChar(t[1..][1..5]) == Some(c);
      assert t[0] == '\\' && t[1..][0] == 'u' && t[6..] == tail;
    } else {
      assert t[0] == c && t[1..] == tail;
    }
  }

  lemma {:induction false} ParseEscaped(s: string)
    ensures ParseBody(Escape(s) + ['"']) == Some(s)
  {
    if s == [] {
      assert Escape(s) + ['"'] == ['"'];
    } else {
      var tail := Escape(s[1..]) + ['"'];
      assert Escape(s) + ['"'] == EscapeChar(s[0]) + tail;
      ParseEscaped(s[1..]);
      ParseEscapedChar(s[0], tail);
      assert [s[0]] + s[1..] == s;
    }
  }

  /** Reading what serde_json wrote gives back the original string. */
  lemma UnquoteQuote(s: string)
    ensures Unquote(Quote(s)) == Some(s)
  {
    var q := Quote(s);
    assert TrimStart(q) == q;
    assert q[1..] == Escape(s) + ['"'];
    ParseEscaped(s);
  }

  lemma JsonStringRoundTrips()
    ensures RoundTrips(JsonString())
  {
    forall s: string
      ensures JsonString().decode(JsonString().encode(s).value) == Some(s)
    {
      UnquoteQuote(s);
    }
  }

  /** Text that does not open with a quote (after whitespace) is not a JSON string. */
  lemma PlainTextIsNotJson(s: string)
    requires s == [] || (s[0] != '"' && !IsWhitespace(s[0]))
    ensures Unquote(s) == None
  {
  }

  /** The raw text of a string is never its own JSON form. */
  lemma QuoteChangesText(s: string)
    ensures Quote(s) != s
  {
    assert |Quote(s)| > |s|;
  }
}
