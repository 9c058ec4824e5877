/** `JSON.stringify` without indentation. */
module JsonPrinter {
  import opened JsonValue

  const QUOTE: CodeUnit := '\"' as int
  const BACKSLASH: CodeUnit := '\\' as int
  const COMMA: CodeUnit := ',' as int
  const COLON: CodeUnit := ':' as int
  const OPEN_BRACKET: CodeUnit := '[' as int
  const CLOSE_BRACKET: CodeUnit := ']' as int
  const OPEN_BRACE: CodeUnit := '{' as int
  const CLOSE_BRACE: CodeUnit := '}' as int

  predicate IsHigh(c: CodeUnit) { 0xD800 <= c < 0xDC00 }

  predicate IsLow(c: CodeUnit) { 0xDC00 <= c < 0xE000 }

  function HexDigit(n: int): (c: CodeUnit)
    requires 0 <= n < 16
    ensures c != QUOTE && c != BACKSLASH
  {
    if n < 10 then n + '0' as int else n - 10 + 'a' as int
  }

  /** `\uXXXX`, lower-case. */
  function UnicodeEscape(c: CodeUnit): (t: Text)
    ensures |t| == 6
  {
    [BACKSLASH, 'u' as int, HexDigit(c / 16 / 16 / 16), HexDigit(c / 16 / 16 % 16), HexDigit(c / 16 % 16), HexDigit(c % 16)]
  }

  /** One code unit that is not part of a surrogate pair, as section 7 of RFC 8259 lets it be written. */
  function EscapeUnit(c: CodeUnit): (t: Text)
    ensures |t| > 0
  {
    if c == QUOTE then [BACKSLASH, QUOTE]
    else if c == BACKSLASH then [BACKSLASH, BACKSLASH]
    else if c == 8 then [BACKSLASH, 'b' as int]
    else if c == 9 then [BACKSLASH, 't' as int]
    else if c == 10 then [BACKSLASH, 'n' as int]
    else if c == 12 then [BACKSLASH, 'f' as int]
    else if c == 13 then [BACKSLASH, 'r' as int]
    else if c < 0x20 || IsHigh(c) || IsLow(c) then UnicodeEscape(c)
    else [c]
  }

  predicate StartsWithPair(s: Text) {
    |s| >= 2 && IsHigh(s[0]) && IsLow(s[1])
  }

  /** The rest of a string literal: the escaped contents and the closing quote. */
  function CloseString(s: Text): (t: Text)
    ensures |t| > 0
  {
    if |s| == 0 then [QUOTE]
    else if StartsWithPair(s) then [s[0]] + ([s[1]] + CloseString(s[2..]))
    else EscapeUnit(s[0]) + CloseString(s[1..])
  }

  function Print(v: Value): Text
    decreases v, 0
  {
    match v
    case Null => Ascii("null")
    case Bool(b) => if b then Ascii("true") else Ascii("false")
    case Number(t) => t
    case String(s) => [QUOTE] + CloseString(s)
    case Array(xs) => [OPEN_BRACKET] + CloseArray(xs, true)
    case Object(ms) => [OPEN_BRACE] + CloseObject(ms, true)
  }

  /** The rest of an array after its opening bracket (`first`) or after an element. */
  function CloseArray(xs: seq<Value>, first: bool): Text
    decreases xs, 1
  {
    if |xs| == 0 then [CLOSE_BRACKET]
    else (if first then [] else [COMMA]) + (Print(xs[0]) + CloseArray(xs[1..], false))
  }

  function CloseObject(ms: seq<Member>, first: bool): Text
    decreases ms, 1
  {
    if |ms| == 0 then [CLOSE_BRACE]
    else (if first then [] else [COMMA])
         + ([QUOTE] + (CloseString(ms[0].key) + ([COLON] + (Print(ms[0].value) + CloseObject(ms[1..], false)))))
  }
}
