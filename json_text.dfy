/**
 * JSON.stringify on the values of JsonValue, as ECMAScript defines it
 * (SerializeJSONProperty, QuoteJSONString): no whitespace, members in order,
 * `"` and `\` escaped, the control characters below U+0020 written as \b \t \n
 * \f \r or as \u00xx with lower-case hex digits, every other character as is.
 */
module JsonText {
  import opened JsonValue

  predicate IsDigit(c: char) { '0' <= c <= '9' }

  /** JSON's insignificant whitespace: space, tab, line feed, carriage return. */
  predicate IsWs(c: char) { c == ' ' || c == '\t' || c == '\n' || c == '\r' }

  function DigitChar(d: nat): (c: char)
    requires d < 10
    ensures IsDigit(c)
  {
    ('0' as int + d) as char
  }

  function HexDigit(d: nat): char
    requires d < 16
  {
    "0123456789abcdef"[d]
  }

  /** Decimal digits of n, most significant first, no leading zero. */
  function NatText(n: nat): (t: string)
    ensures |t| > 0
    ensures forall i :: 0 <= i < |t| ==> IsDigit(t[i])
    ensures t[0] == '0' ==> n == 0
  {
    if n < 10 then [DigitChar(n)] else NatText(n / 10) + [DigitChar(n % 10)]
  }

  function IntText(n: int): string {
    if n < 0 then "-" + NatText(-n) else NatText(n)
  }

  function EscapeChar(c: char): string {
    if c == '"' then "\\\""
    else if c == '\\' then "\\\\"
    else if c == '\U{8}' then "\\b"
    else if c == '\t' then "\\t"
    else if c == '\n' then "\\n"
    else if c == '\U{C}' then "\\f"
    else if c == '\r' then "\\r"
    else if c < ' ' then "\\u00" + [HexDigit(c as int / 16), HexDigit(c as int % 16)]
    else [c]
  }

  function Escape(s: string): string {
    if s == [] then [] else EscapeChar(s[0]) + Escape(s[1..])
  }

  function Quote(s: string): string {
    "\"" + Escape(s) + "\""
  }

  function Stringify(v: Value): string
    decreases v, 2
  {
    match v
    case JNull => "null"
    case JBool(b) => if b then "true" else "false"
    case JNumber(n) => IntText(n)
    case JString(s) => Quote(s)
    case JArray(items) => "[" + Elements(items) + "]"
    case JObject(ms) => "{" + Members(ms) + "}"
  }

  /** The elements of an array, separated by commas. */
  function Elements(items: seq<Value>): string
    decreases items, 0
  {
    if items == [] then ""
    else if |items| == 1 then Stringify(items[0])
    else Stringify(items[0]) + "," + Elements(items[1..])
  }

  /** One member of an object as "key":value. */
  function MemberText(m: Member): string
    decreases m, 0
  {
    Quote(m.key) + ":" + Stringify(m.value)
  }

  /** The members of an object, separated by commas. */
  function Members(ms: seq<Member>): string
    decreases ms, 1
  {
    if ms == [] then ""
    else if |ms| == 1 then MemberText(ms[0])
    else MemberText(ms[0]) + "," + Members(ms[1..])
  }
}
