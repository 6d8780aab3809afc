/**
 * What JSON.stringify writes, the parser reads back: for every value whose
 * objects do not repeat a key, Parse(Stringify(v)) == Some(v).  Also: the text
 * JSON.stringify writes never contains a line break, which is what lets one
 * value travel as a single Server-Sent Events data line.
 */
module JsonRoundTrip {
  import opened Wrappers
  import opened JsonValue
  import opened JsonText
  import opened JsonParser

  /** What may follow a value inside a larger text: its end, or a separator. */
  predicate Follows(rest: string) {
    rest == [] || rest[0] == ',' || rest[0] == ']' || rest[0] == '}'
  }

  lemma SkipWsNone(s: string)
    requires s == [] || !IsWs(s[0])
    ensures SkipWs(s) == s
  {
  }

  lemma {:induction false} DigitsValueSnoc(ds: string, c: char)
    requires forall i :: 0 <= i < |ds| ==> IsDigit(ds[i])
    requires IsDigit(c)
    ensures DigitsValue(ds + [c]) == DigitsValue(ds) * 10 + DigitValue(c)
  {
    assert (ds + [c])[..|ds|] == ds;
  }

  lemma DigitCharValue(d: nat)
    requires d < 10
    ensures DigitValue(DigitChar(d)) == d
  {
  }

  lemma {:induction false} NatTextValue(n: nat)
    ensures DigitsValue(NatText(n)) == n
  {
    if n < 10 {
      assert NatText(n) == [] + [DigitChar(n)];
      DigitsValueSnoc([], DigitChar(n));
      DigitCharValue(n);
    } else {
      var q, d := n / 10, n % 10;
      assert n == q * 10 + d;
      NatTextValue(q);
      DigitsValueSnoc(NatText(q), DigitChar(d));
      DigitCharValue(d);
      assert NatText(n) == NatText(q) + [DigitChar(d)];
    }
  }

  lemma {:induction false} DigitRunPrefix(ds: string, rest: string)
    requires forall i :: 0 <= i < |ds| ==> IsDigit(ds[i])
    requires rest == [] || !IsDigit(rest[0])
    ensures DigitRun(ds + rest) == |ds|
  {
    if ds != [] {
      assert (ds + rest)[1..] == ds[1..] + rest;
      DigitRunPrefix(ds[1..], rest);
    } else {
      assert ds + rest == rest;
    }
  }

  lemma {:induction false} NatTextParses(n: nat, rest: string)
    requires rest == [] || !IsDigit(rest[0])
    ensures ParseNat(NatText(n) + rest) == Some((n, rest))
  {
    var t := NatText(n);
    var s := t + rest;
    assert s[0] == t[0];
    if t[0] == '0' {
      assert n == 0 && t == "0";
      assert s[1..] == rest;
    } else {
      DigitRunPrefix(t, rest);
      assert s[..|t|] == t && s[|t|..] == rest;
      NatTextValue(n);
    }
  }

  /** Every integer JSON.stringify writes is read back, whatever separator follows it. */
  lemma {:induction false} IntTextParses(n: int, rest: string)
    requires Follows(rest)
    ensures ParseNumber(IntText(n) + rest) == Some((JNumber(n), rest))
  {
    if n < 0 {
      NegativeParses(-n, rest);
    } else {
      NonNegativeParses(n, rest);
    }
  }

  lemma {:induction false} NonNegativeParses(n: nat, rest: string)
    requires Follows(rest)
    ensures ParseNumber(NatText(n) + rest) == Some((JNumber(n), rest))
  {
    var s := NatText(n) + rest;
    assert s != [] && s[0] != '-' by {
      assert s[0] == NatText(n)[0];
    }
    assert ParseNat(s) == Some((n, rest)) by {
      NatTextParses(n, rest);
    }
  }

  lemma {:induction false} NegativeParses(m: nat, rest: string)
    requires m > 0 && Follows(rest)
    ensures ParseNumber("-" + NatText(m) + rest) == Some((JNumber(0 - m), rest))
  {
    var s := "-" + NatText(m) + rest;
    assert s != [] && s[0] == '-' && ParseNat(s[1..]) == Some((m, rest)) by {
      assert s[1..] == NatText(m) + rest;
      NatTextParses(m, rest);
    }
  }

  lemma HexDigitValue(d: nat)
    requires d < 16
    ensures HexValue(HexDigit(d)) == Some(d)
  {
  }

  /** One character as JSON.stringify escapes it is read back as that character. */
  lemma {:induction false} EscapeCharParses(c: char, t: string)
    ensures ParseChars(EscapeChar(c) + t) ==
            match ParseChars(t)
            case None => None
            case Some((x, after)) => Some(([c] + x, after))
  {
    if c == '"' || c == '\\' || c == '\U{8}' || c == '\t' || c == '\n' || c == '\U{C}' || c == '\r' {
      ShortEscapeParses(c, t);
    } else if c < ' ' {
      UnicodeEscapeParses(c, t);
    } else {
      var s := EscapeChar(c) + t;
      assert s[0] == c && s[1..] == t;
    }
  }

  lemma {:induction false} ShortEscapeParses(c: char, t: string)
    requires c == '"' || c == '\\' || c == '\U{8}' || c == '\t' || c == '\n' || c == '\U{C}' || c == '\r'
    ensures ParseChars(EscapeChar(c) + t) ==
            match ParseChars(t)
            case None => None
            case Some((x, after)) => Some(([c] + x, after))
  {
    var s := EscapeChar(c) + t;
    assert s[0] == '\\' && ParseEscape(s[1..]) == Some((c, t)) by {
      assert s[1..] == [EscapeChar(c)[1]] + t;
      assert s[1..][1..] == t;
    }
  }

  lemma {:induction false} UnicodeEscapeParses(c: char, t: string)
    requires c < ' ' && !(c == '\U{8}' || c == '\t' || c == '\n' || c == '\U{C}' || c == '\r')
    ensures ParseChars(EscapeChar(c) + t) ==
            match ParseChars(t)
            case None => None
            case Some((x, after)) => Some(([c] + x, after))
  {
    var s := EscapeChar(c) + t;
    var u := s[1..][1..];
    assert s[0] == '\\' && s[1..][0] == 'u' && ParseUnicodeEscape(u) == Some((c, t)) by {
      var hi, lo := c as int / 16, c as int % 16;
      HexDigitValue(hi);
      HexDigitValue(lo);
      assert u == ['0', '0', HexDigit(hi), HexDigit(lo)] + t;
      assert Hex4(u) == Some(c as int);
      assert u[4..] == t;
    }
  }

  lemma {:induction false} EscapeParses(x: string, rest: string)
    ensures ParseChars(Escape(x) + "\"" + rest) == Some((x, rest))
  {
    if x == [] {
      assert Escape(x) + "\"" + rest == "\"" + rest;
      assert ("\"" + rest)[1..] == rest;
    } else {
      assert Escape(x) + "\"" + rest == EscapeChar(x[0]) + (Escape(x[1..]) + "\"" + rest);
      EscapeCharParses(x[0], Escape(x[1..]) + "\"" + rest);
      EscapeParses(x[1..], rest);
      assert [x[0]] + x[1..] == x;
    }
  }

  /** Every serialised value starts with the character that announces its kind. */
  lemma {:induction false} StringifyHead(v: Value)
    ensures |Stringify(v)| > 0
    ensures var c := Stringify(v)[0];
      match v
      case JNull => c == 'n'
      case JBool(b) => c == (if b then 't' else 'f')
      case JNumber(_) => c == '-' || IsDigit(c)
      case JString(_) => c == '"'
      case JArray(_) => c == '['
      case JObject(_) => c == '{'
  {
  }

  lemma {:induction false} ElementsHead(items: seq<Value>)
    requires items != []
    ensures |Elements(items)| > 0 && Elements(items)[0] == Stringify(items[0])[0]
  {
    StringifyHead(items[0]);
  }

  lemma {:induction false} LiteralParses(v: Value, rest: string)
    requires v.JNull? || v.JBool?
    ensures ParseValue(Stringify(v) + rest) == Some((v, rest))
  {
    var s := Stringify(v) + rest;
    SkipWsNone(s);
    match v
    case JNull =>
      assert s[..4] == "null" && s[4..] == rest;
      assert !StartsWith(s, "true") && !StartsWith(s, "false");
    case JBool(b) =>
      if b {
        assert s[..4] == "true" && s[4..] == rest;
      } else {
        assert s[..5] == "false" && s[5..] == rest;
        assert !StartsWith(s, "true");
      }
  }

  lemma {:induction false} NumberParses(n: int, rest: string)
    requires Follows(rest)
    ensures ParseValue(Stringify(JNumber(n)) + rest) == Some((JNumber(n), rest))
  {
    var s := Stringify(JNumber(n)) + rest;
    StringifyHead(JNumber(n));
    assert s[0] == Stringify(JNumber(n))[0];
    SkipWsNone(s);
    IntTextParses(n, rest);
  }

  lemma {:induction false} StringParses(x: string, rest: string)
    ensures ParseValue(Stringify(JString(x)) + rest) == Some((JString(x), rest))
  {
    var s := Stringify(JString(x)) + rest;
    assert s == "\"" + (Escape(x) + "\"" + rest);
    SkipWsNone(s);
    assert s[1..] == Escape(x) + "\"" + rest;
    EscapeParses(x, rest);
  }

  lemma {:induction false} ArrayParses(items: seq<Value>, rest: string)
    requires forall i :: 0 <= i < |items| ==> WellFormed(items[i])
    ensures ParseValue(Stringify(JArray(items)) + rest) == Some((JArray(items), rest))
    decreases items, 4
  {
    var s := Stringify(JArray(items)) + rest;
    var t := Elements(items) + "]" + rest;
    assert s == "[" + t;
    SkipWsNone(s);
    assert s[1..] == t;
    ArrayBodyParses(items, rest);
  }

  /** What follows the "[" of an array JSON.stringify wrote. */
  lemma {:induction false} ArrayBodyParses(items: seq<Value>, rest: string)
    requires forall i :: 0 <= i < |items| ==> WellFormed(items[i])
    ensures ParseArray(Elements(items) + "]" + rest) == Some((JArray(items), rest))
    decreases items, 3
  {
    var t := Elements(items) + "]" + rest;
    if items == [] {
      assert t == "]" + rest && t[1..] == rest;
    } else {
      ElementsHead(items);
      StringifyHead(items[0]);
      assert t[0] == Elements(items)[0];
      SkipWsNone(t);
      ElementsParse(items, rest);
    }
  }

  lemma {:induction false} ObjectParses(ms: seq<Member>, rest: string)
    requires DistinctKeys(ms)
    requires forall i :: 0 <= i < |ms| ==> WellFormed(ms[i].value)
    ensures ParseValue(Stringify(JObject(ms)) + rest) == Some((JObject(ms), rest))
    decreases ms, 4
  {
    var s := Stringify(JObject(ms)) + rest;
    var t := Members(ms) + "}" + rest;
    assert s == "{" + t;
    SkipWsNone(s);
    assert s[1..] == t;
    ObjectBodyParses(ms, rest);
  }

  /** What follows the "{" of an object JSON.stringify wrote. */
  lemma {:induction false} ObjectBodyParses(ms: seq<Member>, rest: string)
    requires DistinctKeys(ms)
    requires forall i :: 0 <= i < |ms| ==> WellFormed(ms[i].value)
    ensures ParseObject(Members(ms) + "}" + rest) == Some((JObject(ms), rest))
    decreases ms, 3
  {
    var t := Members(ms) + "}" + rest;
    if ms == [] {
      assert t == "}" + rest && t[1..] == rest;
    } else {
      assert t[0] == '"' by {
        var h := MemberText(ms[0]);
        assert h[0] == '"';
        assert Members(ms)[0] == h[0];
      }
      SkipWsNone(t);
      MembersParse(ms, rest);
      DedupDistinctIdentity(ms);
    }
  }

  /** The value parser reads back what JSON.stringify wrote, and stops right after it. */
  lemma {:induction false} ValueParses(v: Value, rest: string)
    requires WellFormed(v) && Follows(rest)
    ensures ParseValue(Stringify(v) + rest) == Some((v, rest))
    decreases v, 2
  {
    match v
    case JNull => LiteralParses(v, rest);
    case JBool(_) => LiteralParses(v, rest);
    case JNumber(n) => NumberParses(n, rest);
    case JString(x) => StringParses(x, rest);
    case JArray(items) => ArrayParses(items, rest);
    case JObject(ms) => ObjectParses(ms, rest);
  }

  lemma {:induction false} ElementsParse(items: seq<Value>, rest: string)
    requires items != []
    requires forall i :: 0 <= i < |items| ==> WellFormed(items[i])
    ensures ParseElements(Elements(items) + "]" + rest) == Some((items, rest))
    decreases items, 2
  {
    if |items| == 1 {
      LastElementParses(items, rest);
    } else {
      ElementsParse(items[1..], rest);
      NextElementParses(items, rest);
    }
  }

  lemma {:induction false} LastElementParses(items: seq<Value>, rest: string)
    requires |items| == 1 && WellFormed(items[0])
    ensures ParseElements(Elements(items) + "]" + rest) == Some((items, rest))
    decreases items, 1
  {
    var s := Elements(items) + "]" + rest;
    var after := "]" + rest;
    assert ParseValue(s) == Some((items[0], after)) by {
      assert s == Stringify(items[0]) + after;
      ValueParses(items[0], after);
    }
    assert SkipWs(after) == after by {
      SkipWsNone(after);
    }
    assert after[1..] == rest;
    assert items == [items[0]] + [];
    ElementsUnfold(s, items[0], after, [], rest, items);
  }

  lemma {:induction false} NextElementParses(items: seq<Value>, rest: string)
    requires |items| > 1 && WellFormed(items[0])
    requires ParseElements(Elements(items[1..]) + "]" + rest) == Some((items[1..], rest))
    ensures ParseElements(Elements(items) + "]" + rest) == Some((items, rest))
    decreases items, 1
  {
    var s := Elements(items) + "]" + rest;
    var tail := Elements(items[1..]) + "]" + rest;
    var after := "," + tail;
    assert s == Stringify(items[0]) + after by {
      assert Elements(items) == Stringify(items[0]) + "," + Elements(items[1..]);
      Regroup(Stringify(items[0]), ",", Elements(items[1..]), "]", rest);
    }
    assert ParseValue(s) == Some((items[0], after)) by {
      ValueParses(items[0], after);
    }
    assert SkipWs(after) == after by {
      SkipWsNone(after);
    }
    assert after[1..] == tail;
    assert items == [items[0]] + items[1..];
    ElementsUnfold(s, items[0], after, items[1..], rest, items);
  }

  /**
   * One step of the element parser, given what the value parser reads and,
   * after a comma, what the rest of the elements read.
   */
  lemma ElementsUnfold(s: string, v: Value, after: string, vs: seq<Value>, rest: string, all: seq<Value>)
    requires all == [v] + vs
    requires ParseValue(s) == Some((v, after))
    requires SkipWs(after) == after && after != []
    requires after[0] == ']' ==> vs == [] && after[1..] == rest
    requires after[0] == ',' ==> ParseElements(after[1..]) == Some((vs, rest))
    requires after[0] == ']' || after[0] == ','
    ensures ParseElements(s) == Some((all, rest))
  {
    if after[0] == ']' {
      assert [v] + vs == [v];
    }
  }

  /** A key as JSON.stringify quotes it, followed by u, is read to the point where u begins. */
  lemma {:induction false} KeyParses(k: string, u: string)
    requires u != [] && u[0] == ':'
    ensures var t := SkipWs(Quote(k) + u);
      t != [] && t[0] == '"' && ParseChars(t[1..]) == Some((k, u))
  {
    var s := Quote(k) + u;
    assert s == "\"" + (Escape(k) + "\"" + u);
    SkipWsNone(s);
    assert s[1..] == Escape(k) + "\"" + u;
    EscapeParses(k, u);
  }

  /**
   * The parser's view of one member: key, colon and value are read, and parsing
   * continues at tail.
   */
  lemma {:induction false} MemberStep(m: Member, tail: string)
    requires WellFormed(m.value) && tail != [] && (tail[0] == '}' || tail[0] == ',')
    ensures ParseMembers(MemberText(m) + tail) ==
      if tail[0] == '}' then Some(([m], tail[1..]))
      else match ParseMembers(tail[1..])
        case None => None
        case Some((ms, after)) => Some(([m] + ms, after))
  {
    var u := ":" + Stringify(m.value) + tail;
    var t := SkipWs(MemberText(m) + tail);
    assert t != [] && t[0] == '"' && ParseChars(t[1..]) == Some((m.key, u)) by {
      Regroup3(Quote(m.key), ":", Stringify(m.value), tail);
      KeyParses(m.key, u);
    }
    assert SkipWs(u) == u && ParseValue(u[1..]) == Some((m.value, tail)) by {
      SkipWsNone(u);
      assert u[1..] == Stringify(m.value) + tail;
      ValueParses(m.value, tail);
    }
    assert SkipWs(tail) == tail by {
      SkipWsNone(tail);
    }
    MembersUnfold(MemberText(m) + tail, m.key, u, m.value, tail);
  }

  /** One step of the member parser, given what each of its sub-parsers reads. */
  lemma MembersUnfold(s: string, key: string, u: string, v: Value, tail: string)
    requires var t := SkipWs(s); t != [] && t[0] == '"' && ParseChars(t[1..]) == Some((key, u))
    requires SkipWs(u) == u && u != [] && u[0] == ':' && ParseValue(u[1..]) == Some((v, tail))
    requires SkipWs(tail) == tail && tail != [] && (tail[0] == '}' || tail[0] == ',')
    ensures ParseMembers(s) ==
      if tail[0] == '}' then Some(([Member(key, v)], tail[1..]))
      else match ParseMembers(tail[1..])
        case None => None
        case Some((ms, after)) => Some(([Member(key, v)] + ms, after))
  {
  }

  lemma {:induction false} MembersParse(ms: seq<Member>, rest: string)
    requires ms != []
    requires forall i :: 0 <= i < |ms| ==> WellFormed(ms[i].value)
    ensures ParseMembers(Members(ms) + "}" + rest) == Some((ms, rest))
    decreases ms, 2
  {
    if |ms| == 1 {
      LastMemberParses(ms, rest);
    } else {
      MembersParse(ms[1..], rest);
      NextMemberParses(ms, rest);
    }
  }

  lemma {:induction false} Regroup(head: string, sep: string, body: string, close: string, rest: string)
    ensures head + sep + body + close + rest == head + (sep + (body + close + rest))
  {
  }

  lemma {:induction false} Regroup3(a: string, b: string, c: string, d: string)
    ensures a + b + c + d == a + (b + c + d)
  {
  }

  lemma {:induction false} LastMemberParses(ms: seq<Member>, rest: string)
    requires |ms| == 1 && WellFormed(ms[0].value)
    ensures ParseMembers(Members(ms) + "}" + rest) == Some((ms, rest))
    decreases ms, 1
  {
    var m := ms[0];
    var tail := "}" + rest;
    assert Members(ms) == MemberText(m);
    assert MemberText(m) + "}" + rest == MemberText(m) + tail;
    MemberStep(m, tail);
    assert tail[1..] == rest;
    assert [m] == ms;
  }

  lemma {:induction false} NextMemberParses(ms: seq<Member>, rest: string)
    requires |ms| > 1 && WellFormed(ms[0].value)
    requires ParseMembers(Members(ms[1..]) + "}" + rest) == Some((ms[1..], rest))
    ensures ParseMembers(Members(ms) + "}" + rest) == Some((ms, rest))
    decreases ms, 1
  {
    var m := ms[0];
    var next := Members(ms[1..]) + "}" + rest;
    var tail := "," + next;
    assert Members(ms) + "}" + rest == MemberText(m) + tail by {
      assert Members(ms) == MemberText(m) + "," + Members(ms[1..]);
      Regroup(MemberText(m), ",", Members(ms[1..]), "}", rest);
    }
    assert tail[1..] == next;
    MemberStep(m, tail);
    assert [m] + ms[1..] == ms;
  }

  /** JSON.parse(JSON.stringify(v)) gives v back for every value without repeated keys. */
  lemma {:induction false} RoundTrip(v: Value)
    requires WellFormed(v)
    ensures Parse(Stringify(v)) == Some(v)
  {
    ValueParses(v, []);
    assert Stringify(v) + [] == Stringify(v);
  }

  predicate NoLineBreak(s: string) {
    '\n' !in s && '\r' !in s
  }

  lemma {:induction false} EscapeNoLineBreak(x: string)
    ensures NoLineBreak(Escape(x))
  {
    if x != [] {
      EscapeNoLineBreak(x[1..]);
      EscapeCharNoLineBreak(x[0]);
      assert Escape(x) == EscapeChar(x[0]) + Escape(x[1..]);
    }
  }

  lemma {:induction false} EscapeCharNoLineBreak(c: char)
    ensures NoLineBreak(EscapeChar(c))
  {
    if c < ' ' && !(c == '\U{8}' || c == '\t' || c == '\n' || c == '\U{C}' || c == '\r') {
      HexDigitValue(c as int / 16);
      HexDigitValue(c as int % 16);
    }
  }

  /** JSON.stringify never writes a line feed or a carriage return: those are escaped. */
  lemma {:induction false} StringifyNoLineBreak(v: Value)
    ensures NoLineBreak(Stringify(v))
    decreases v, 1
  {
    match v
    case JNull =>
    case JBool(_) =>
    case JNumber(n) =>
      var t := NatText(if n < 0 then -n else n);
      assert forall i :: 0 <= i < |t| ==> IsDigit(t[i]);
    case JString(x) => EscapeNoLineBreak(x);
    case JArray(items) => ElementsNoLineBreak(items);
    case JObject(ms) => MembersNoLineBreak(ms);
  }

  lemma {:induction false} ElementsNoLineBreak(items: seq<Value>)
    ensures NoLineBreak(Elements(items))
    decreases items, 0
  {
    if items != [] {
      StringifyNoLineBreak(items[0]);
      if |items| > 1 {
        ElementsNoLineBreak(items[1..]);
      }
    }
  }

  lemma {:induction false} MembersNoLineBreak(ms: seq<Member>)
    ensures NoLineBreak(Members(ms))
    decreases ms, 0
  {
    if ms != [] {
      EscapeNoLineBreak(ms[0].key);
      StringifyNoLineBreak(ms[0].value);
      if |ms| > 1 {
        MembersNoLineBreak(ms[1..]);
      }
    }
  }
}
