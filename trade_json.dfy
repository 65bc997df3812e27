/**
 * The Trade record and its wire form: the JSON object `json.Marshal` writes
 * for the Go struct, with the fields in declaration order under their tag
 * names, and a decoder for that form with the round trip proved.
 */
module TradeJson {
  import opened Wrappers
  import opened Numbers

  /** One trade, keyed in the ledger by its tradeId. */
  datatype Trade = Trade(
    tradeId: string,
    fromParty: string,
    toParty: string,
    amount: Int64,
    status: string,
    ctime: string)

  /** Go's zero value `Trade{}`: what a failed Unmarshal leaves behind. */
  const ZeroTrade := Trade("", "", "", 0, "", "")

  /** A text decoded from the front of a longer text, and what follows it. */
  datatype Parsed<+T> = Parsed(value: T, rest: string)

  /* ---------------- hexadecimal digits ---------------- */

  /** The lower-case hex digit `encoding/json` writes in `\u00XX` escapes. */
  function HexDigit(d: nat): (c: char)
    requires d < 16
    ensures HexValue(c) == Some(d)
  {
    if d < 10 then ('0' as int + d) as char else ('a' as int + d - 10) as char
  }

  function HexValue(c: char): (r: Option<nat>)
    ensures r.Some? ==> r.value < 16
  {
    if '0' <= c <= '9' then Some(c as int - '0' as int)
    else if 'a' <= c <= 'f' then Some(c as int - 'a' as int + 10)
    else if 'A' <= c <= 'F' then Some(c as int - 'A' as int + 10)
    else None
  }

  /** Four hex digits, most significant first. */
  function Hex4(h: string): (r: Option<nat>)
    requires |h| == 4
    ensures r.Some? ==> r.value < 0x10000
  {
    var a :- HexValue(h[0]);
    var b :- HexValue(h[1]);
    var c :- HexValue(h[2]);
    var d :- HexValue(h[3]);
    Some(((a * 16 + b) * 16 + c) * 16 + d)
  }

  /* ---------------- strings ---------------- */

  /**
   * How `encoding/json` writes one character inside a string literal:
   * quote and backslash are backslash-escaped, newline, carriage return and
   * tab get their short escapes, the other control characters and the HTML
   * characters <, > and & become `\u00XX`, U+2028 and U+2029 become
   * `\u2028`/`\u2029`, and every other character is written as it is.
   */
  function EscapeChar(c: char): (e: string)
    ensures |e| > 0
  {
    if c == '"' || c == '\\' then ['\\', c]
    else if c == '\n' then "\\n"
    else if c == '\r' then "\\r"
    else if c == '\t' then "\\t"
    else if c < ' ' || c == '<' || c == '>' || c == '&' then
      "\\u00" + [HexDigit(c as int / 16), HexDigit(c as int % 16)]
    else if c == '\U{2028}' || c == '\U{2029}' then
      "\\u202" + [HexDigit(c as int % 16)]
    else [c]
  }

  function Escape(s: string): string {
    if |s| == 0 then "" else EscapeChar(s[0]) + Escape(s[1..])
  }

  /** A string value as it appears in the record: escaped, between quotes. */
  function Quoted(s: string): string {
    "\"" + Escape(s) + "\""
  }

  /** The escape sequence after a backslash: the character it stands for and the text after it. */
  function Unescape(s: string): (r: Option<Parsed<char>>)
    ensures r.Some? ==> |r.value.rest| < |s|
  {
    if |s| == 0 then None
    else if s[0] == '"' || s[0] == '\\' || s[0] == '/' then Some(Parsed(s[0], s[1..]))
    else if s[0] == 'b' then Some(Parsed('\U{8}', s[1..]))
    else if s[0] == 'f' then Some(Parsed('\U{C}', s[1..]))
    else if s[0] == 'n' then Some(Parsed('\n', s[1..]))
    else if s[0] == 'r' then Some(Parsed('\r', s[1..]))
    else if s[0] == 't' then Some(Parsed('\t', s[1..]))
    else if s[0] == 'u' && |s| >= 5 then
      match Hex4(s[1..5])
      case None => None
      case Some(v) => if 0xD800 <= v < 0xE000 then None else Some(Parsed(v as char, s[5..]))
    else None
  }

  function Prepend(c: char, r: Option<Parsed<string>>): Option<Parsed<string>> {
    match r
    case None => None
    case Some(p) => Some(Parsed([c] + p.value, p.rest))
  }

  /**
   * The body of a string literal, after its opening quote: the decoded text
   * and what follows the closing quote. A raw control character or an
   * unknown escape is an error.
   */
  function StringBody(s: string): Option<Parsed<string>>
    decreases |s|
  {
    if |s| == 0 then None
    else if s[0] == '"' then Some(Parsed("", s[1..]))
    else if s[0] == '\\' then
      match Unescape(s[1..])
      case None => None
      case Some(p) => Prepend(p.value, StringBody(p.rest))
    else if s[0] < ' ' then None
    else Prepend(s[0], StringBody(s[1..]))
  }

  function StringLiteral(s: string): Option<Parsed<string>> {
    if |s| > 0 && s[0] == '"' then StringBody(s[1..]) else None
  }

  /** A `\u` escape whose four hex digits name c reads back as c. */
  lemma UnicodeEscapeDecodes(c: char, h: string, t: string)
    requires |h| == 4 && Hex4(h) == Some(c as nat) && !(0xD800 <= c as int < 0xE000)
    ensures StringBody("\\u" + h + t) == Prepend(c, StringBody(t))
  {
    var s := "\\u" + h + t;
    assert s[1..][1..5] == h;
    assert s[1..][5..] == t;
  }

  /** Every escape EscapeChar writes decodes back to its character. */
  lemma EscapeCharDecodes(c: char, t: string)
    ensures StringBody(EscapeChar(c) + t) == Prepend(c, StringBody(t))
  {
    var s := EscapeChar(c) + t;
    if c == '"' || c == '\\' || c == '\n' || c == '\r' || c == '\t' {
      assert s[1..][1..] == t;
    } else if c < ' ' || c == '<' || c == '>' || c == '&' {
      var h := ['0', '0', HexDigit(c as int / 16), HexDigit(c as int % 16)];
      assert EscapeChar(c) == "\\u" + h;
      UnicodeEscapeDecodes(c, h, t);
    } else if c == '\U{2028}' || c == '\U{2029}' {
      var h := ['2', '0', '2', HexDigit(c as int % 16)];
      assert EscapeChar(c) == "\\u" + h;
      UnicodeEscapeDecodes(c, h, t);
    } else {
      assert s[1..] == t;
    }
  }

  /** Escaping a text and closing the quote reads back as that text, whatever follows. */
  lemma {:induction false} EscapeDecodes(x: string, rest: string)
    ensures StringBody(Escape(x) + ("\"" + rest)) == Some(Parsed(x, rest))
  {
    if |x| == 0 {
      assert Escape(x) + ("\"" + rest) == "\"" + rest;
    } else {
      var t := Escape(x[1..]) + ("\"" + rest);
      assert Escape(x) + ("\"" + rest) == EscapeChar(x[0]) + t;
      EscapeCharDecodes(x[0], t);
      EscapeDecodes(x[1..], rest);
      assert [x[0]] + x[1..] == x;
    }
  }

  lemma QuotedDecodes(x: string, rest: string)
    ensures StringLiteral(Quoted(x) + rest) == Some(Parsed(x, rest))
  {
    assert (Quoted(x) + rest)[1..] == Escape(x) + ("\"" + rest);
    EscapeDecodes(x, rest);
  }

  /* ---------------- integers ---------------- */

  /** The digits of a JSON integer, `0|[1-9][0-9]*`, their value and the text after them. */
  function UnsignedLiteral(t: string): (r: Option<Parsed<nat>>)
  {
    var n := DigitRun(t);
    if n == 0 || (n > 1 && t[0] == '0') then None
    else Some(Parsed(DigitsValue(t[..n]), t[n..]))
  }

  /**
   * A JSON integer at the front of s, `-?(0|[1-9][0-9]*)`, that fits a Go
   * `int`, and the text after it.
   */
  function IntLiteral(s: string): (r: Option<Parsed<Int64>>)
  {
    var negative := |s| > 0 && s[0] == '-';
    var p :- UnsignedLiteral(if negative then s[1..] else s);
    var magnitude: int := p.value;
    var v := if negative then -magnitude else magnitude;
    if MinInt64 <= v <= MaxInt64 then Some(Parsed(v, p.rest)) else None
  }

  /** The decimal digits of m, followed by a non-digit, read back as m. */
  lemma DigitsDecode(m: nat, rest: string)
    requires rest == [] || !IsDigit(rest[0])
    ensures UnsignedLiteral(NatToDecimal(m) + rest) == Some(Parsed(m, rest))
  {
    var d := NatToDecimal(m);
    DigitRunOfDigits(d, rest);
    assert (d + rest)[..|d|] == d;
    assert (d + rest)[|d|..] == rest;
  }

  /** A minus sign and the digits of m read back as -m. */
  lemma NegativeDecodes(n: Int64, rest: string)
    requires n < 0
    requires rest == [] || !IsDigit(rest[0])
    ensures IntLiteral(FormatInt(n) + rest) == Some(Parsed(n, rest))
  {
    var m: nat := -(n as int);
    var tail := NatToDecimal(m) + rest;
    DigitsDecode(m, rest);
    MinusLiteral(tail, m, rest);
    assert FormatInt(n) + rest == "-" + tail;
  }

  /** A minus sign before an unsigned literal negates it, when that fits. */
  lemma MinusLiteral(tail: string, m: nat, rest: string)
    requires UnsignedLiteral(tail) == Some(Parsed(m, rest)) && MinInt64 <= -(m as int)
    ensures IntLiteral("-" + tail) == Some(Parsed(-(m as int), rest))
  {
    SignSplit('-', tail);
  }

  lemma IntLiteralDecodes(n: Int64, rest: string)
    requires rest == [] || !IsDigit(rest[0])
    ensures IntLiteral(FormatInt(n) + rest) == Some(Parsed(n, rest))
  {
    if n < 0 {
      NegativeDecodes(n, rest);
    } else {
      DigitsDecode(n as int, rest);
    }
  }

  /* ---------------- the record ---------------- */

  /** A member value of the record object: a JSON string or a JSON integer. */
  datatype Value = Str(text: string) | Num(number: Int64)

  /** One `"name":value` member of a JSON object. */
  datatype Member = Member(name: string, value: Value)

  /** The JSON names of Trade's fields, in declaration order (its struct tags). */
  const FieldNames: seq<string> := ["tradeID", "fromParty", "toParty", "amount", "status", "ctime"]

  /** The members `json.Marshal` writes for a trade, in field order. */
  function TradeMembers(t: Trade): (ms: seq<Member>)
    ensures |ms| == |FieldNames| && forall i :: 0 <= i < |ms| ==> ms[i].name == FieldNames[i]
  {
    [Member("tradeID", Str(t.tradeId)), Member("fromParty", Str(t.fromParty)),
     Member("toParty", Str(t.toParty)), Member("amount", Num(t.amount)),
     Member("status", Str(t.status)), Member("ctime", Str(t.ctime))]
  }

  function Names(ms: seq<Member>): (r: seq<string>)
    ensures |r| == |ms| && forall i :: 0 <= i < |ms| ==> r[i] == ms[i].name
  {
    if |ms| == 0 then [] else [ms[0].name] + Names(ms[1..])
  }

  function Values(ms: seq<Member>): (r: seq<Value>)
    ensures |r| == |ms| && forall i :: 0 <= i < |ms| ==> r[i] == ms[i].value
  {
    if |ms| == 0 then [] else [ms[0].value] + Values(ms[1..])
  }

  /** The trade whose fields are these values, if they have the right kinds. */
  function FromValues(vs: seq<Value>): (r: Option<Trade>)
    ensures r.Some? ==> Values(TradeMembers(r.value)) == vs
  {
    if |vs| == 6 && vs[0].Str? && vs[1].Str? && vs[2].Str? && vs[3].Num? && vs[4].Str? && vs[5].Str? then
      var t := Trade(vs[0].text, vs[1].text, vs[2].text, vs[3].number, vs[4].text, vs[5].text);
      assert Values(TradeMembers(t)) == vs;
      Some(t)
    else
      None
  }

  function ValueText(v: Value): string {
    match v
    case Str(s) => Quoted(s)
    case Num(n) => FormatInt(n)
  }

  function MemberText(m: Member): string {
    Quoted(m.name) + (":" + ValueText(m.value))
  }

  /** The members, comma separated. */
  function MembersText(ms: seq<Member>): string {
    if |ms| == 0 then ""
    else if |ms| == 1 then MemberText(ms[0])
    else MemberText(ms[0]) + ("," + MembersText(ms[1..]))
  }

  /** `json.Marshal(trade)`: the six members, in struct order, without spaces. */
  function Encode(t: Trade): string {
    "{" + (MembersText(TradeMembers(t)) + "}")
  }

  /** The literal text lit at the front of s, and what follows it. */
  function Expect(lit: string, s: string): (r: Option<string>)
    ensures r.Some? ==> s == lit + r.value
  {
    if |lit| == 0 then Some(s)
    else if |s| > 0 && s[0] == lit[0] then Expect(lit[1..], s[1..])
    else None
  }

  lemma {:induction false} ExpectAccepts(lit: string, rest: string)
    ensures Expect(lit, lit + rest) == Some(rest)
  {
    if |lit| > 0 {
      assert (lit + rest)[1..] == lit[1..] + rest;
      ExpectAccepts(lit[1..], rest);
    } else {
      assert lit + rest == rest;
    }
  }

  /** A string or an integer, told apart by its first character. */
  function ValueLiteral(s: string): Option<Parsed<Value>> {
    if |s| > 0 && s[0] == '"' then
      var p :- StringLiteral(s);
      Some(Parsed(Str(p.value), p.rest))
    else
      var p :- IntLiteral(s);
      Some(Parsed(Num(p.value), p.rest))
  }

  /** One member with the given name: its value and the text after it. */
  function MemberLiteral(s: string, name: string): Option<Parsed<Value>> {
    var key :- StringLiteral(s);
    if key.value != name then
      None
    else
      var s1 :- Expect(":", key.rest);
      ValueLiteral(s1)
  }

  /**
   * The members of an object, which must carry exactly the given names in
   * that order, separated by commas; their values and the text after them.
   */
  function MembersLiteral(s: string, names: seq<string>): Option<Parsed<seq<Value>>>
    requires |names| > 0
    decreases |names|
  {
    var v :- MemberLiteral(s, names[0]);
    if |names| == 1 then
      Some(Parsed([v.value], v.rest))
    else
      var s2 :- Expect(",", v.rest);
      var more :- MembersLiteral(s2, names[1..]);
      Some(Parsed([v.value] + more.value, more.rest))
  }

  /**
   * Reads a record in the layout Encode writes. Any other text (missing,
   * extra or reordered members, white space, trailing text, an amount that
   * does not fit) is a decoding failure.
   */
  function Decode(s: string): (r: Option<Trade>)
  {
    var body :- Expect("{", s);
    var ms :- MembersLiteral(body, FieldNames);
    var end :- Expect("}", ms.rest);
    if end == [] then FromValues(ms.value) else None
  }

  lemma ValueDecodes(v: Value, rest: string)
    requires rest != [] && !IsDigit(rest[0])
    ensures ValueLiteral(ValueText(v) + rest) == Some(Parsed(v, rest))
  {
    match v
    case Str(x) =>
      QuotedDecodes(x, rest);
    case Num(n) =>
      IntLiteralDecodes(n, rest);
      assert (FormatInt(n) + rest)[0] == FormatInt(n)[0];
  }

  lemma AppendAssoc(a: string, b: string, c: string)
    ensures (a + b) + c == a + (b + c)
  {
  }

  lemma MemberDecodes(m: Member, rest: string)
    requires rest != [] && !IsDigit(rest[0])
    ensures MemberLiteral(MemberText(m) + rest, m.name) == Some(Parsed(m.value, rest))
  {
    var q, v := Quoted(m.name), ValueText(m.value) + rest;
    calc {
      MemberText(m) + rest;
      (q + (":" + ValueText(m.value))) + rest;
      { AppendAssoc(q, ":" + ValueText(m.value), rest); }
      q + ((":" + ValueText(m.value)) + rest);
      { AppendAssoc(":", ValueText(m.value), rest); }
      q + (":" + v);
    }
    QuotedDecodes(m.name, ":" + v);
    ExpectAccepts(":", v);
    ValueDecodes(m.value, rest);
  }

  /** MembersLiteral on a first member, a comma and the remaining members. */
  lemma MembersLiteralCons(s: string, names: seq<string>, v: Parsed<Value>, s2: string, more: Parsed<seq<Value>>)
    requires |names| > 1
    requires MemberLiteral(s, names[0]) == Some(v)
    requires Expect(",", v.rest) == Some(s2)
    requires MembersLiteral(s2, names[1..]) == Some(more)
    ensures MembersLiteral(s, names) == Some(Parsed([v.value] + more.value, more.rest))
  {
  }

  /** MembersText of two or more members, with text after it, regrouped around the first comma. */
  lemma MembersTextCons(ms: seq<Member>, rest: string)
    requires |ms| > 1
    ensures MembersText(ms) + rest == MemberText(ms[0]) + ("," + (MembersText(ms[1..]) + rest))
  {
    AppendAssoc(MemberText(ms[0]), "," + MembersText(ms[1..]), rest);
    AppendAssoc(",", MembersText(ms[1..]), rest);
  }

  lemma NamesTail(ms: seq<Member>)
    requires |ms| > 0
    ensures Names(ms)[0] == ms[0].name && Names(ms)[1..] == Names(ms[1..])
  {
    assert Names(ms) == [ms[0].name] + Names(ms[1..]);
  }

  /** Members written by MembersText read back, names checked, as their values. */
  lemma {:induction false} MembersDecode(ms: seq<Member>, rest: string)
    requires |ms| > 0
    requires rest != [] && rest[0] == '}'
    ensures MembersLiteral(MembersText(ms) + rest, Names(ms)) == Some(Parsed(Values(ms), rest))
  {
    if |ms| == 1 {
      MemberDecodes(ms[0], rest);
      assert Values(ms) == [ms[0].value];
    } else {
      var tail := MembersText(ms[1..]) + rest;
      MembersTextCons(ms, rest);
      MemberDecodes(ms[0], "," + tail);
      ExpectAccepts(",", tail);
      MembersDecode(ms[1..], rest);
      NamesTail(ms);
      MembersLiteralCons(MembersText(ms) + rest, Names(ms), Parsed(ms[0].value, "," + tail), tail,
                         Parsed(Values(ms[1..]), rest));
    }
  }

  /** The members of a trade carry the field names and give the trade back. */
  lemma TradeMembersShape(t: Trade)
    ensures Names(TradeMembers(t)) == FieldNames
    ensures FromValues(Values(TradeMembers(t))) == Some(t)
  {
    var ms := TradeMembers(t);
    var names := Names(ms);
    assert |names| == |FieldNames|;
    assert forall i :: 0 <= i < |names| ==> names[i] == FieldNames[i];
    var vs := Values(ms);
    assert vs[0] == Str(t.tradeId) && vs[1] == Str(t.fromParty) && vs[2] == Str(t.toParty);
    assert vs[3] == Num(t.amount) && vs[4] == Str(t.status) && vs[5] == Str(t.ctime);
  }

  /** A stored record reads back as exactly the trade that was written. */
  lemma DecodeEncode(t: Trade)
    ensures Decode(Encode(t)) == Some(t)
  {
    var ms := TradeMembers(t);
    var text := MembersText(ms);
    ExpectAccepts("{", text + "}");
    TradeMembersShape(t);
    MembersDecode(ms, "}");
    ExpectAccepts("}", []);
    assert "}" + [] == "}";
  }

  /** Two different trades are never stored as the same text. */
  lemma EncodeInjective(a: Trade, b: Trade)
    requires Encode(a) == Encode(b)
    ensures a == b
  {
    DecodeEncode(a);
    DecodeEncode(b);
  }
}
