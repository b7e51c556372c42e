/** Compact ASCII JSON as `json.dumps(..., sort_keys=True, separators=(",", ":"))` writes it, for
    objects whose members are already listed in key order, and a proof that the text determines
    the value: the encoding is prefix-free. */
module Json {
  import opened Wrappers

  datatype Value = Null | Str(text: string) | Obj(members: Members)
  datatype Members = End | Member(key: string, value: Value, rest: Members)

  // ----- string literals -----

  function HexDigit(n: int): char
    requires 0 <= n < 16
  {
    if n < 10 then '0' + n as char else 'a' + (n - 10) as char
  }

  function HexValue(c: char): int {
    if '0' <= c <= '9' then c as int - '0' as int else c as int - 'a' as int + 10
  }

  function Unit(n: int): string
    requires 0 <= n < 0x10000
  {
    var high, low := n / 256, n % 256;
    ['\\', 'u', HexDigit(high / 16), HexDigit(high % 16), HexDigit(low / 16), HexDigit(low % 16)]
  }

  function UnitValue(s: string): int
    requires |s| >= 6
  {
    256 * (16 * HexValue(s[2]) + HexValue(s[3])) + 16 * HexValue(s[4]) + HexValue(s[5])
  }

  /** The letter of a two-character escape. */
  function ShortEscape(c: char): Option<char> {
    if c == '"' then Some('"') else if c == '\\' then Some('\\')
    else if c as int == 8 then Some('b') else if c as int == 9 then Some('t')
    else if c as int == 10 then Some('n') else if c as int == 12 then Some('f')
    else if c as int == 13 then Some('r') else None
  }

  function EscapeChar(c: char): (s: string)
    ensures |s| >= 1
    ensures s[0] != '"'
  {
    var n := c as int;
    if ShortEscape(c).Some? then ['\\', ShortEscape(c).value]
    else if ' ' <= c <= '~' then [c]
    else if n < 0x10000 then Unit(n)
    else Unit(0xD800 + (n - 0x10000) / 0x400) + Unit(0xDC00 + (n - 0x10000) % 0x400)
  }

  /** How many characters the escape at the front of a text takes, and the code point it stands for. */
  function FrontLength(s: string): int {
    if |s| < 2 || s[0] != '\\' then 1
    else if s[1] != 'u' then 2
    else if |s| >= 6 && 0xD800 <= UnitValue(s) < 0xDC00 then 12 else 6
  }

  function FrontCode(s: string): int {
    if s == "" then 0
    else if |s| < 2 || s[0] != '\\' then s[0] as int
    else if s[1] != 'u' then
      match s[1]
      case 'b' => 8
      case 't' => 9
      case 'n' => 10
      case 'f' => 12
      case 'r' => 13
      case other => other as int
    else if |s| < 6 then 0
    else if |s| >= 12 && 0xD800 <= UnitValue(s) < 0xDC00
    then 0x10000 + 0x400 * (UnitValue(s) - 0xD800) + UnitValue(s[6..]) - 0xDC00
    else UnitValue(s)
  }

  lemma UnitRoundTrip(n: int, rest: string)
    requires 0 <= n < 0x10000
    ensures UnitValue(Unit(n) + rest) == n
  {
    hide HexDigit, HexValue;
    var high, low := n / 256, n % 256;
    HexRoundTrip(high / 16);
    HexRoundTrip(high % 16);
    HexRoundTrip(low / 16);
    HexRoundTrip(low % 16);
  }

  lemma HexRoundTrip(n: int)
    requires 0 <= n < 16
    ensures HexValue(HexDigit(n)) == n
  {
  }

  /** The front of an escaped text gives the character back. */
  lemma FrontRoundTrip(c: char, rest: string)
    ensures FrontLength(EscapeChar(c) + rest) == |EscapeChar(c)|
    ensures FrontCode(EscapeChar(c) + rest) == c as int
  {
    hide UnitValue, Unit;
    var n, s := c as int, EscapeChar(c) + rest;
    if ShortEscape(c).Some? || ' ' <= c <= '~' {
    } else if n < 0x10000 {
      UnitRoundTrip(n, rest);
      UnitShape(n);
    } else {
      var high, low := 0xD800 + (n - 0x10000) / 0x400, 0xDC00 + (n - 0x10000) % 0x400;
      assert s == Unit(high) + (Unit(low) + rest);
      UnitRoundTrip(high, Unit(low) + rest);
      UnitShape(high);
      UnitShape(low);
      assert s[6..] == Unit(low) + rest;
      UnitRoundTrip(low, rest);
    }
  }

  lemma UnitShape(n: int)
    requires 0 <= n < 0x10000
    ensures |Unit(n)| == 6 && Unit(n)[0] == '\\' && Unit(n)[1] == 'u'
  {
  }

  function Escape(s: string): string {
    if s == "" then "" else EscapeChar(s[0]) + Escape(s[1..])
  }

  function Quote(s: string): string {
    "\"" + Escape(s) + "\""
  }

  /** A string literal at the front of a text determines the string and what follows it. */
  lemma {:induction false} EscapeSplit(a: string, b: string, x: string, y: string)
    requires Escape(a) + "\"" + x == Escape(b) + "\"" + y
    ensures a == b && x == y
    decreases |a|
  {
    hide EscapeChar, FrontLength, FrontCode;
    if a == "" || b == "" {
      EmptyEscape(a, x);
      EmptyEscape(b, y);
    } else {
      var s, t := Escape(a[1..]) + "\"" + x, Escape(b[1..]) + "\"" + y;
      assert Escape(a) + "\"" + x == EscapeChar(a[0]) + s;
      assert Escape(b) + "\"" + y == EscapeChar(b[0]) + t;
      FrontRoundTrip(a[0], s);
      FrontRoundTrip(b[0], t);
      assert (EscapeChar(a[0]) + s)[|EscapeChar(a[0])|..] == s;
      assert (EscapeChar(b[0]) + t)[|EscapeChar(b[0])|..] == t;
      EscapeSplit(a[1..], b[1..], x, y);
    }
  }

  lemma EmptyEscape(a: string, x: string)
    ensures a == "" <==> (Escape(a) + "\"" + x)[0] == '"'
    ensures a == "" ==> (Escape(a) + "\"" + x)[1..] == x
  {
  }

  lemma QuoteSplit(a: string, b: string, x: string, y: string)
    requires Quote(a) + x == Quote(b) + y
    ensures a == b && x == y
  {
    hide Escape;
    assert (Quote(a) + x)[1..] == Escape(a) + "\"" + x;
    assert (Quote(b) + y)[1..] == Escape(b) + "\"" + y;
    EscapeSplit(a, b, x, y);
  }

  // ----- values -----

  function Encode(v: Value): string
    decreases v, 0
  {
    match v
    case Null => "null"
    case Str(text) => Quote(text)
    case Obj(members) => "{" + EncodeMembers(members)
  }

  function EncodeMembers(m: Members): string
    decreases m, 0
  {
    match m
    case End => "}"
    case Member(key, value, rest) => Quote(key) + ":" + Encode(value) + EncodeRest(rest)
  }

  function EncodeRest(m: Members): string
    decreases m, 1
  {
    if m.End? then "}" else "," + EncodeMembers(m)
  }

  lemma Front(v: Value, x: string)
    ensures |Encode(v)| >= 1
    ensures v.Null? ==> Encode(v)[0] == 'n'
    ensures v.Str? ==> Encode(v)[0] == '"'
    ensures v.Obj? ==> Encode(v)[0] == '{'
  {
  }

  /** The encoding of a value is never a proper prefix of another's: what was written can be read back. */
  lemma {:induction false} EncodeSplit(v: Value, w: Value, x: string, y: string)
    requires Encode(v) + x == Encode(w) + y
    ensures v == w && x == y
    decreases v, 2
  {
    hide Quote;
    Front(v, x);
    Front(w, y);
    assert (Encode(v) + x)[0] == Encode(v)[0] && (Encode(w) + y)[0] == Encode(w)[0];
    match v {
      case Null =>
        assert (Encode(v) + x)[4..] == x && (Encode(w) + y)[4..] == y;
      case Str(text) =>
        QuoteSplit(text, w.text, x, y);
      case Obj(members) =>
        assert (Encode(v) + x)[1..] == EncodeMembers(members) + x;
        assert (Encode(w) + y)[1..] == EncodeMembers(w.members) + y;
        MembersSplit(members, w.members, x, y);
    }
  }

  lemma {:induction false} MembersSplit(m: Members, n: Members, x: string, y: string)
    requires EncodeMembers(m) + x == EncodeMembers(n) + y
    ensures m == n && x == y
    decreases m, 1
  {
    hide Escape;
    assert (EncodeMembers(m) + x)[0] == EncodeMembers(m)[0] && (EncodeMembers(n) + y)[0] == EncodeMembers(n)[0];
    if m.End? {
      assert (EncodeMembers(m) + x)[1..] == x && (EncodeMembers(n) + y)[1..] == y;
    } else {
      MemberSplit(m, n, x, y);
    }
  }

  lemma {:induction false} MemberSplit(m: Members, n: Members, x: string, y: string)
    requires m.Member? && n.Member?
    requires EncodeMembers(m) + x == EncodeMembers(n) + y
    ensures m == n && x == y
    decreases m, 0
  {
    hide Quote, Encode;
    var s, t := Encode(m.value) + (EncodeRest(m.rest) + x), Encode(n.value) + (EncodeRest(n.rest) + y);
    assert EncodeMembers(m) + x == Quote(m.key) + (":" + s);
    assert EncodeMembers(n) + y == Quote(n.key) + (":" + t);
    QuoteSplit(m.key, n.key, ":" + s, ":" + t);
    assert (":" + s)[1..] == s && (":" + t)[1..] == t;
    EncodeSplit(m.value, n.value, EncodeRest(m.rest) + x, EncodeRest(n.rest) + y);
    RestSplit(m.rest, n.rest, x, y);
  }

  lemma {:induction false} RestSplit(m: Members, n: Members, x: string, y: string)
    requires EncodeRest(m) + x == EncodeRest(n) + y
    ensures m == n && x == y
    decreases m, 2
  {
    hide EncodeMembers;
    var s, t := EncodeRest(m) + x, EncodeRest(n) + y;
    assert s[0] == EncodeRest(m)[0] && t[0] == EncodeRest(n)[0];
    if m.End? {
      assert s[1..] == x && t[1..] == y;
    } else {
      assert s[1..] == EncodeMembers(m) + x;
      assert t[1..] == EncodeMembers(n) + y;
      MembersSplit(m, n, x, y);
    }
  }

  lemma EncodeInjective(v: Value, w: Value)
    requires Encode(v) == Encode(w)
    ensures v == w
  {
    assert Encode(v) + "" == Encode(w) + "";
    EncodeSplit(v, w, "", "");
  }
}
