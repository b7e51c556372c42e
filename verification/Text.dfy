/** Rendering numbers, civil days and JSON string literals as text, each shown to lose nothing. */
module Text {
  import opened Calendar

  // ----- decimal numbers -----

  function Digit(n: nat): char
    requires n < 10
  {
    '0' + n as char
  }

  function NatText(n: nat): (s: string)
    ensures |s| >= 1
    ensures n < 10 ==> |s| == 1
    ensures 10 <= n < 100 ==> |s| == 2
    ensures forall i | 0 <= i < |s| :: '0' <= s[i] <= '9'
  {
    if n < 10 then [Digit(n)] else NatText(n / 10) + [Digit(n % 10)]
  }

  /** Zero-padded to at least `width` digits. */
  function Padded(n: nat, width: nat): (s: string)
    ensures |s| >= width
    ensures width == 2 && n < 100 ==> |s| == 2
    ensures forall i | 0 <= i < |s| :: '0' <= s[i] <= '9'
    decreases width
  {
    if width <= |NatText(n)| then NatText(n)
    else ZeroFill(NatText(n), width)
  }

  function ZeroFill(s: string, width: nat): (r: string)
    requires forall i | 0 <= i < |s| :: '0' <= s[i] <= '9'
    requires |s| <= width
    ensures |r| == width
    ensures forall i | 0 <= i < |r| :: '0' <= r[i] <= '9'
    decreases width - |s|
  {
    if |s| == width then s else ZeroFill("0" + s, width)
  }

  function Value(s: string): int {
    if s == "" then 0 else 10 * Value(s[..|s| - 1]) + (s[|s| - 1] as int - '0' as int)
  }

  lemma {:induction false} NatTextValue(n: nat)
    ensures Value(NatText(n)) == n
  {
    var s := NatText(n);
    if n >= 10 {
      assert s[..|s| - 1] == NatText(n / 10);
      NatTextValue(n / 10);
    } else {
      assert s[..0] == "";
    }
  }

  lemma {:induction false} LeadingZero(s: string)
    ensures Value("0" + s) == Value(s)
  {
    if s == "" {
      assert ("0" + s)[..0] == "";
    } else {
      assert ("0" + s)[..|s|] == "0" + s[..|s| - 1];
      LeadingZero(s[..|s| - 1]);
    }
  }

  lemma {:induction false} ZeroFillValue(s: string, width: nat)
    requires forall i | 0 <= i < |s| :: '0' <= s[i] <= '9'
    requires |s| <= width
    ensures Value(ZeroFill(s, width)) == Value(s)
    decreases width - |s|
  {
    if |s| < width {
      LeadingZero(s);
      ZeroFillValue("0" + s, width);
    }
  }

  lemma PaddedValue(n: nat, width: nat)
    ensures Value(Padded(n, width)) == n
  {
    NatTextValue(n);
    if width > |NatText(n)| {
      ZeroFillValue(NatText(n), width);
    }
  }

  lemma NatTextInjective(a: nat, b: nat)
    requires NatText(a) == NatText(b)
    ensures a == b
  {
    NatTextValue(a);
    NatTextValue(b);
  }

  // ----- civil days -----

  /** `{n:0w}` for any integer. */
  function SignedText(n: int, width: nat): string {
    if n >= 0 then Padded(n, width) else "-" + Padded(-n, width)
  }

  function YearText(year: int): string { SignedText(year, 4) }

  /** `date.isoformat()`. */
  function IsoText(day: Day): string {
    var d := DateOf(day);
    if d.month >= 0 && d.day >= 0 then YearText(d.year) + "-" + Padded(d.month, 2) + "-" + Padded(d.day, 2) else ""
  }

  lemma SignedTextInjective(a: int, b: int, width: nat)
    requires SignedText(a, width) == SignedText(b, width)
    ensures a == b
  {
    hide Padded, Value;
    if a >= 0 && b >= 0 {
      PaddedValue(a, width);
      PaddedValue(b, width);
    } else if a < 0 && b < 0 {
      assert SignedText(a, width)[1..] == Padded(-a, width);
      assert SignedText(b, width)[1..] == Padded(-b, width);
      PaddedValue(-a, width);
      PaddedValue(-b, width);
    } else {
      SignDiffers(if a < 0 then b else a, if a < 0 then a else b, width);
    }
  }

  lemma SignDiffers(a: int, b: int, width: nat)
    requires b < 0 <= a
    ensures SignedText(a, width) != SignedText(b, width)
  {
    hide Padded;
    PaddedNotEmpty(a, width);
    assert '0' <= SignedText(a, width)[0] && SignedText(b, width)[0] == '-';
  }

  lemma PaddedNotEmpty(n: nat, width: nat)
    ensures Padded(n, width) != ""
  {
  }

  lemma IsoTextInjective(a: Day, b: Day)
    requires IsoText(a) == IsoText(b)
    ensures a == b
  {
    var d, e := DateOf(a), DateOf(b);
    DateOfValid(a);
    DateOfValid(b);
    var s, n := IsoText(a), |IsoText(a)|;
    hide DateOf, IsoText, Padded, SignedText, DaysInMonth;
    IsoParts(a);
    IsoParts(b);
    PaddedValue(d.month, 2);
    PaddedValue(e.month, 2);
    PaddedValue(d.day, 2);
    PaddedValue(e.day, 2);
    SignedTextInjective(d.year, e.year, 4);
    DateRoundTrip(a, d);
    DateRoundTrip(b, e);
  }

  lemma IsoParts(a: Day)
    ensures var d, s := DateOf(a), IsoText(a);
      && 1 <= d.month <= 12 && 1 <= d.day <= 31
      && |s| >= 6
      && s[..|s| - 6] == YearText(d.year)
      && s[|s| - 5..|s| - 3] == Padded(d.month, 2)
      && s[|s| - 2..] == Padded(d.day, 2)
  {
    DateOfValid(a);
    hide DateOf, Padded, SignedText;
  }

  /** ISO dates contain no colon. */
  lemma IsoTextNoColon(a: Day)
    ensures ':' !in IsoText(a)
  {
  }
}
