/** The dedup_key column as text: distinct logical events have distinct key strings. */
module DedupText {
  import opened Calendar
  import opened Records
  import opened Text

  function ChannelText(c: Channel): string {
    if c == EMAIL then "EMAIL" else "SMS"
  }

  function ToText(to: Address): string {
    ChannelText(to.channel) + ":" + to.text
  }

  function TokenText(t: Token): string {
    match t
    case Threshold(days) => SignedText(days, 1)
    case OverdueWeek(year, week) => "ov" + SignedText(year, 1) + "W" + SignedText(week, 2)
  }

  /** The four f-strings that build a key. */
  function KeyText(k: DedupKey): string {
    match k
    case E6Key(trigger, to) => "e6" + ":" + (NatText(trigger) + ":" + ToText(to))
    case BreachKey(c, to) => "esc" + ":" + (NatText(c) + ":" + ("breached" + ":" + ToText(to)))
    case NagKey(c, on, to) => "esc" + ":" + (NatText(c) + ":" + ("nag" + ":" + (IsoText(on) + ":" + ToText(to))))
    case ReminderKey(d, token, to) => "rem" + ":" + (NatText(d) + ":" + (TokenText(token) + ":" + ToText(to)))
  }

  // ----- splitting at a separator -----

  lemma SplitAt(sep: char, a: string, b: string, x: string, y: string)
    requires sep !in a && sep !in b
    requires a + [sep] + x == b + [sep] + y
    ensures a == b && x == y
  {
    var s, t := a + [sep] + x, b + [sep] + y;
    assert s[|a|] == sep && t[|b|] == sep;
    assert forall i | 0 <= i < |a| :: s[i] == a[i];
    assert forall i | 0 <= i < |b| :: t[i] == b[i];
    assert |a| == |b|;
    assert s[..|a|] == a && t[..|b|] == b;
    assert s[|a| + 1..] == x && t[|b| + 1..] == y;
  }

  lemma NumberHasNo(n: int, width: nat, sep: char)
    requires sep == ':' || sep == 'W'
    ensures sep !in SignedText(n, width)
  {
  }

  lemma ToTextInjective(a: Address, b: Address)
    requires ToText(a) == ToText(b)
    ensures a == b
  {
    SplitAt(':', ChannelText(a.channel), ChannelText(b.channel), a.text, b.text);
  }

  lemma TokenFront(t: Token)
    ensures t.OverdueWeek? <==> TokenText(t)[..1] == "o"
    ensures TokenText(t) != ""
  {
    hide Padded;
    if t.Threshold? && t.days >= 0 {
      PaddedNotEmpty(t.days, 1);
      assert '0' <= TokenText(t)[0] <= '9';
    }
  }

  lemma TokenTextInjective(a: Token, b: Token)
    requires TokenText(a) == TokenText(b)
    ensures a == b
  {
    hide SignedText;
    TokenFront(a);
    TokenFront(b);
    if a.Threshold? {
      SignedTextInjective(a.days, b.days, 1);
    } else {
      var x, y := SignedText(a.isoYear, 1), SignedText(b.isoYear, 1);
      var v, w := SignedText(a.isoWeek, 2), SignedText(b.isoWeek, 2);
      assert TokenText(a)[2..] == x + ['W'] + v && TokenText(b)[2..] == y + ['W'] + w;
      NumberHasNo(a.isoYear, 1, 'W');
      NumberHasNo(b.isoYear, 1, 'W');
      SplitAt('W', x, y, v, w);
      SignedTextInjective(a.isoYear, b.isoYear, 1);
      SignedTextInjective(a.isoWeek, b.isoWeek, 2);
    }
  }

  lemma TokenNoColon(t: Token)
    ensures ':' !in TokenText(t)
  {
  }

  lemma NatNoColon(n: nat)
    ensures ':' !in NatText(n)
  {
  }

  // ----- the keys -----

  /** What follows the first segment. */
  function Tail(k: DedupKey): string {
    match k
    case E6Key(_, to) => ToText(to)
    case BreachKey(_, to) => "breached" + [':'] + ToText(to)
    case NagKey(_, on, to) => "nag" + [':'] + (IsoText(on) + [':'] + ToText(to))
    case ReminderKey(_, token, to) => TokenText(token) + [':'] + ToText(to)
  }

  function Front(k: DedupKey): string {
    match k
    case E6Key(_, _) => "e6"
    case BreachKey(_, _) => "esc"
    case NagKey(_, _, _) => "esc"
    case ReminderKey(_, _, _) => "rem"
  }

  function Id(k: DedupKey): nat {
    match k
    case E6Key(trigger, _) => trigger
    case BreachKey(c, _) => c
    case NagKey(c, _, _) => c
    case ReminderKey(d, _, _) => d
  }

  lemma KeyParts(k: DedupKey)
    ensures KeyText(k) == Front(k) + [':'] + (NatText(Id(k)) + [':'] + Tail(k))
    ensures ':' !in Front(k)
  {
  }

  lemma TailInjective(a: DedupKey, b: DedupKey)
    requires Front(a) == Front(b) && Id(a) == Id(b) && Tail(a) == Tail(b)
    ensures a == b
  {
    hide ToText, TokenText, IsoText, NatText;
    match a {
      case E6Key(_, to) => ToTextInjective(to, b.to);
      case ReminderKey(_, token, to) =>
        TokenNoColon(token);
        TokenNoColon(b.token);
        SplitAt(':', TokenText(token), TokenText(b.token), ToText(to), ToText(b.to));
        TokenTextInjective(token, b.token);
        ToTextInjective(to, b.to);
      case BreachKey(_, to) =>
        if b.BreachKey? {
          SplitAt(':', "breached", "breached", ToText(to), ToText(b.to));
          ToTextInjective(to, b.to);
        } else {
          SplitAt(':', "breached", "nag", ToText(to), IsoText(b.on) + [':'] + ToText(b.to));
        }
      case NagKey(_, on, to) =>
        if b.BreachKey? {
          SplitAt(':', "nag", "breached", IsoText(on) + [':'] + ToText(to), ToText(b.to));
        } else {
          NagTail(on, to, b.on, b.to);
        }
    }
  }

  lemma NagTail(on: Day, to: Address, bOn: Day, bTo: Address)
    requires Tail(NagKey(0, on, to)) == Tail(NagKey(0, bOn, bTo))
    ensures on == bOn && to == bTo
  {
    hide ToText, IsoText;
    SplitAt(':', "nag", "nag", IsoText(on) + [':'] + ToText(to), IsoText(bOn) + [':'] + ToText(bTo));
    IsoTextNoColon(on);
    IsoTextNoColon(bOn);
    SplitAt(':', IsoText(on), IsoText(bOn), ToText(to), ToText(bTo));
    IsoTextInjective(on, bOn);
    ToTextInjective(to, bTo);
  }

  /** Distinct events have distinct key strings: the unique constraint on the text is uniqueness of events. */
  lemma KeyTextInjective(a: DedupKey, b: DedupKey)
    requires KeyText(a) == KeyText(b)
    ensures a == b
  {
    hide KeyText, Tail, NatText, Front;
    KeyParts(a);
    KeyParts(b);
    SplitAt(':', Front(a), Front(b), NatText(Id(a)) + [':'] + Tail(a), NatText(Id(b)) + [':'] + Tail(b));
    NatNoColon(Id(a));
    NatNoColon(Id(b));
    SplitAt(':', NatText(Id(a)), NatText(Id(b)), Tail(a), Tail(b));
    NatTextInjective(Id(a), Id(b));
    TailInjective(a, b);
  }
}
