/** `reminder_notch` of app/jobs/sweeps.py: which single reminder applies to a due date today. */
module Reminders {
  import opened Wrappers
  import opened Calendar
  import BerlinTime
  import opened Records

  const REMINDER_NOTCHES := [0, 7, 30, 90]

  /** The smallest threshold reached, most urgent first. */
  function FirstNotch(daysLeft: int, notches: seq<int>): Option<int> {
    if notches == [] then None
    else if daysLeft <= notches[0] then Some(notches[0])
    else FirstNotch(daysLeft, notches[1..])
  }

  // ----- ISO weeks (section 4.1.4 of ISO 8601:2004) -----

  /** The Monday of a day's week; ordinal 1 is a Monday. */
  function WeekStart(day: Day): Day {
    day - (day - 1) % 7
  }

  /** A week belongs to the year its Thursday lies in. */
  function Thursday(day: Day): Day { WeekStart(day) + 3 }

  function IsoYear(day: Day): int { BerlinTime.YearOf(Thursday(day)) }

  function IsoWeek(day: Day): int {
    (Thursday(day) - MonthStart(12 * IsoYear(day))) / 7 + 1
  }

  function ReminderNotch(dueOn: Day, today: Day): Option<Token> {
    var d := dueOn - today;
    if d >= 0 then
      var n := FirstNotch(d, REMINDER_NOTCHES);
      if n.Some? then Some(Threshold(n.value)) else None
    else Some(OverdueWeek(IsoYear(today), IsoWeek(today)))
  }

  // ----- what a token says -----

  /** Two overdue days share a token if and only if they share a Monday-to-Sunday week. */
  lemma WeekTokens(a: Day, b: Day)
    ensures OverdueWeek(IsoYear(a), IsoWeek(a)) == OverdueWeek(IsoYear(b), IsoWeek(b)) <==> WeekStart(a) == WeekStart(b)
  {
    hide BerlinTime.YearOf, MonthStart;
    if IsoYear(a) == IsoYear(b) && IsoWeek(a) == IsoWeek(b) {
      SameSeventh(Thursday(a), Thursday(b), MonthStart(12 * IsoYear(a)));
    }
  }

  lemma SameSeventh(s: Day, t: Day, origin: Day)
    requires (s - origin) / 7 == (t - origin) / 7 && s % 7 == t % 7
    ensures s == t
  {
  }

  /** The number of a day's Monday-to-Sunday week, counted from the week of 1 January of year 1, a Monday. */
  function WeekOf(day: Day): int { (day - 1) / 7 }

  /** Week 1 of a year is the week of its 4 January (section 4.1.4 of ISO 8601:2004). */
  function FirstWeek(year: int): int { WeekOf(DayOf(Date(year, 1, 4))) }

  /** ISO week numbering: the weeks of a year run on from its first one up to the first one of the next. */
  lemma WeekNumber(day: Day, year: int, week: int)
    ensures IsoYear(day) == year && IsoWeek(day) == week <==>
      WeekOf(day) == FirstWeek(year) + week - 1 && FirstWeek(year) <= WeekOf(day) < FirstWeek(year + 1)
  {
    hide BerlinTime.YearOf, MonthStart;
    WeekInYear(day, year);
    if IsoYear(day) == year {
      SeventhsFrom(Thursday(day), MonthStart(12 * year));
    }
  }

  /** A day's week belongs to the year its Thursday lies in, which starts with the week of 4 January. */
  lemma WeekInYear(day: Day, year: int)
    ensures IsoYear(day) == year <==> FirstWeek(year) <= WeekOf(day) < FirstWeek(year + 1)
  {
    hide BerlinTime.YearOf, MonthStart;
    BerlinTime.YearBounds(Thursday(day), year);
    ThursdayFrom(day, MonthStart(12 * year));
    ThursdayFrom(day, MonthStart(12 * year + 12));
  }

  lemma ThursdayFrom(day: Day, start: Day)
    ensures start <= Thursday(day) <==> WeekOf(start + 3) <= WeekOf(day)
  {
  }

  /** Thursdays on or after a year's start, counted in sevens, count weeks from that of the fourth day. */
  lemma SeventhsFrom(thursday: Day, start: Day)
    requires thursday % 7 == 4
    ensures (thursday - start) / 7 == (thursday - 1) / 7 - (start + 2) / 7
  {
  }

  /** Overdue: the one token is that of today's ISO week. Every overdue day has one, and it stays the same
      from Monday to Sunday and on no other day. */
  lemma OverdueToken(dueOn: Day, today: Day, year: int, week: int)
    requires dueOn < today
    ensures ReminderNotch(dueOn, today) == Some(OverdueWeek(year, week)) <==>
      WeekOf(today) == FirstWeek(year) + week - 1 && FirstWeek(year) <= WeekOf(today) < FirstWeek(year + 1)
    ensures ReminderNotch(dueOn, today).Some? && ReminderNotch(dueOn, today).value.OverdueWeek?
  {
    hide IsoYear, IsoWeek, WeekOf, FirstWeek;
    WeekNumber(today, year, week);
  }

  /** On two overdue days a deadline has the same token if and only if it is the same week. */
  lemma OverdueSameWeek(dueOn: Day, a: Day, b: Day)
    requires dueOn < a && dueOn < b
    ensures ReminderNotch(dueOn, a) == ReminderNotch(dueOn, b) <==> (a - 1) / 7 == (b - 1) / 7
  {
    hide IsoYear, IsoWeek;
    WeekTokens(a, b);
  }

  /** The pre-due thresholds as day windows. */
  lemma ThresholdWindow(dueOn: Day, today: Day, n: int)
    ensures ReminderNotch(dueOn, today) == Some(Threshold(n)) <==>
      var d := dueOn - today;
      || (n == 0 && d == 0) || (n == 7 && 0 < d <= 7) || (n == 30 && 7 < d <= 30) || (n == 90 && 30 < d <= 90)
  {
    hide IsoYear, IsoWeek;
    var d := dueOn - today;
    assert FirstNotch(d, [0, 7, 30, 90]) ==
           if d <= 0 then Some(0) else if d <= 7 then Some(7) else if d <= 30 then Some(30) else if d <= 90 then Some(90) else None by {
      assert [0, 7, 30, 90][1..] == [7, 30, 90] && [7, 30, 90][1..] == [30, 90] && [30, 90][1..] == [90] && [90][1..] == [];
      NotchSteps(d);
    }
  }

  lemma NotchSteps(d: int)
    ensures FirstNotch(d, [7, 30, 90]) == if d <= 7 then Some(7) else FirstNotch(d, [30, 90])
    ensures FirstNotch(d, [30, 90]) == if d <= 30 then Some(30) else FirstNotch(d, [90])
    ensures FirstNotch(d, [90]) == if d <= 90 then Some(90) else None
  {
  }

  /** When a token is due: a threshold in its window of days before the due date, a week while it lasts and
      the due date is past. */
  predicate Applies(dueOn: Day, today: Day, token: Token) {
    match token
    case Threshold(n) =>
      || (n == 0 && today == dueOn)
      || (n == 7 && dueOn - 7 <= today < dueOn)
      || (n == 30 && dueOn - 30 <= today < dueOn - 7)
      || (n == 90 && dueOn - 90 <= today < dueOn - 30)
    case OverdueWeek(year, week) =>
      dueOn < today && WeekOf(today) == FirstWeek(year) + week - 1 && FirstWeek(year) <= WeekOf(today) < FirstWeek(year + 1)
  }

  /** The notch of a day is the one token that is due. */
  lemma NotchExactly(dueOn: Day, today: Day, token: Token)
    ensures ReminderNotch(dueOn, today) == Some(token) <==> Applies(dueOn, today, token)
  {
    hide IsoYear, IsoWeek, WeekOf, FirstWeek;
    match token {
      case Threshold(n) => ThresholdWindow(dueOn, today, n);
      case OverdueWeek(year, week) =>
        if dueOn < today {
          OverdueToken(dueOn, today, year, week);
        }
    }
  }

  /** At most four pre-due tokens exist. */
  lemma FourThresholds(dueOn: Day, today: Day)
    requires today <= dueOn && ReminderNotch(dueOn, today).Some?
    ensures ReminderNotch(dueOn, today).value in {Threshold(0), Threshold(7), Threshold(30), Threshold(90)}
  {
    hide IsoYear, IsoWeek;
    ThresholdWindow(dueOn, today, ReminderNotch(dueOn, today).value.days);
  }

  /** One token of one deadline comes up again only within two months. */
  lemma TokenReach(dueOn: Day, a: Day, b: Day)
    requires ReminderNotch(dueOn, a).Some? && ReminderNotch(dueOn, a) == ReminderNotch(dueOn, b)
    ensures b <= a + 59
  {
    hide IsoYear, IsoWeek, FirstNotch;
    var token := ReminderNotch(dueOn, a).value;
    if token.Threshold? {
      ThresholdWindow(dueOn, a, token.days);
      ThresholdWindow(dueOn, b, token.days);
    } else {
      WeekTokens(a, b);
    }
  }
}
