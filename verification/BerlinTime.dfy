/** Instants and the Europe/Berlin wall clock under the EU rule (Articles 2 and 3 of
    Directive 2000/84/EC): one hour ahead of UTC, two between 01:00 UTC on the last Sunday
    of March and 01:00 UTC on the last Sunday of October.

    An `Instant` counts microseconds on the UTC line; its zero is the start of ordinal day 0.
    A `Wall` reading counts microseconds of local civil time from the same day. */
module BerlinTime {
  import opened Calendar

  type Instant = int
  type Wall = int

  const SECOND := 1_000_000
  const HOUR := 3600 * SECOND
  const DAY := 86400 * SECOND

  // ----- the transition days -----

  /** The Sunday on or before a day: ordinals that are multiples of 7 are Sundays. */
  function SundayUpTo(end: Day): (s: Day)
    ensures s % 7 == 0
    ensures end - 6 <= s <= end
  {
    end - end % 7
  }

  function LastSunday(year: int, month: int): Day
    requires 1 <= month <= 12
  {
    SundayUpTo(DayOf(Date(year, month, DaysInMonth(year, month))))
  }

  function SpringDay(year: int): Day { LastSunday(year, 3) }
  function AutumnDay(year: int): Day { LastSunday(year, 10) }

  function YearOf(day: Day): int { DateOf(day).year }

  // ----- offsets -----

  /** Summer time on the UTC line. */
  predicate IsSummer(t: Instant) {
    var year := YearOf(t / DAY);
    SpringDay(year) * DAY + HOUR <= t < AutumnDay(year) * DAY + HOUR
  }

  function Offset(t: Instant): (o: int)
    ensures o == HOUR || o == 2 * HOUR
  {
    if IsSummer(t) then 2 * HOUR else HOUR
  }

  /** `astimezone(BERLIN)`: the wall reading at an instant. */
  function Local(t: Instant): Wall { t + Offset(t) }

  function BerlinDay(t: Instant): Day { Local(t) / DAY }

  /** Summer time on the wall clock as zoneinfo resolves a reading with fold 0: the skipped hour
      counts as winter time and the repeated hour as its first, summer, pass. */
  predicate IsSummerWall(w: Wall) {
    var year := YearOf(w / DAY);
    SpringDay(year) * DAY + 3 * HOUR <= w < AutumnDay(year) * DAY + 3 * HOUR
  }

  function WallOffset(w: Wall): (o: int)
    ensures o == HOUR || o == 2 * HOUR
  {
    if IsSummerWall(w) then 2 * HOUR else HOUR
  }

  /** The instant of an aware Berlin datetime with fold 0. */
  function AtWall(w: Wall): Instant { w - WallOffset(w) }

  /** Adding a timedelta to an aware Berlin datetime moves its wall clock and clears fold. */
  function WallAdd(t: Instant, delta: int): Instant { AtWall(Local(t) + delta) }

  // ----- constructors of app/dates.py -----

  const END_OF_DAY := DAY - SECOND

  /** `escalation_deadline`: 23:59:59 on the `days`-th Berlin day after opening. */
  function EscalationDeadline(openedAt: Instant, days: int): Instant {
    AtWall((BerlinDay(openedAt) + days) * DAY + END_OF_DAY)
  }

  /** `instant_months_ago`, with the clock it reads passed in. */
  function MonthsAgo(now: Instant, months: int): Instant {
    AtWall(PlusMonths(BerlinDay(now), -months) * DAY)
  }

  /** `_month_start_instant` of the SMS quota. */
  function MonthStartInstant(now: Instant): Instant {
    AtWall(MonthStart(MonthOf(BerlinDay(now))) * DAY)
  }

  // ----- the year a transition falls in -----

  lemma YearBounds(day: Day, year: int)
    ensures YearOf(day) == year <==> MonthStart(12 * year) <= day < MonthStart(12 * year + 12)
  {
    hide MonthStart, MonthLength;
    var m := MonthOf(day);
    MonthOfIs(day, m);
    assert YearOf(day) == m / 12;
    if m < 12 * year {
      MonthsTile(m);
      MonthSpan(m + 1, 12 * year - m - 1);
    } else if 12 * year + 12 <= m {
      MonthSpan(12 * year + 12, m - 12 * year - 12);
    } else {
      MonthSpan(12 * year, m - 12 * year);
      MonthsTile(m);
      MonthSpan(m + 1, 12 * year + 11 - m);
    }
  }

  /** Both switches happen inside their own year, spring at least 190 days before autumn. */
  lemma SwitchDays(year: int)
    ensures MonthStart(12 * year) + 50 <= SpringDay(year)
    ensures SpringDay(year) + 190 <= AutumnDay(year)
    ensures AutumnDay(year) + 50 < MonthStart(12 * year + 12)
  {
    hide MonthStart, MonthLength, SundayUpTo, IsLeap;
    assert DayOf(Date(year, 3, 31)) == MonthStart(12 * year + 2) + 30;
    assert DayOf(Date(year, 10, 31)) == MonthStart(12 * year + 9) + 30;
    MonthSpan(12 * year, 2);
    MonthSpan(12 * year + 2, 7);
    MonthSpan(12 * year + 9, 3);
  }

  // ----- the wall clock and the UTC line -----

  /** Away from the two switches nothing changes: summer time as a window of one fixed year. */
  lemma SummerWindow(t: Instant, year: int)
    requires YearOf(t / DAY) == year || YearOf(Local(t) / DAY) == year
    ensures IsSummer(t) <==> SpringDay(year) * DAY + HOUR <= t < AutumnDay(year) * DAY + HOUR
    ensures IsSummerWall(Local(t)) <==> SpringDay(year) * DAY + 3 * HOUR <= Local(t) < AutumnDay(year) * DAY + 3 * HOUR
  {
    hide LastSunday, YearOf, MonthStart;
    var utcYear, localYear := YearOf(t / DAY), YearOf(Local(t) / DAY);
    YearBounds(t / DAY, utcYear);
    YearBounds(Local(t) / DAY, localYear);
    SwitchDays(utcYear);
    SwitchDays(localYear);
    if utcYear != localYear {
      YearBounds(t / DAY, localYear);
      YearBounds(Local(t) / DAY, utcYear);
      assert t / DAY <= Local(t) / DAY <= t / DAY + 1;
      YearGap(t / DAY, utcYear, localYear);
    }
  }

  lemma YearGap(day: Day, a: int, b: int)
    requires YearOf(day) == a && YearOf(day + 1) == b
    ensures a <= b <= a + 1
    ensures a < b ==> MonthStart(12 * b) == day + 1
  {
    hide YearOf, MonthStart;
    YearBounds(day, a);
    YearBounds(day + 1, b);
    YearBounds(day + 1, a);
    if b != a {
      YearBounds(day + 1, a + 1);
      SwitchDays(a + 1);
    }
  }

  /** Reading the clock at `AtWall(w)` gives `w` back except inside the skipped spring hour,
      where it reads one hour later. */
  lemma WallRoundTrip(w: Wall)
    ensures var gap := SpringDay(YearOf(w / DAY)) * DAY + 2 * HOUR;
      Local(AtWall(w)) == if gap <= w < gap + HOUR then w + HOUR else w
  {
    hide LastSunday, YearOf, MonthStart;
    var t, year := AtWall(w), YearOf(w / DAY);
    var utcYear := YearOf(t / DAY);
    YearBounds(w / DAY, year);
    SwitchDays(year);
    SwitchDays(utcYear);
    YearBounds(t / DAY, utcYear);
    if utcYear != year {
      assert w / DAY - 1 <= t / DAY <= w / DAY;
      YearGap(t / DAY, utcYear, year);
    }
  }

  /** A reading outside the repeated autumn hour and outside the skipped spring hour names one
      instant: it exists and it is unambiguous. */
  lemma WallUnambiguous(w: Wall, t: Instant)
    requires w % DAY < 2 * HOUR || w % DAY >= 3 * HOUR
    ensures Local(AtWall(w)) == w
    ensures Local(t) == w ==> t == AtWall(w)
  {
    hide LastSunday, YearOf, IsSummer, IsSummerWall, SpringDay, AutumnDay;
    var year := YearOf(w / DAY);
    var s, a := SpringDay(year), AutumnDay(year);
    OutsideSwitchHour(w / DAY, w % DAY, s);
    OutsideSwitchHour(w / DAY, w % DAY, a);
    WallRoundTrip(w);
    if Local(t) == w {
      SummerWindow(t, year);
    }
  }

  lemma OutsideSwitchHour(day: Day, time: int, switch: Day)
    requires 0 <= time < 2 * HOUR || 3 * HOUR <= time < DAY
    ensures var w := day * DAY + time;
      w < switch * DAY + 2 * HOUR || switch * DAY + 3 * HOUR <= w
  {
  }

  lemma OffsetDropDay(a: Instant, b: Instant, switch: Day)
    requires a < switch * DAY + HOUR <= b < a + HOUR
    ensures (a + 2 * HOUR) / DAY == switch && (b + HOUR) / DAY == switch
  {
  }

  lemma SameDayAcrossAutumnSwitch(a: Instant, b: Instant)
    requires a <= b < a + HOUR
    requires IsSummer(a) && !IsSummer(b)
    ensures BerlinDay(a) == BerlinDay(b)
  {
    hide LastSunday, YearOf, MonthStart, SpringDay, AutumnDay;
    var year := YearOf(a / DAY);
    YearBounds(a / DAY, year);
    SwitchDays(year);
    YearBounds(b / DAY, year);
    OffsetDropDay(a, b, AutumnDay(year));
  }

  /** Civil days never run backwards, although the wall clock does for an hour each autumn. */
  lemma BerlinDayMonotone(a: Instant, b: Instant)
    requires a <= b
    ensures BerlinDay(a) <= BerlinDay(b)
  {
    hide IsSummer;
    if IsSummer(a) && !IsSummer(b) && b < a + HOUR {
      SameDayAcrossAutumnSwitch(a, b);
    }
  }

  /** 00:00 Berlin is the first instant of its civil day. */
  lemma Midnight(day: Day, t: Instant)
    ensures BerlinDay(AtWall(day * DAY)) == day
    ensures AtWall(day * DAY) <= t <==> day <= BerlinDay(t)
  {
    hide IsSummer, IsSummerWall, MonthStart;
    var start := AtWall(day * DAY);
    assert (day * DAY) % DAY == 0;
    WallUnambiguous(day * DAY, t);
    if start <= t {
      BerlinDayMonotone(start, t);
    } else if day <= BerlinDay(t) {
      BerlinDayMonotone(t, start);
      MidnightIsFirst(day, t);
    }
  }

  lemma MidnightIsFirst(day: Day, t: Instant)
    requires t < AtWall(day * DAY)
    ensures BerlinDay(t) < day
  {
    hide LastSunday, YearOf, MonthStart;
    var start := AtWall(day * DAY);
    assert (day * DAY) % DAY == 0 && (day * DAY) / DAY == day;
    WallUnambiguous(day * DAY, t);
    if t < start - HOUR {
    } else {
      SummerWindow(start, YearOf(day));
      SameOffsetNearMidnight(start, t, day);
    }
  }

  lemma SameOffsetNearMidnight(start: Instant, t: Instant, day: Day)
    requires Local(start) == day * DAY
    requires start - HOUR <= t < start
    ensures Offset(t) == Offset(start)
  {
    hide LastSunday, YearOf, SpringDay, AutumnDay;
    assert start / DAY == day - 1 && t / DAY == day - 1;
    var year := YearOf(day - 1);
    AfterOneOClock(t, SpringDay(year));
    AfterOneOClock(t, AutumnDay(year));
    AfterOneOClock(start, SpringDay(year));
    AfterOneOClock(start, AutumnDay(year));
  }

  lemma AfterOneOClock(t: Instant, switch: Day)
    requires t % DAY >= HOUR
    ensures switch * DAY + HOUR <= t <==> switch <= t / DAY
  {
  }

  // ----- the escalation window -----

  /** The window ends at 23:59:59 of exactly the `days`-th civil day after opening, at a wall
      reading that exists and is unambiguous. */
  lemma DeadlineLands(openedAt: Instant, days: int, t: Instant)
    ensures var end := EscalationDeadline(openedAt, days);
      && Local(end) == (BerlinDay(openedAt) + days) * DAY + END_OF_DAY
      && BerlinDay(end) == BerlinDay(openedAt) + days
      && (Local(t) == Local(end) ==> t == end)
  {
    hide IsSummer, IsSummerWall;
    var w := (BerlinDay(openedAt) + days) * DAY + END_OF_DAY;
    assert w % DAY == END_OF_DAY && w / DAY == BerlinDay(openedAt) + days;
    WallUnambiguous(w, t);
  }

  /** The real length of the window: whole days, plus the rest of the opening day, plus the change
      of offset; never as much as an hour and a second short of `days` days. */
  lemma DeadlineElapsed(openedAt: Instant, days: int)
    ensures var end := EscalationDeadline(openedAt, days);
      && end - openedAt == days * DAY + (END_OF_DAY - Local(openedAt) % DAY) + (Offset(openedAt) - Offset(end))
      && days * DAY - 3601 * SECOND < end - openedAt < (days + 1) * DAY + HOUR
  {
    hide IsSummer, IsSummerWall;
    DeadlineLands(openedAt, days, openedAt);
  }

  lemma DeadlineMonotone(a: Instant, b: Instant, days: int)
    requires a <= b
    ensures EscalationDeadline(a, days) <= EscalationDeadline(b, days)
  {
    hide IsSummer, IsSummerWall;
    BerlinDayMonotone(a, b);
  }

  /** Up to the deadline the civil day is at most the deadline's, after it at least that day. */
  lemma DeadlineDay(openedAt: Instant, days: int, t: Instant)
    ensures t <= EscalationDeadline(openedAt, days) ==> BerlinDay(t) <= BerlinDay(openedAt) + days
    ensures t > EscalationDeadline(openedAt, days) ==> BerlinDay(t) >= BerlinDay(openedAt) + days
  {
    hide IsSummer, IsSummerWall;
    var end := EscalationDeadline(openedAt, days);
    DeadlineLands(openedAt, days, t);
    if t <= end {
      BerlinDayMonotone(t, end);
    } else {
      BerlinDayMonotone(end, t);
    }
  }

  // ----- adding a timedelta to a Berlin datetime -----

  /** The two windows of a year in which the sum comes an hour early: inside the second pass of the
      repeated autumn hour, as long as the reading stays before 03:00; and before the spring switch,
      when the reading goes past 03:00. */
  predicate Shortened(t: Instant, delta: int) {
    var spring, autumn := SpringDay(YearOf(t / DAY)) * DAY, AutumnDay(YearOf(t / DAY)) * DAY;
    || (autumn + HOUR <= t && t + HOUR + delta < autumn + 3 * HOUR)
    || (t < spring + HOUR && spring + 3 * HOUR <= t + HOUR + delta)
  }

  /** The window in which it comes an hour late: summer time left behind at the autumn switch. */
  predicate Lengthened(t: Instant, delta: int) {
    var spring, autumn := SpringDay(YearOf(t / DAY)) * DAY, AutumnDay(YearOf(t / DAY)) * DAY;
    spring + HOUR <= t < autumn + HOUR && autumn + 3 * HOUR <= t + 2 * HOUR + delta
  }

  /** Adding up to thirty days on the wall clock: an hour short, an hour long, or exact, as the calendar says. */
  lemma WallAddExact(t: Instant, delta: int)
    requires 0 <= delta <= 30 * DAY
    ensures WallAdd(t, delta) ==
            t + delta + if Shortened(t, delta) then -HOUR else if Lengthened(t, delta) then HOUR else 0
  {
    hide LastSunday, YearOf, MonthStart, SpringDay, AutumnDay;
    var year, w := YearOf(t / DAY), Local(t) + delta;
    YearBounds(t / DAY, year);
    SwitchDays(year);
    var there := YearOf(w / DAY);
    if there != year {
      YearBounds(w / DAY, there);
      YearBounds(w / DAY, year);
      SwitchDays(there);
      YearAhead(t / DAY, w / DAY, year, there);
    }
  }

  /** At most 31 days later it is the same year or the turn of the year lies in between. */
  lemma YearAhead(a: Day, b: Day, year: int, there: int)
    requires YearOf(a) == year && YearOf(b) == there && a <= b <= a + 32
    ensures there == year || (there == year + 1 && a < MonthStart(12 * there) <= b)
  {
    hide YearOf, MonthStart, SpringDay, AutumnDay;
    YearBounds(a, year);
    YearBounds(b, there);
    YearBounds(b, year);
    if there != year {
      SwitchDays(year + 1);
      YearBounds(b, year + 1);
    }
  }

  /** However long the delay, the sum is off by at most an hour. */
  lemma WallAddNear(t: Instant, delta: int)
    ensures t + delta - HOUR <= WallAdd(t, delta) <= t + delta + HOUR
  {
    hide IsSummer, IsSummerWall;
  }

  lemma Year2026()
    ensures DaysBeforeYear(2026) == 739616
    ensures !IsLeap(2026)
  {
  }

  lemma Months2026()
    ensures MonthStart(24314) == 739676 && MonthStart(24321) == 739890
    ensures MonthStart(24312) == 739617 && MonthStart(24324) == 739982
  {
    hide IsLeap, DaysBeforeYear, MonthStart;
    Year2026();
    JanuaryFirst(2026);
    WithinYear(2026, 2);
    WithinYear(2026, 9);
    WithinYear(2026, 12);
  }

  lemma Switches2026()
    ensures SpringDay(2026) == 739704 && AutumnDay(2026) == 739914
    ensures YearOf(739704) == 2026 && YearOf(739914) == 2026
  {
    hide MonthStart, YearOf, IsLeap;
    Months2026();
    YearBounds(739704, 2026);
    YearBounds(739914, 2026);
    assert MonthIndex(Date(2026, 3, 31)) == 24314 && MonthIndex(Date(2026, 10, 31)) == 24321;
    assert SundayUpTo(739706) == 739704 && SundayUpTo(739920) == 739914;
  }

  /** In the second pass of the repeated hour of 25 October 2026, one minute later is 59 minutes ago. */
  lemma WallAddBackwards()
    ensures var t := 739914 * DAY + HOUR + 1800 * SECOND;
      WallAdd(t, 60 * SECOND) == t - 3540 * SECOND
  {
    hide LastSunday, YearOf, SpringDay, AutumnDay;
    Switches2026();
  }

  /** At 01:50 on 29 March 2026, before the spring switch, two hours later is one hour later. */
  lemma WallAddHalved()
    ensures var t := 739704 * DAY + 3000 * SECOND;
      WallAdd(t, 7200 * SECOND) == t + 3600 * SECOND
  {
    hide LastSunday, YearOf, SpringDay, AutumnDay;
    Switches2026();
  }
}
