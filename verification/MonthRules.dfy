/** The obligation constructors of app/dates.py and what iterating them does to a due date. */
module MonthRules {
  import opened Calendar

  const FSK_INTERVAL := 6
  const UVV_INTERVAL := 12
  const FIRST_HU_INTERVAL := 36
  const NACHPRUEFUNG_DAYS := 28

  function NextFskDue(lastCheck: Day): Day { PlusMonths(lastCheck, FSK_INTERVAL) }
  function NextUvvDue(lastInspection: Day): Day { PlusMonths(lastInspection, UVV_INTERVAL) }
  function NextHuDue(inspectedOn: Day, interval: int): Day { MonthEnd(PlusMonths(inspectedOn, interval)) }
  function FirstFskDue(hiredOn: Day): Day { PlusMonths(hiredOn, FSK_INTERVAL) }
  function FirstUvvDue(inServiceOn: Day): Day { PlusMonths(inServiceOn, UVV_INTERVAL) }
  function FirstHuDue(registered: Day): Day { MonthEnd(PlusMonths(registered, FIRST_HU_INTERVAL)) }

  // ----- the rules on the calendar -----

  /** `k` calendar months after `a`: on the same day of the month, or on the last one of a shorter month. */
  predicate MonthsLater(a: Day, b: Day, k: int) {
    && MonthOf(b) == MonthOf(a) + k
    && DayOfMonth(b) == if DayOfMonth(a) <= MonthLength(MonthOf(b)) then DayOfMonth(a) else MonthLength(MonthOf(b))
  }

  /** The last day of the month `k` months after that of `a`. */
  predicate MonthEndLater(a: Day, b: Day, k: int) {
    MonthOf(b) == MonthOf(a) + k && DayOfMonth(b) == MonthLength(MonthOf(b))
  }

  /** Half a year for a Fuehrerscheinkontrolle, a year for UVV, the month's end for HU, three years on for the first. */
  lemma DueRules(day: Day, interval: int)
    ensures MonthsLater(day, NextFskDue(day), 6) && MonthsLater(day, FirstFskDue(day), 6)
    ensures MonthsLater(day, NextUvvDue(day), 12) && MonthsLater(day, FirstUvvDue(day), 12)
    ensures MonthEndLater(day, NextHuDue(day, interval), interval) && MonthEndLater(day, FirstHuDue(day), 36)
  {
    hide MonthStart, MonthLength, PlusMonths, MonthEnd, MonthOf, DayOfMonth;
    PlusMonthsExact(day, FSK_INTERVAL);
    PlusMonthsExact(day, UVV_INTERVAL);
    PlusMonthsExact(day, interval);
    PlusMonthsExact(day, FIRST_HU_INTERVAL);
    LastOfMonth(PlusMonths(day, interval));
    LastOfMonth(PlusMonths(day, FIRST_HU_INTERVAL));
  }

  lemma LastOfMonth(day: Day)
    ensures MonthOf(MonthEnd(day)) == MonthOf(day) && DayOfMonth(MonthEnd(day)) == MonthLength(MonthOf(day))
  {
    hide MonthStart, MonthLength, MonthOf, MonthEnd;
    MonthEndExact(day);
  }

  /** `add_months` is the only day so many calendar months on. */
  lemma OnlyMonthsLater(a: Day, b: Day, k: int)
    ensures MonthsLater(a, b, k) <==> b == PlusMonths(a, k)
  {
    hide MonthStart, MonthLength, PlusMonths, MonthOf;
    PlusMonthsExact(a, k);
  }

  // ----- order -----

  /** A later check is never due before an earlier one. */
  lemma PlusMonthsMonotone(a: Day, b: Day, months: int)
    requires a <= b
    ensures PlusMonths(a, months) <= PlusMonths(b, months)
  {
    hide MonthStart, MonthLength, PlusMonths;
    PlusMonthsExact(a, months);
    PlusMonthsExact(b, months);
    DayOrder(b, a);
    DayOrder(PlusMonths(b, months), PlusMonths(a, months));
  }

  /** The two retention tests compared: expiry tested forwards (`add_months(e, m) < t`) and backwards
      (`e < add_months(t, -m)`) agree, except that the forward test also fires when clamping makes
      both sides of the backward test equal while the day of month still lags. */
  lemma RetentionTests(e: Day, t: Day, months: int)
    ensures PlusMonths(e, months) < t <==>
      e < PlusMonths(t, -months) || (e == PlusMonths(t, -months) && DayOfMonth(e) < DayOfMonth(t))
  {
    hide MonthStart, MonthLength, PlusMonths;
    MonthOfIs(e, 0);
    MonthOfIs(t, 0);
    PlusMonthsExact(e, months);
    PlusMonthsExact(t, -months);
    DayOrder(PlusMonths(e, months), t);
    DayOrder(e, PlusMonths(t, -months));
    DayOrder(PlusMonths(t, -months), e);
  }

  /** How far `k` months reach, in days. */
  lemma PlusMonthsSpan(day: Day, k: nat)
    ensures 28 * k - 3 <= PlusMonths(day, k) - day <= 31 * k
    ensures 28 * k <= day - PlusMonths(day, 0 - k) <= 31 * k + 3
  {
    hide MonthStart, MonthLength, PlusMonths, MonthOf;
    MonthOfIs(day, 0);
    PlusMonthsExact(day, k);
    PlusMonthsExact(day, 0 - k);
    MonthSpan(MonthOf(day), k);
    MonthSpan(MonthOf(day) - k, k);
  }

  lemma HalfYear(index: int)
    ensures var days := MonthStart(index + 6) - MonthStart(index);
      && 181 <= days <= 184
      && (MonthLength(index) > MonthLength(index + 6) ==> days + MonthLength(index + 6) - MonthLength(index) >= 181)
  {
    hide MonthStart;
    MonthsTile(index);
    MonthsTile(index + 1);
    MonthsTile(index + 2);
    MonthsTile(index + 3);
    MonthsTile(index + 4);
    MonthsTile(index + 5);
    HalfYearLengths(index);
  }

  lemma HalfYearLengths(index: int)
    ensures var days := MonthLength(index) + MonthLength(index + 1) + MonthLength(index + 2)
                        + MonthLength(index + 3) + MonthLength(index + 4) + MonthLength(index + 5);
      && 181 <= days <= 184
      && (MonthLength(index) > MonthLength(index + 6) ==> days + MonthLength(index + 6) - MonthLength(index) >= 181)
  {
    hide IsLeap;
    var y, m := index / 12, index % 12;
    LengthAhead(y, m, 1);
    LengthAhead(y, m, 2);
    LengthAhead(y, m, 3);
    LengthAhead(y, m, 4);
    LengthAhead(y, m, 5);
    LengthAhead(y, m, 6);
    hide MonthLength;
  }

  lemma LengthAhead(y: int, m: int, k: int)
    requires 0 <= m < 12 && 0 <= k <= 6
    ensures MonthLength(12 * y + m + k) == if m + k < 12 then DaysInMonth(y, m + k + 1) else DaysInMonth(y + 1, m + k - 11)
  {
  }

  /** A Fuehrerscheinkontrolle window is 181 to 184 days, whatever day it starts on. */
  lemma FskSpan(day: Day)
    ensures 181 <= NextFskDue(day) - day <= 184
  {
    hide MonthStart, MonthLength, PlusMonths;
    MonthOfIs(day, 0);
    PlusMonthsExact(day, FSK_INTERVAL);
    HalfYear(MonthOf(day));
  }

  /** A UVV window is 365 or 366 days. */
  lemma UvvSpan(day: Day)
    ensures NextUvvDue(day) - day == 365 || NextUvvDue(day) - day == 366
  {
    hide MonthStart, MonthLength, PlusMonths;
    MonthOfIs(day, 0);
    PlusMonthsExact(day, UVV_INTERVAL);
    FullYear(MonthOf(day));
  }

  lemma FullYear(index: int)
    ensures var days := MonthStart(index + 12) - MonthStart(index);
      && 365 <= days <= 366
      && (MonthLength(index + 12) < MonthLength(index) ==> days == 366 && MonthLength(index + 12) == MonthLength(index) - 1)
  {
    hide IsLeap, MonthStart, MonthLength;
    var y, m := index / 12, index % 12;
    LeapGap(y);
    WithinYear(y, m);
    WithinYear(y, 12);
    WithinYear(y + 1, m);
    SameMonthNextYear(y, m);
  }

  lemma SameMonthNextYear(y: int, m: int)
    requires 0 <= m < 12
    ensures MonthLength(12 * y + m) == DaysInMonth(y, m + 1)
    ensures MonthLength(12 * y + m + 12) == DaysInMonth(y + 1, m + 1)
  {
  }

  lemma LeapGap(year: int)
    ensures !(IsLeap(year) && IsLeap(year + 1))
  {
  }

  // ----- iterating a cadence -----

  function Iterate(day: Day, step: int, k: nat): Day {
    if k == 0 then day else PlusMonths(Iterate(day, step, k - 1), step)
  }

  /** `k` roll-forwards move exactly `k * step` months, and the day of month is the least of the
      starting day and every month length visited: clamping is never undone. */
  lemma {:induction false} IterateClamps(day: Day, step: int, k: nat)
    ensures MonthOf(Iterate(day, step, k)) == MonthOf(day) + k * step
    ensures DayOfMonth(Iterate(day, step, k)) <= DayOfMonth(day)
    ensures forall i {:trigger MonthLength(MonthOf(day) + i * step)} :: 1 <= i <= k ==>
      DayOfMonth(Iterate(day, step, k)) <= MonthLength(MonthOf(day) + i * step)
    ensures DayOfMonth(Iterate(day, step, k)) == DayOfMonth(day) ||
      exists i {:trigger MonthLength(MonthOf(day) + i * step)} :: 1 <= i <= k &&
        DayOfMonth(Iterate(day, step, k)) == MonthLength(MonthOf(day) + i * step)
  {
    hide MonthStart, MonthLength, PlusMonths, DayOfMonth;
    if k > 0 {
      IterateClamps(day, step, k - 1);
      PlusMonthsExact(Iterate(day, step, k - 1), step);
      assert (k - 1) * step + step == k * step;
      var target := MonthLength(MonthOf(day) + k * step);
    }
  }

  function IterateHu(day: Day, interval: int, k: nat): Day {
    if k == 0 then day else NextHuDue(IterateHu(day, interval, k - 1), interval)
  }

  /** HU dates do not drift: after `k >= 1` inspections on the due date the next one is due on the
      last day of the month `k` intervals after the first inspection. */
  lemma {:induction false} HuDriftFree(day: Day, interval: int, k: nat)
    requires k >= 1
    ensures IterateHu(day, interval, k) == MonthStart(MonthOf(day) + k * interval) + MonthLength(MonthOf(day) + k * interval) - 1
    ensures MonthOf(IterateHu(day, interval, k)) == MonthOf(day) + k * interval
  {
    hide MonthStart, MonthLength, PlusMonths, MonthEnd;
    var before := IterateHu(day, interval, k - 1);
    if k > 1 {
      HuDriftFree(day, interval, k - 1);
    }
    PlusMonthsExact(before, interval);
    MonthEndExact(PlusMonths(before, interval));
    assert (k - 1) * interval + interval == k * interval;
  }

  /** The plain cadence does drift: half-yearly checks starting on 31 August 2023 never leave day 29. */
  lemma FskDrifts()
    ensures DateOf(Iterate(DayOf(Date(2023, 8, 31)), 6, 2)) == Date(2024, 8, 29)
  {
    hide DayOf, DateOf, IsLeap;
    assert IsLeap(2024) by { LeapYear2024(); }
    DateRoundTrip(0, Date(2023, 8, 31));
    DateRoundTrip(0, Date(2024, 2, 29));
    DateRoundTrip(0, Date(2024, 8, 29));
    assert Iterate(DayOf(Date(2023, 8, 31)), 6, 1) == DayOf(Date(2024, 2, 29));
  }

  lemma LeapYear2024()
    ensures IsLeap(2024)
  {
  }
}
