/** The proleptic Gregorian calendar and the clamping month arithmetic of app/dates.py.

    A civil day is either a `Date` (year, month, day of month) or a `Day`, its ordinal
    as `date.toordinal` counts it: day 1 is 1 January of year 1, a Monday. */
module Calendar {
  type Day = int

  datatype Date = Date(year: int, month: int, day: int) {
    predicate Valid() {
      1 <= month <= 12 && 1 <= day <= DaysInMonth(year, month)
    }
  }

  predicate IsLeap(year: int) {
    year % 4 == 0 && (year % 100 != 0 || year % 400 == 0)
  }

  /** `calendar.monthrange(year, month)[1]`. */
  function DaysInMonth(year: int, month: int): (n: int)
    requires 1 <= month <= 12
    ensures 28 <= n <= 31
  {
    if month == 2 then if IsLeap(year) then 29 else 28
    else if month in {4, 6, 9, 11} then 30
    else 31
  }

  // ----- months counted on one line: index 12 * year + (month - 1) -----

  function MonthIndex(d: Date): int {
    12 * d.year + d.month - 1
  }

  function MonthLength(index: int): (n: int)
    ensures 28 <= n <= 31
  {
    DaysInMonth(index / 12, index % 12 + 1)
  }

  /** The ordinal of the first day of a month: months tile the day line, January of year 1 starts it. */
  function MonthStart(index: int): Day
    decreases if index < 12 then 12 - index else index - 12
  {
    if index == 12 then 1
    else if index > 12 then MonthStart(index - 1) + MonthLength(index - 1)
    else MonthStart(index + 1) - MonthLength(index)
  }

  lemma MonthsTile(index: int)
    ensures MonthStart(index + 1) == MonthStart(index) + MonthLength(index)
  {
  }

  lemma {:induction false} MonthSpan(index: int, k: nat)
    ensures 28 * k <= MonthStart(index + k) - MonthStart(index) <= 31 * k
    decreases k
  {
    hide MonthStart, MonthLength;
    if k > 0 {
      MonthSpan(index, k - 1);
      MonthsTile(index + k - 1);
    }
  }

  function DaysBeforeMonth(leap: bool, month0: int): int
    requires 0 <= month0 <= 12
  {
    [0, 31, 59, 90, 120, 151, 181, 212, 243, 273, 304, 334, 365][month0] + if leap && month0 >= 2 then 1 else 0
  }

  /** The cumulative table of month lengths inside one civil year. */
  lemma {:induction false} WithinYear(year: int, month0: nat)
    requires month0 <= 12
    ensures MonthStart(12 * year + month0) == MonthStart(12 * year) + DaysBeforeMonth(IsLeap(year), month0)
  {
    hide MonthStart, IsLeap;
    if month0 > 0 {
      WithinYear(year, month0 - 1);
      MonthsTile(12 * year + month0 - 1);
    }
  }

  /** The library's formula for the days before 1 January of a year. */
  function DaysBeforeYear(year: int): int {
    var y := year - 1;
    365 * y + y / 4 - y / 100 + y / 400
  }

  lemma LeapDays(year: int)
    ensures DaysBeforeYear(year + 1) == DaysBeforeYear(year) + if IsLeap(year) then 366 else 365
  {
    var y := year - 1;
    assert year / 4 == y / 4 + if year % 4 == 0 then 1 else 0;
    assert year / 100 == y / 100 + if year % 100 == 0 then 1 else 0;
    assert year / 400 == y / 400 + if year % 400 == 0 then 1 else 0;
  }

  /** Tiling the line month by month agrees with the closed formula of `date.toordinal`. */
  lemma {:induction false} JanuaryFirst(year: int)
    ensures MonthStart(12 * year) == DaysBeforeYear(year) + 1
    decreases if year < 1 then 1 - year else year - 1
  {
    hide IsLeap, MonthLength;
    if year > 1 {
      hide MonthStart, DaysBeforeYear;
      JanuaryFirst(year - 1);
      WithinYear(year - 1, 12);
      LeapDays(year - 1);
    } else if year < 1 {
      hide MonthStart, DaysBeforeYear;
      JanuaryFirst(year + 1);
      WithinYear(year, 12);
      LeapDays(year);
    }
  }

  // ----- Date <-> Day -----

  function DayOf(d: Date): Day {
    MonthStart(MonthIndex(d)) + d.day - 1
  }

  predicate InMonth(day: Day, index: int) {
    MonthStart(index) <= day < MonthStart(index) + MonthLength(index)
  }

  function MonthFrom(day: Day, index: int): int
    requires MonthStart(index) <= day
    decreases day - MonthStart(index)
  {
    MonthsTile(index);
    if day < MonthStart(index + 1) then index else MonthFrom(day, index + 1)
  }

  /** The month a day lies in; the walk starts at a month known to begin no later. */
  function MonthOf(day: Day): int {
    if 1 <= day then MonthFrom(day, 12)
    else
      MonthSpan(12 - (1 - day), 1 - day);
      MonthFrom(day, 12 - (1 - day))
  }

  function DayOfMonth(day: Day): int {
    day - MonthStart(MonthOf(day)) + 1
  }

  function DateOf(day: Day): Date {
    var m := MonthOf(day);
    Date(m / 12, m % 12 + 1, day - MonthStart(m) + 1)
  }

  lemma {:induction false} MonthFromFinds(day: Day, index: int)
    requires MonthStart(index) <= day
    ensures InMonth(day, MonthFrom(day, index))
    decreases day - MonthStart(index)
  {
    hide MonthStart, MonthLength;
    MonthsTile(index);
    if MonthStart(index + 1) <= day {
      MonthFromFinds(day, index + 1);
    }
  }

  /** Every day lies in exactly one month, the one `MonthOf` finds. */
  lemma MonthOfIs(day: Day, index: int)
    ensures InMonth(day, MonthOf(day))
    ensures InMonth(day, index) ==> index == MonthOf(day)
  {
    hide MonthLength, MonthFrom;
    if 1 <= day {
      MonthFromFinds(day, 12);
    } else {
      MonthSpan(12 - (1 - day), 1 - day);
      MonthFromFinds(day, 12 - (1 - day));
    }
    if InMonth(day, index) {
      MonthUnique(day, index, MonthOf(day));
    }
  }

  lemma MonthUnique(day: Day, i: int, j: int)
    requires InMonth(day, i) && InMonth(day, j)
    ensures i == j
  {
    hide MonthStart, MonthLength;
    if i < j {
      MonthsTile(i);
      MonthSpan(i + 1, j - i - 1);
    } else if j < i {
      MonthsTile(j);
      MonthSpan(j + 1, i - j - 1);
    }
  }

  lemma DateOfValid(day: Day)
    ensures DateOf(day).Valid()
    ensures MonthIndex(DateOf(day)) == MonthOf(day)
  {
    hide MonthStart, DaysInMonth, MonthOf;
    MonthOfIs(day, 0);
  }

  /** `date.fromordinal` and `date.toordinal` undo each other, on every valid date and every day. */
  lemma DateRoundTrip(day: Day, d: Date)
    requires d.Valid()
    ensures DayOf(DateOf(day)) == day
    ensures DateOf(DayOf(d)) == d
  {
    hide MonthStart, DaysInMonth, MonthOf;
    DateOfValid(day);
    MonthOfIs(DayOf(d), MonthIndex(d));
    IndexParts(d);
  }

  lemma IndexParts(d: Date)
    requires 1 <= d.month <= 12
    ensures MonthIndex(d) / 12 == d.year && MonthIndex(d) % 12 == d.month - 1
  {
  }

  lemma MonthOrder(a: Day, b: Day)
    requires a <= b
    ensures MonthOf(a) <= MonthOf(b)
  {
    hide MonthStart, MonthLength, MonthOf;
    var i, j := MonthOf(a), MonthOf(b);
    MonthOfIs(a, i);
    MonthOfIs(b, j);
    if j < i {
      MonthsTile(j);
      MonthSpan(j + 1, i - j - 1);
    }
  }

  /** Days order as (month index, day of month) pairs do. */
  lemma DayOrder(a: Day, b: Day)
    ensures a < b <==> MonthOf(a) < MonthOf(b) || (MonthOf(a) == MonthOf(b) && DayOfMonth(a) < DayOfMonth(b))
  {
    hide MonthStart, MonthOf;
    if a <= b {
      MonthOrder(a, b);
    } else {
      MonthOrder(b, a);
    }
  }

  // ----- month arithmetic -----

  function Min(a: int, b: int): int {
    if a < b then a else b
  }

  /** `add_months`: floor divmod on the zero-based month, then clamp the day of month. */
  function AddMonths(source: Date, months: int): Date {
    var y, m0 := (source.month - 1 + months) / 12, (source.month - 1 + months) % 12;
    var year, month := source.year + y, m0 + 1;
    Date(year, month, Min(source.day, DaysInMonth(year, month)))
  }

  /** `last_day_of_month`. */
  function LastDayOfMonth(d: Date): Date
    requires 1 <= d.month <= 12
  {
    d.(day := DaysInMonth(d.year, d.month))
  }

  function PlusMonths(day: Day, months: int): Day {
    DayOf(AddMonths(DateOf(day), months))
  }

  function MonthEnd(day: Day): Day {
    DayOf(LastDayOfMonth(DateOf(day)))
  }

  /** `add_months` moves the month index by exactly `months` and clamps the day of month. */
  lemma PlusMonthsExact(day: Day, months: int)
    ensures var target := MonthOf(day) + months;
      && MonthOf(PlusMonths(day, months)) == target
      && DayOfMonth(PlusMonths(day, months)) == Min(DayOfMonth(day), MonthLength(target))
      && PlusMonths(day, months) == MonthStart(target) + Min(DayOfMonth(day), MonthLength(target)) - 1
  {
    hide MonthStart, DaysInMonth, MonthOf;
    var m := MonthOf(day);
    var target := m + months;
    MonthOfIs(day, m);
    MonthShift(m, months);
    assert MonthIndex(AddMonths(DateOf(day), months)) == target;
    MonthOfIs(PlusMonths(day, months), target);
  }

  lemma MonthShift(index: int, months: int)
    ensures (index % 12 + months) / 12 + index / 12 == (index + months) / 12
    ensures (index % 12 + months) % 12 == (index + months) % 12
  {
  }

  lemma MonthEndExact(day: Day)
    ensures MonthOf(MonthEnd(day)) == MonthOf(day)
    ensures MonthEnd(day) == MonthStart(MonthOf(day)) + MonthLength(MonthOf(day)) - 1
    ensures day <= MonthEnd(day)
  {
    hide MonthStart, DaysInMonth, MonthOf;
    var m := MonthOf(day);
    DateOfValid(day);
    MonthOfIs(day, m);
    MonthOfIs(MonthEnd(day), m);
  }
}
