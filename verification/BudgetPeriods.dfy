/** Budget periods in UTC: the start of the day, of the ISO week, or of the calendar month. */
module BudgetPeriods {

  /** Milliseconds since 1970-01-01T00:00Z. */
  type Time = nat

  const DAY: nat := 86_400_000

  datatype Period = Daily | Weekly | Monthly

  predicate IsLeap(year: nat) {
    year % 4 == 0 && (year % 100 != 0 || year % 400 == 0)
  }

  /** Days in month `m`, counted from January 1970. */
  function MonthLength(m: nat): nat {
    var month := m % 12;
    if month == 1 then (if IsLeap(1970 + m / 12) then 29 else 28)
    else if month in {3, 5, 8, 10} then 30
    else 31
  }

  /** Days from 1970-01-01 to the first of month `m`. */
  function FirstOfMonth(m: nat): nat {
    if m == 0 then 0 else FirstOfMonth(m - 1) + MonthLength(m - 1)
  }

  /** The month a day lies in, searched from month `m` on. */
  function MonthOf(day: nat, m: nat): (month: nat)
    requires FirstOfMonth(m) <= day
    ensures FirstOfMonth(month) <= day < FirstOfMonth(month + 1)
    decreases day - FirstOfMonth(m)
  {
    if day < FirstOfMonth(m + 1) then m else MonthOf(day, m + 1)
  }

  function StartOfPeriod(period: Period, now: Time): int {
    var today := now / DAY;
    match period
    case Daily => today * DAY
    // 1970-01-01 was a Thursday.
    case Weekly => (today - (today + 3) % 7) * DAY
    case Monthly => FirstOfMonth(MonthOf(today, 0)) * DAY
  }

  /**
   Days from 1970-01-01 to the first of a month of the Gregorian calendar, in closed form:
   years are counted from March, so that leap days come last, and 719468 days lie between
   the March of year 0 and 1970.
   */
  function DaysToFirst(year: nat, month: nat): int
    requires 1 <= month <= 12 && year >= 1
  {
    var y := if month <= 2 then year - 1 else year;
    var m := if month <= 2 then month + 9 else month - 3;
    365 * y + y / 4 - y / 100 + y / 400 + (153 * m + 2) / 5 - 719_468
  }

  /** The months are those of the calendar. */
  lemma {:induction false} MonthsAreCivil(m: nat)
    ensures FirstOfMonth(m) == DaysToFirst(1970 + m / 12, m % 12 + 1)
  {
    hide DaysToFirst, MonthLength;
    if m == 0 {
      EpochIsZero();
    } else {
      MonthsAreCivil(m - 1);
      NextFirst(m - 1);
    }
  }

  lemma EpochIsZero()
    ensures DaysToFirst(1970, 1) == 0
  {
  }

  /** One month on, by the closed form. */
  lemma NextFirst(m: nat)
    ensures DaysToFirst(1970 + (m + 1) / 12, (m + 1) % 12 + 1)
         == DaysToFirst(1970 + m / 12, m % 12 + 1) + MonthLength(m)
  {
    hide DaysToFirst;
    var year, month := 1970 + m / 12, m % 12 + 1;
    if month == 12 {
      NewYear(year);
      assert (m + 1) / 12 == m / 12 + 1 && (m + 1) % 12 == 0;
    } else {
      NextInYear(year, month);
      assert (m + 1) / 12 == m / 12 && (m + 1) % 12 == month;
    }
  }

  lemma NewYear(year: nat)
    requires year >= 1
    ensures DaysToFirst(year + 1, 1) == DaysToFirst(year, 12) + 31
  {
  }

  lemma NextInYear(year: nat, month: nat)
    requires 1 <= month <= 11 && year >= 1
    ensures DaysToFirst(year, month + 1) == DaysToFirst(year, month) +
      (if month == 2 then (if IsLeap(year) then 29 else 28) else if month in {4, 6, 9, 11} then 30 else 31)
  {
    if month == 2 { LeapDay(year); }
  }

  /** Counted from March, a year is longer by a day exactly when the February that ends it is. */
  lemma LeapDay(year: nat)
    requires year >= 1
    ensures year / 4 - year / 100 + year / 400 - ((year - 1) / 4 - (year - 1) / 100 + (year - 1) / 400)
         == if year % 4 == 0 && (year % 100 != 0 || year % 400 == 0) then 1 else 0
  {
    Quarters(year);
    Centuries(year);
    QuadCenturies(year);
  }

  lemma Quarters(n: nat)
    requires n >= 1
    ensures n / 4 - (n - 1) / 4 == if n % 4 == 0 then 1 else 0
  {
  }

  lemma Centuries(n: nat)
    requires n >= 1
    ensures n / 100 - (n - 1) / 100 == if n % 100 == 0 then 1 else 0
    ensures n % 100 == 0 ==> n % 4 == 0
  {
    var q, r := n / 100, n % 100;
    assert n == 100 * q + r && 0 <= r < 100;
    var q', r' := (n - 1) / 100, (n - 1) % 100;
    assert n - 1 == 100 * q' + r' && 0 <= r' < 100;
    if r == 0 { Multiple(n, 25 * q); }
  }

  lemma QuadCenturies(n: nat)
    requires n >= 1
    ensures n / 400 - (n - 1) / 400 == if n % 400 == 0 then 1 else 0
    ensures n % 400 == 0 ==> n % 100 == 0
  {
    var q, r := n / 400, n % 400;
    assert n == 400 * q + r && 0 <= r < 400;
    var q', r' := (n - 1) / 400, (n - 1) % 400;
    assert n - 1 == 400 * q' + r' && 0 <= r' < 400;
    if r == 0 { Hundreds(n, 4 * q); }
  }

  lemma Multiple(n: nat, k: nat)
    requires n == 4 * k
    ensures n % 4 == 0
  {
  }

  lemma Hundreds(n: nat, k: nat)
    requires n == 100 * k
    ensures n % 100 == 0
  {
  }

  /** What a day or month starts with: the midnight before, or the first of the calendar month. */
  lemma StartsMean(now: Time)
    ensures StartOfPeriod(Daily, now) <= now < StartOfPeriod(Daily, now) + 86_400_000
    ensures StartOfPeriod(Daily, now) % 86_400_000 == 0
    ensures exists m: nat :: StartOfPeriod(Monthly, now) == MonthStart(m) <= now < MonthStart(m + 1)
  {
    hide DaysToFirst;
    var m := MonthOf(now / DAY, 0);
    MonthsAreCivil(m);
    MonthsAreCivil(m + 1);
    InMonth(now, FirstOfMonth(m), FirstOfMonth(m + 1));
    assert StartOfPeriod(Monthly, now) == MonthStart(m) <= now < MonthStart(m + 1);
  }

  function MonthStart(m: nat): int {
    DaysToFirst(1970 + m / 12, m % 12 + 1) * 86_400_000
  }

  lemma InMonth(now: Time, first: nat, next: nat)
    requires first <= now / DAY < next
    ensures first * 86_400_000 <= now < next * 86_400_000
  {
  }

  lemma {:induction false} MonthsAscend(m: nat, n: nat)
    requires m < n
    ensures FirstOfMonth(m) < FirstOfMonth(n)
  {
    if n > m + 1 { MonthsAscend(m, n - 1); }
  }

  /** The months do not overlap, so a day lies in one month only. */
  lemma MonthUnique(day: nat, a: nat, b: nat)
    requires FirstOfMonth(a) <= day < FirstOfMonth(a + 1) && FirstOfMonth(b) <= day < FirstOfMonth(b + 1)
    ensures a == b
  {
    if a < b { MonthsAscend(a, b); if a + 1 < b { MonthsAscend(a + 1, b); } }
    if b < a { MonthsAscend(b, a); if b + 1 < a { MonthsAscend(b + 1, a); } }
  }

  /** A day from another day's Monday up to that day lies in the same week. */
  lemma WeekShared(today: nat, day: nat)
    requires today - (today + 3) % 7 <= day <= today
    ensures day - (day + 3) % 7 == today - (today + 3) % 7
  {
  }

  /** A period starts no later than the moment asked about, and all its moments share that start. */
  lemma PeriodsPartition(period: Period, now: Time, other: Time)
    ensures StartOfPeriod(period, now) <= now
    ensures StartOfPeriod(period, now) <= other <= now ==> StartOfPeriod(period, other) == StartOfPeriod(period, now)
  {
    var start := StartOfPeriod(period, now);
    var today, day := now / DAY, other / DAY;
    if start <= other <= now {
      assert start / DAY <= day <= today;
      match period
      case Daily =>
      case Weekly => WeekShared(today, day);
      case Monthly =>
        var m := MonthOf(today, 0);
        MonthUnique(day, m, MonthOf(day, 0));
    }
  }

  /** Weeks start on a Monday: seven days later the next one starts. */
  lemma WeeksStartOnMonday(now: Time)
    ensures
      var start := StartOfPeriod(Weekly, now);
      && start % 86_400_000 == 0 && (start / 86_400_000) % 7 == 4
      && start <= now < start + 7 * 86_400_000
  {
  }
}
