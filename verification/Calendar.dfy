/**
 * The Gregorian calendar as time.Date counts it: an argument out of range is carried over by counting
 * days. daysInCurrentMonth of plugins/budgets/plugin.go asks for day 0 of the next month.
 */
module Calendar {

  datatype Date = Date(year: int, month: int, day: int)

  predicate IsLeap(year: int) {
    year % 4 == 0 && (year % 100 != 0 || year % 400 == 0)
  }

  /** The months of the Gregorian calendar. */
  function MonthLength(year: int, month: int): (n: int)
    requires 1 <= month <= 12
    ensures 28 <= n <= 31
  {
    if month == 2 then (if IsLeap(year) then 29 else 28)
    else if month in {4, 6, 9, 11} then 30
    else 31
  }

  /** January to December. */
  lemma MonthTable(year: int, month: int)
    requires 1 <= month <= 12
    ensures var february := if year % 400 == 0 || (year % 4 == 0 && year % 100 != 0) then 29 else 28;
            MonthLength(year, month) == [31, february, 31, 30, 31, 30, 31, 31, 30, 31, 30, 31][month - 1]
  {
  }

  predicate OnCalendar(date: Date) {
    1 <= date.month <= 12 && 1 <= date.day <= MonthLength(date.year, date.month)
  }

  function YearLength(year: int): int {
    if IsLeap(year) then 366 else 365
  }

  // ---------------------------------------------------------------- dates to day numbers

  /** Days from 1 January of year 1, when the calendar is carried back, to 1 January of the year. */
  function DaysBeforeYear(year: int): int {
    var y := year - 1;
    365 * y + y / 4 - y / 100 + y / 400
  }

  function DaysBeforeMonth(year: int, month: int): int
    requires 1 <= month <= 12
    decreases month, year
  {
    if month == 1 then 0 else DaysBeforeMonth(year, month - 1) + MonthLength(year, month - 1)
  }

  function DayNumber(year: int, month: int, day: int): int
    requires 1 <= month <= 12
  {
    DaysBeforeYear(year) + DaysBeforeMonth(year, month) + day - 1
  }

  // ---------------------------------------------------------------- day numbers to dates

  /** The month that holds a day of the year, looked for from a month on. */
  function MonthFrom(year: int, month: int, yday: int): Date
    requires 1 <= month <= 12
    decreases 12 - month, yday
  {
    if month == 12 || yday < DaysBeforeMonth(year, month + 1)
    then Date(year, month, yday - DaysBeforeMonth(year, month) + 1)
    else MonthFrom(year, month + 1, yday)
  }

  /** The cycle a day falls in, when the last of four has one day more than the count allows for. */
  function Cut(n: int): int {
    n - n / 4
  }

  function InFour(years: int, d: int): (int, int) {
    (years + Cut(d / 365) + 1, d - 365 * Cut(d / 365))
  }

  function InHundred(years: int, d: int): (int, int) {
    InFour(years + 4 * (d / 1461), d % 1461)
  }

  function InFourHundred(years: int, d: int): (int, int) {
    InHundred(years + 100 * Cut(d / 36524), d - 36524 * Cut(d / 36524))
  }

  /** The year of a day number and the day of that year: cycles of 400 years, then of 100, of 4 and of 1. */
  function YearOf(n: int): (int, int) {
    InFourHundred(400 * (n / 146097), n % 146097)
  }

  function DateOf(n: int): Date {
    var (year, yday) := YearOf(n);
    MonthFrom(year, 1, yday)
  }

  /** time.Date: the month is brought into range, then the day. */
  function Normalised(year: int, month: int, day: int): Date {
    DateOf(DayNumber(year + (month - 1) / 12, (month - 1) % 12 + 1, day))
  }

  /** daysInCurrentMonth */
  function DaysInCurrentMonth(today: Date): int {
    Normalised(today.year, today.month + 1, 0).day
  }

  // ---------------------------------------------------------------- counting days is exact

  lemma QuotientIs(n: int, k: int, q: int, r: int)
    requires 0 <= r < k && n == k * q + r
    ensures n / k == q && n % k == r
  {
    SameQuotient(k, q, r, n / k, n % k);
  }

  lemma SameQuotient(k: int, q: int, r: int, p: int, s: int)
    requires 0 <= r < k && 0 <= s < k && k * q + r == k * p + s
    ensures p == q && r == s
  {
    if p > q {
      AtLeastOnce(k, p - q);
    }
    if p < q {
      AtLeastOnce(k, q - p);
    }
  }

  lemma AtLeastOnce(k: int, times: int)
    requires k > 0 && times >= 1
    ensures k * times >= k
  {
  }

  /** A year by its place in the cycles. */
  lemma CyclesOf(year: int) returns (a: int, b: int, c: int, e: int)
    ensures year == 400 * a + 100 * b + 4 * c + e + 1
    ensures 0 <= b <= 3 && 0 <= c <= 24 && 0 <= e <= 3
    ensures DaysBeforeYear(year) == 146097 * a + 36524 * b + 1461 * c + 365 * e
    ensures IsLeap(year) <==> e == 3 && (c < 24 || b == 3)
  {
    var y := year - 1;
    a := y / 400;
    var r := y - 400 * a;
    b := r / 100;
    var t := r - 100 * b;
    c, e := t / 4, t - 4 * (t / 4);
    QuotientIs(y, 100, 4 * a + b, t);
    QuotientIs(y, 4, 100 * a + 25 * b + c, e);
    LeapByCycles(year, a, b, c, e);
  }

  lemma LeapByCycles(year: int, a: int, b: int, c: int, e: int)
    requires year == 400 * a + 100 * b + 4 * c + e + 1
    requires 0 <= b <= 3 && 0 <= c <= 24 && 0 <= e <= 3
    ensures IsLeap(year) <==> e == 3 && (c < 24 || b == 3)
  {
    var fours := 100 * a + 25 * b + c;
    if e < 3 {
      QuotientIs(year, 4, fours, e + 1);
    } else {
      QuotientIs(year, 4, fours + 1, 0);
      if c < 24 {
        QuotientIs(year, 100, 4 * a + b, 4 * (c + 1));
      } else {
        QuotientIs(year, 100, 4 * a + b + 1, 0);
        if b < 3 {
          QuotientIs(year, 400, a, 100 * (b + 1));
        } else {
          QuotientIs(year, 400, a + 1, 0);
        }
      }
    }
  }

  /** What is left of q after q cycles of k days, the last of four one day longer. */
  lemma CutIs(k: int, q: int, r: int)
    requires k > 1 && 0 <= q <= 3 && 0 <= r <= k && (r == k ==> q == 3)
    ensures Cut((k * q + r) / k) == q
  {
    if r == k {
      QuotientIs(k * q + r, k, 4, 0);
    } else {
      QuotientIs(k * q + r, k, q, r);
    }
  }

  lemma FoundInFour(years: int, e: int, yday: int)
    requires 0 <= e <= 3 && 0 <= yday <= 365 && (yday == 365 ==> e == 3)
    ensures InFour(years, 365 * e + yday) == (years + e + 1, yday)
  {
    CutIs(365, e, yday);
  }

  lemma FoundInHundred(years: int, c: int, d: int)
    requires 0 <= c && 0 <= d < 1461
    ensures InHundred(years, 1461 * c + d) == InFour(years + 4 * c, d)
  {
    QuotientIs(1461 * c + d, 1461, c, d);
  }

  lemma FoundInFourHundred(years: int, b: int, d: int)
    requires 0 <= b <= 3 && 0 <= d <= 36524 && (d == 36524 ==> b == 3)
    ensures InFourHundred(years, 36524 * b + d) == InHundred(years + 100 * b, d)
  {
    CutIs(36524, b, d);
  }

  lemma FoundCycle(a: int, d: int)
    requires 0 <= d < 146097
    ensures YearOf(146097 * a + d) == InFourHundred(400 * a, d)
  {
    QuotientIs(146097 * a + d, 146097, a, d);
  }

  lemma Chained(years: int, b: int, c: int, e: int, yday: int)
    requires 0 <= b <= 3 && 0 <= c <= 24 && 0 <= e <= 3
    requires 0 <= yday < if e == 3 && (c < 24 || b == 3) then 366 else 365
    ensures InFourHundred(years, 36524 * b + (1461 * c + (365 * e + yday))) == (years + 100 * b + 4 * c + e + 1, yday)
  {
    FoundInFourHundred(years, b, 1461 * c + (365 * e + yday));
    FoundInHundred(years + 100 * b, c, 365 * e + yday);
    FoundInFour(years + 100 * b + 4 * c, e, yday);
  }

  lemma YearIsFound(year: int, yday: int)
    requires 0 <= yday < YearLength(year)
    ensures YearOf(DaysBeforeYear(year) + yday) == (year, yday)
  {
    var a, b, c, e := CyclesOf(year);
    var d := 36524 * b + (1461 * c + (365 * e + yday));
    FoundCycle(a, d);
    Chained(400 * a, b, c, e, yday);
    assert DaysBeforeYear(year) + yday == 146097 * a + d;
  }

  lemma {:induction false} MonthsGoUp(year: int, month: int, later: int)
    requires 1 <= month <= later <= 12
    ensures DaysBeforeMonth(year, month) <= DaysBeforeMonth(year, later)
    decreases later
  {
    if month < later {
      MonthsGoUp(year, month, later - 1);
    }
  }

  lemma {:induction false} MonthIsFound(date: Date, from: int)
    requires OnCalendar(date) && 1 <= from <= date.month
    ensures MonthFrom(date.year, from, DaysBeforeMonth(date.year, date.month) + date.day - 1) == date
    decreases date.month - from
  {
    var yday := DaysBeforeMonth(date.year, date.month) + date.day - 1;
    if from < date.month {
      MonthsGoUp(date.year, from + 1, date.month);
      MonthIsFound(date, from + 1);
    }
  }

  lemma YearIsItsMonths(date: Date)
    requires OnCalendar(date)
    ensures 0 <= DaysBeforeMonth(date.year, date.month) + date.day - 1 < YearLength(date.year)
  {
    MonthsGoUp(date.year, 1, date.month);
    MonthsGoUp(date.year, date.month, 12);
    if date.month < 12 {
      MonthsGoUp(date.year, date.month + 1, 12);
    }
    assert DaysBeforeMonth(date.year, 12) + 31 == YearLength(date.year) by {
      FirstMonths(date.year);
    }
  }

  lemma FirstMonths(year: int)
    ensures DaysBeforeMonth(year, 12) == YearLength(year) - 31
  {
    assert DaysBeforeMonth(year, 2) == 31;
    assert DaysBeforeMonth(year, 3) == YearLength(year) - 306;
    assert DaysBeforeMonth(year, 5) == YearLength(year) - 245;
    assert DaysBeforeMonth(year, 7) == YearLength(year) - 184;
    assert DaysBeforeMonth(year, 9) == YearLength(year) - 122;
    assert DaysBeforeMonth(year, 11) == YearLength(year) - 61;
  }

  lemma NumberedYear(date: Date)
    requires OnCalendar(date)
    ensures YearOf(DayNumber(date.year, date.month, date.day))
         == (date.year, DaysBeforeMonth(date.year, date.month) + date.day - 1)
  {
    YearIsItsMonths(date);
    YearIsFound(date.year, DaysBeforeMonth(date.year, date.month) + date.day - 1);
  }

  /** Every date has a day number of its own, and counting finds the date again. */
  lemma CountingIsExact(date: Date)
    requires OnCalendar(date)
    ensures DateOf(DayNumber(date.year, date.month, date.day)) == date
  {
    NumberedYear(date);
    MonthIsFound(date, 1);
  }

  /** Day 0 of a month has the number of the last day of the month before, in January too. */
  lemma DayZeroIsTheDayBefore(year: int, month: int)
    requires 1 <= month <= 12
    ensures DayNumber(year + month / 12, month % 12 + 1, 0) == DayNumber(year, month, MonthLength(year, month))
  {
    if month == 12 {
      NextYear(year);
      FirstMonths(year);
    }
  }

  /** The next month's day 0 is the last day of the month. */
  lemma DayZeroIsTheLastDay(year: int, month: int)
    requires 1 <= month <= 12
    ensures Normalised(year, month + 1, 0) == Date(year, month, MonthLength(year, month))
  {
    DayZeroIsTheDayBefore(year, month);
    CountingIsExact(Date(year, month, MonthLength(year, month)));
  }

  lemma NextYear(year: int)
    ensures DaysBeforeYear(year + 1) == DaysBeforeYear(year) + YearLength(year)
  {
    var a, b, c, e := CyclesOf(year);
    var a', b', c', e' := CyclesOf(year + 1);
    if e < 3 {
      assert a' == a && b' == b && c' == c && e' == e + 1;
    } else if c < 24 {
      assert a' == a && b' == b && c' == c + 1 && e' == 0;
    } else if b < 3 {
      assert a' == a && b' == b + 1 && c' == 0 && e' == 0;
    } else {
      assert a' == a + 1 && b' == 0 && c' == 0 && e' == 0;
    }
  }

  /** For every date of every year, the number of days counted is the length of its month. */
  lemma DaysInMonthAreGregorian(today: Date)
    requires OnCalendar(today)
    ensures DaysInCurrentMonth(today) == MonthLength(today.year, today.month)
    ensures 1 <= today.day <= DaysInCurrentMonth(today)
    ensures var leap := today.year % 400 == 0 || (today.year % 4 == 0 && today.year % 100 != 0);
            DaysInCurrentMonth(today)
            == [31, if leap then 29 else 28, 31, 30, 31, 30, 31, 31, 30, 31, 30, 31][today.month - 1]
  {
    DayZeroIsTheLastDay(today.year, today.month);
    MonthTable(today.year, today.month);
  }
}
