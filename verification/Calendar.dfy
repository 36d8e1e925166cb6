/**
  * The civil calendar in UTC, as Go's time package counts it: the proleptic Gregorian calendar,
  * in days since 1 January of year 1, which was a Monday.
  */
module Calendar {

  datatype Date = Date(year: int, month: int, day: int)

  predicate Leap(y: int) {
    y % 4 == 0 && (y % 100 != 0 || y % 400 == 0)
  }

  function YearLength(y: int): int {
    if Leap(y) then 366 else 365
  }

  /** Days from the start of a year to the start of its month m; m = 13 is the end of the year. */
  function MonthStart(leap: bool, m: int): int {
    (if leap && m > 2 then 1 else 0) +
    if m <= 1 then 0
    else if m == 2 then 31
    else if m == 3 then 59
    else if m == 4 then 90
    else if m == 5 then 120
    else if m == 6 then 151
    else if m == 7 then 181
    else if m == 8 then 212
    else if m == 9 then 243
    else if m == 10 then 273
    else if m == 11 then 304
    else if m == 12 then 334
    else 365
  }

  function MonthLength(leap: bool, m: int): int {
    MonthStart(leap, m + 1) - MonthStart(leap, m)
  }

  predicate Valid(d: Date) {
    1 <= d.month <= 12 && 1 <= d.day <= MonthLength(Leap(d.year), d.month)
  }

  /** Days from the start of year 1 to the start of year y. */
  function YearStart(y: int): int {
    365 * (y - 1) + (y - 1) / 4 - (y - 1) / 100 + (y - 1) / 400
  }

  /** The first day of a month. */
  function FirstOf(y: int, m: int): int {
    YearStart(y) + MonthStart(Leap(y), m)
  }

  /** The day time.Date names: months and days out of range carry over. */
  function DayNumber(y: int, m: int, d: int): int {
    FirstOf(y + (m - 1) / 12, (m - 1) % 12 + 1) + d - 1
  }

  /** Sunday is 0. */
  function Weekday(n: int): (w: nat)
    ensures w < 7
  {
    (n + 1) % 7
  }

  function Capped(n: int): int {
    if n > 3 then 3 else n
  }

  /** The year of day n: whole cycles of 400, 100, 4 and 1 years. */
  function YearOf(n: int): int {
    var r := n % 146097;
    var b := Capped(r / 36524);
    var r' := r - 36524 * b;
    400 * (n / 146097) + 100 * b + 4 * (r' / 1461) + Capped(r' % 1461 / 365) + 1
  }

  /** The last month of the year that starts no later than its day k. */
  function MonthOf(leap: bool, k: int, m: nat): (r: nat)
    ensures r <= m
  {
    if m <= 1 || MonthStart(leap, m) <= k then m else MonthOf(leap, k, m - 1)
  }

  function DateOf(n: int): Date {
    var y := YearOf(n);
    var k := n - YearStart(y);
    var m := MonthOf(Leap(y), k, 12);
    Date(y, m, k - MonthStart(Leap(y), m) + 1)
  }

  // ----- counting days and naming them are inverse -----

  lemma FoursStep(y: int)
    ensures y / 4 == (y - 1) / 4 + if y % 4 == 0 then 1 else 0
  {
  }

  lemma HundredsStep(y: int)
    ensures y / 100 == (y - 1) / 100 + if y % 100 == 0 then 1 else 0
  {
  }

  lemma FourHundredsStep(y: int)
    ensures y / 400 == (y - 1) / 400 + if y % 400 == 0 then 1 else 0
  {
  }

  lemma Multiples(k: int)
    ensures 100 * k % 100 == 0 && 4 * k % 4 == 0
  {
  }

  lemma NestedLeaps(y: int)
    ensures y % 400 == 0 ==> y % 100 == 0
    ensures y % 100 == 0 ==> y % 4 == 0
  {
    if y % 400 == 0 {
      assert y == 100 * (4 * (y / 400));
      Multiples(4 * (y / 400));
    }
    if y % 100 == 0 {
      assert y == 4 * (25 * (y / 100));
      Multiples(25 * (y / 100));
    }
  }

  lemma YearStartStep(y: int)
    ensures YearStart(y + 1) == YearStart(y) + YearLength(y)
  {
    FoursStep(y);
    HundredsStep(y);
    FourHundredsStep(y);
    NestedLeaps(y);
  }

  lemma {:induction false} YearStartGrows(y: int, z: int)
    requires y < z
    ensures YearStart(y + 1) <= YearStart(z)
    decreases z - y
  {
    if y + 1 < z {
      YearStartStep(y + 1);
      YearStartGrows(y + 1, z);
    }
  }

  lemma YearParts(a: int, b: int, c: int, e: int)
    requires 0 <= b <= 3 && 0 <= c <= 24 && 0 <= e <= 3
    ensures YearStart(400 * a + 100 * b + 4 * c + e + 1) == 146097 * a + 36524 * b + 1461 * c + 365 * e
  {
    var y := 400 * a + 100 * b + 4 * c + e;
    assert y / 4 == 100 * a + 25 * b + c;
    assert y / 100 == 4 * a + b;
    assert y / 400 == a;
  }

  /** Day n after a whole 400-year cycles, b centuries, c four-year cycles, e years and k days. */
  lemma DayParts(n: int) returns (a: int, b: int, c: int, e: int, k: int)
    ensures 0 <= b <= 3 && 0 <= c <= 24 && 0 <= e <= 3 && 0 <= k <= 365
    ensures n == 146097 * a + 36524 * b + 1461 * c + 365 * e + k
    ensures YearOf(n) == 400 * a + 100 * b + 4 * c + e + 1
    ensures k == 365 ==> e == 3 && (c == 24 ==> b == 3)
  {
    a := n / 146097;
    var r := n % 146097;
    b := Capped(r / 36524);
    var r' := r - 36524 * b;
    assert 0 <= r' <= 36524 && (r' == 36524 ==> b == 3);
    c := r' / 1461;
    var q := r' % 1461;
    e := Capped(q / 365);
    k := q - 365 * e;
  }

  /** Day n lies in the year YearOf(n). */
  lemma YearHolds(n: int)
    ensures YearStart(YearOf(n)) <= n < YearStart(YearOf(n) + 1)
  {
    var a, b, c, e, k := DayParts(n);
    YearParts(a, b, c, e);
    if e < 3 {
      YearParts(a, b, c, e + 1);
    } else if c < 24 {
      YearParts(a, b, c + 1, 0);
    } else if b < 3 {
      YearParts(a, b + 1, 0, 0);
    } else {
      YearParts(a + 1, 0, 0, 0);
    }
  }

  lemma YearOfUnique(n: int, y: int)
    requires YearStart(y) <= n < YearStart(y + 1)
    ensures YearOf(n) == y
  {
    YearHolds(n);
    if y < YearOf(n) {
      YearStartGrows(y, YearOf(n));
    } else if YearOf(n) < y {
      YearStartGrows(YearOf(n), y);
    }
  }

  lemma MonthsGrow(leap: bool, m: int)
    requires 1 <= m <= 12
    ensures 28 <= MonthLength(leap, m) <= 31 && 0 <= MonthStart(leap, m)
    ensures MonthStart(leap, m + 1) <= MonthStart(leap, 13) == if leap then 366 else 365
  {
  }

  /** The month that holds day k of the year. */
  lemma {:induction false} MonthHolds(leap: bool, k: int, m: nat)
    requires 1 <= m <= 12 && 0 <= k < MonthStart(leap, m + 1)
    ensures 1 <= MonthOf(leap, k, m)
    ensures MonthStart(leap, MonthOf(leap, k, m)) <= k < MonthStart(leap, MonthOf(leap, k, m) + 1)
  {
    if m > 1 && MonthStart(leap, m) > k {
      MonthHolds(leap, k, m - 1);
    }
  }

  lemma MonthsApart(leap: bool, k: int, m: int, m': int)
    requires 1 <= m <= 12 && 1 <= m' <= 12
    requires MonthStart(leap, m) <= k < MonthStart(leap, m + 1)
    requires MonthStart(leap, m') <= k < MonthStart(leap, m' + 1)
    ensures m == m'
  {
  }

  lemma DayNumberPlain(y: int, m: int, d: int)
    requires 1 <= m <= 12
    ensures DayNumber(y, m, d) == FirstOf(y, m) + d - 1
  {
    assert (m - 1) / 12 == 0 && (m - 1) % 12 + 1 == m;
  }

  /** Day k of year y, in the month that holds it. */
  lemma DateCounts(y: int, k: int, m: int)
    requires 0 <= k < YearLength(y) && m == MonthOf(Leap(y), k, 12)
    ensures var d := k - MonthStart(Leap(y), m) + 1;
            Valid(Date(y, m, d)) && DayNumber(y, m, d) == YearStart(y) + k
  {
    MonthsGrow(Leap(y), 12);
    MonthHolds(Leap(y), k, 12);
    DayNumberPlain(y, m, k - MonthStart(Leap(y), m) + 1);
  }

  /** The date of a day, counted again, is that day; and it is a date of the calendar. */
  lemma DayOfDate(n: int)
    ensures Valid(DateOf(n)) && DayNumber(DateOf(n).year, DateOf(n).month, DateOf(n).day) == n
  {
    var y := YearOf(n);
    YearHolds(n);
    YearStartStep(y);
    DateCounts(y, n - YearStart(y), MonthOf(Leap(y), n - YearStart(y), 12));
  }

  lemma MonthOfIs(leap: bool, k: int, m: nat)
    requires 1 <= m <= 12 && MonthStart(leap, m) <= k < MonthStart(leap, m + 1)
    ensures MonthOf(leap, k, 12) == m && 0 <= k < if leap then 366 else 365
  {
    MonthsGrow(leap, m);
    MonthHolds(leap, k, 12);
    MonthsApart(leap, k, m, MonthOf(leap, k, 12));
  }

  /** The days from the first of a month to the first of the next are the days of that month. */
  lemma DaysOfMonth(n: int, y: int, m: int)
    requires 1 <= m <= 12 && FirstOf(y, m) <= n < FirstOf(y, m + 1)
    ensures DateOf(n) == Date(y, m, n - FirstOf(y, m) + 1)
  {
    MonthOfIs(Leap(y), n - YearStart(y), m);
    InYear(n, y);
  }

  lemma InYear(n: int, y: int)
    requires 0 <= n - YearStart(y) < YearLength(y)
    ensures YearOf(n) == y
  {
    YearStartStep(y);
    YearOfUnique(n, y);
  }

  /** Every date of the calendar is the date of the day it counts. */
  lemma DateOfDay(d: Date, n: int)
    requires Valid(d) && n == DayNumber(d.year, d.month, d.day)
    ensures DateOf(n) == d
  {
    DayNumberPlain(d.year, d.month, d.day);
    DaysOfMonth(n, d.year, d.month);
  }

  /** The first of the month after this one. */
  lemma MonthFollows(y: int, m: int)
    requires 1 <= m <= 12
    ensures DayNumber(y, m + 1, 1) == FirstOf(y, m + 1) == FirstOf(y, m) + MonthLength(Leap(y), m)
  {
    if m == 12 {
      assert (m + 1 - 1) / 12 == 1 && (m + 1 - 1) % 12 == 0;
      YearStartStep(y);
      MonthsGrow(Leap(y), 12);
    } else {
      DayNumberPlain(y, m + 1, 1);
    }
  }

  /** The first of the month after day n, which advanceMonth goes to. */
  function NextMonth(n: int): int {
    DayNumber(DateOf(n).year, DateOf(n).month + 1, 1)
  }

  lemma MonthOfDay(n: int)
    ensures var d := DateOf(n); 1 <= d.month <= 12 && FirstOf(d.year, d.month) <= n < FirstOf(d.year, d.month + 1)
  {
    DayOfDate(n);
    DayNumberPlain(DateOf(n).year, DateOf(n).month, DateOf(n).day);
  }

  lemma MonthAround(n: int) returns (y: int, m: int)
    ensures 1 <= m <= 12 && y == DateOf(n).year && m == DateOf(n).month
    ensures FirstOf(y, m) <= n < FirstOf(y, m + 1) == NextMonth(n)
  {
    y, m := DateOf(n).year, DateOf(n).month;
    MonthOfDay(n);
    MonthFollows(y, m);
  }

  lemma DaysShareMonth(n: int, x: int, y: int, m: int)
    requires 1 <= m <= 12 && FirstOf(y, m) <= n < FirstOf(y, m + 1) && FirstOf(y, m) <= x < FirstOf(y, m + 1)
    ensures DateOf(x).month == DateOf(n).month
  {
    DaysOfMonth(n, y, m);
    DaysOfMonth(x, y, m);
  }

  /** All days before it are still in the month of day n. */
  lemma MonthUntilNext(n: int, x: int)
    requires n <= x < NextMonth(n)
    ensures DateOf(x).month == DateOf(n).month
  {
    var y, m := MonthAround(n);
    DaysShareMonth(n, x, y, m);
  }

  // ----- the calendar told the other way: day by day -----

  /** Thirty days has September, and so on. */
  function DaysIn(y: int, m: int): int {
    if m in {4, 6, 9, 11} then 30
    else if m != 2 then 31
    else if y % 400 == 0 then 29
    else if y % 100 == 0 then 28
    else if y % 4 == 0 then 29
    else 28
  }

  predicate Civil(d: Date) {
    1 <= d.month <= 12 && 1 <= d.day <= DaysIn(d.year, d.month)
  }

  function Tomorrow(d: Date): Date {
    if d.day < DaysIn(d.year, d.month) then d.(day := d.day + 1)
    else if d.month < 12 then Date(d.year, d.month + 1, 1)
    else Date(d.year + 1, 1, 1)
  }

  lemma FebruaryIs(y: int)
    ensures DaysIn(y, 2) == if Leap(y) then 29 else 28
  {
    NestedLeaps(y);
  }

  lemma LengthIs(y: int, m: int)
    requires 1 <= m <= 12
    ensures MonthLength(Leap(y), m) == DaysIn(y, m)
  {
    if m == 2 {
      FebruaryIs(y);
    }
  }

  lemma CivilIsValid(d: Date)
    ensures Civil(d) <==> Valid(d)
  {
    if 1 <= d.month <= 12 {
      LengthIs(d.year, d.month);
    }
  }

  lemma WithinMonth(y: int, m: int, d: int)
    requires 1 <= m <= 12
    ensures DayNumber(y, m, d + 1) == DayNumber(y, m, d) + 1
  {
    DayNumberPlain(y, m, d);
    DayNumberPlain(y, m, d + 1);
  }

  lemma MonthEnds(y: int, m: int)
    requires 1 <= m < 12
    ensures DayNumber(y, m + 1, 1) == DayNumber(y, m, MonthLength(Leap(y), m)) + 1
  {
    DayNumberPlain(y, m, MonthLength(Leap(y), m));
    MonthFollows(y, m);
  }

  lemma YearEnds(y: int)
    ensures DayNumber(y + 1, 1, 1) == DayNumber(y, 12, 31) + 1
  {
    DayNumberPlain(y, 12, 31);
    DayNumberPlain(y + 1, 1, 1);
    YearStartStep(y);
  }

  lemma TomorrowInMonth(d: Date, t: Date)
    requires Civil(d) && d.day < DaysIn(d.year, d.month) && t == Date(d.year, d.month, d.day + 1)
    ensures Civil(t) && DayNumber(t.year, t.month, t.day) == DayNumber(d.year, d.month, d.day) + 1
  {
    WithinMonth(d.year, d.month, d.day);
  }

  lemma TomorrowInYear(d: Date, t: Date)
    requires Civil(d) && d.day == DaysIn(d.year, d.month) && d.month < 12 && t == Date(d.year, d.month + 1, 1)
    ensures Civil(t) && DayNumber(t.year, t.month, t.day) == DayNumber(d.year, d.month, d.day) + 1
  {
    LengthIs(d.year, d.month);
    MonthEnds(d.year, d.month);
  }

  lemma TomorrowNextYear(d: Date, t: Date)
    requires Civil(d) && d.month == 12 && d.day == 31 && t == Date(d.year + 1, 1, 1)
    ensures Civil(t) && DayNumber(t.year, t.month, t.day) == DayNumber(d.year, d.month, d.day) + 1
  {
    YearEnds(d.year);
  }

  /** Counting goes up by one from each date to the next. */
  lemma CountsTomorrow(d: Date, t: Date)
    requires Civil(d) && t == Tomorrow(d)
    ensures Civil(t) && DayNumber(t.year, t.month, t.day) == DayNumber(d.year, d.month, d.day) + 1
  {
    if d.day < DaysIn(d.year, d.month) {
      TomorrowInMonth(d, t);
    } else if d.month < 12 {
      TomorrowInYear(d, t);
    } else {
      TomorrowNextYear(d, t);
    }
  }

  /** The date after a day's date is the date of the next day. */
  lemma DateOfTomorrow(n: int, d: Date)
    requires DateOf(n) == d
    ensures DateOf(n + 1) == Tomorrow(d)
  {
    DayOfDate(n);
    CivilIsValid(d);
    CountsTomorrow(d, Tomorrow(d));
    CivilIsValid(Tomorrow(d));
    DateOfDay(Tomorrow(d), n + 1);
  }

  lemma DateIff(n: int, d: Date)
    ensures DateOf(n) == d <==> Valid(d) && DayNumber(d.year, d.month, d.day) == n
  {
    if DateOf(n) == d {
      DayOfDate(n);
    } else if Valid(d) && DayNumber(d.year, d.month, d.day) == n {
      DateOfDay(d, n);
    }
  }

  lemma DayOne()
    ensures Valid(Date(1, 1, 1)) && DayNumber(1, 1, 1) == 0
  {
  }

  /** Day 0, and no other, is 1 January of year 1. */
  lemma FirstDay(n: int)
    ensures DateOf(n) == Date(1, 1, 1) <==> n == 0
  {
    DayOne();
    DateIff(n, Date(1, 1, 1));
  }

  lemma WeekdaysTakeTurns(n: int)
    ensures Weekday(n + 1) == if Weekday(n) == 6 then 0 else Weekday(n) + 1
  {
  }

  /** 1 January of year 1 was a Monday. */
  lemma StartsOnMonday()
    ensures Weekday(DayNumber(1, 1, 1)) == 1
  {
    DayOne();
  }

  /** The epoch of Unix time was a Thursday. */
  lemma EpochIsThursday()
    ensures DayNumber(1970, 1, 1) == 719162 && Weekday(719162) == 4
  {
  }
}
