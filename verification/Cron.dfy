/** Cron expressions as bit masks, and the search for the next minute one accepts. */
module Cron {
  import opened StoreTypes
  import opened Calendar

  const MINUTE: Time := 60_000_000_000
  const DAY: int := 1440

  /** A uint64 mask, as the positions of its bits: OR is union, and testing a bit is membership. */
  type Mask = set<int>

  lemma OrIsUnion(a: bv64, b: bv64, bit: bv64)
    ensures (a | b) & bit != 0 <==> a & bit != 0 || b & bit != 0
  {
  }

  lemma ShiftIsPosition(k: bv6, i: bv6)
    ensures (1 as bv64 << k) & (1 as bv64 << i) != 0 <==> i == k
  {
  }

  /** The five fields of a parsed expression. */
  datatype Expression = Expression(
    minute: Mask,
    hour: Mask,
    dayOfMonth: Mask,
    month: Mask,
    dayOfWeek: Mask)

  // ----- which minutes an expression accepts; minutes are counted from the start of year 1 -----

  function DayOf(m: int): int { m / DAY }

  function HourOf(m: int): int { m / 60 % 24 }

  function MinuteOf(m: int): int { m % 60 }

  predicate MonthAllowed(e: Expression, n: int) {
    DateOf(n).month in e.month
  }

  /** Day-of-month or day-of-week; a `*` in either is a full mask and accepts every day. */
  predicate DayAllowed(e: Expression, n: int) {
    DateOf(n).day in e.dayOfMonth || Weekday(n) in e.dayOfWeek
  }

  predicate Matches(e: Expression, m: int) {
    MonthAllowed(e, DayOf(m)) && DayAllowed(e, DayOf(m)) && HourOf(m) in e.hour && MinuteOf(m) in e.minute
  }

  /** The plain search, one minute at a time: the least accepted minute in from .. limit-1. */
  function Least(accepts: int -> bool, from: int, limit: int): (r: Option<int>)
    ensures r.Some? ==> from <= r.value < limit && accepts(r.value)
    ensures forall x :: from <= x < (if r.Some? then r.value else limit) ==> !accepts(x)
    decreases limit - from
  {
    if from >= limit then None
    else if accepts(from) then Some(from)
    else Least(accepts, from + 1, limit)
  }

  lemma LeastFinds(accepts: int -> bool, from: int, limit: int, x: int)
    requires from <= x < limit && accepts(x)
    ensures Least(accepts, from, limit).Some? && Least(accepts, from, limit).value <= x
  {
  }

  function LeastMatch(e: Expression, from: int, limit: int): Option<int> {
    Least(m => Matches(e, m), from, limit)
  }

  /** Four years on, where the search gives up; 29 February may become 1 March. */
  function Limit(m: int): int {
    DayNumber(DateOf(DayOf(m)).year + 4, DateOf(DayOf(m)).month, DateOf(DayOf(m)).day) * DAY + m % DAY
  }

  /** What Next promises: the least matching minute after t and before the limit. */
  function NextAfter(e: Expression, t: Time): Option<int> {
    LeastMatch(e, t / MINUTE + 1, Limit(t / MINUTE + 1))
  }

  // ----- the skips -----

  function AdvanceMonth(m: int): int { NextMonth(DayOf(m)) * DAY }

  function AdvanceDay(m: int): int { (DayOf(m) + 1) * DAY }

  function AdvanceHour(m: int): int { (m + 60) / 60 * 60 }

  /** Passing over minutes that are not accepted finds the same minute. */
  lemma {:induction false} Skip(accepts: int -> bool, m: int, m': int, limit: int)
    requires m <= m' && forall x :: m <= x < m' ==> !accepts(x)
    ensures Least(accepts, m, limit) == Least(accepts, m', limit)
    decreases m' - m
  {
    if m < m' && m < limit {
      Skip(accepts, m + 1, m', limit);
    }
  }

  lemma SkipMonth(e: Expression, m: int)
    requires !MonthAllowed(e, DayOf(m))
    ensures m < AdvanceMonth(m) && forall x :: m <= x < AdvanceMonth(m) ==> !Matches(e, x)
  {
    var y, mo := MonthAround(DayOf(m));
    forall x | m <= x < AdvanceMonth(m) ensures !Matches(e, x) {
      MonthUntilNext(DayOf(m), DayOf(x));
    }
  }

  lemma SkipDay(e: Expression, m: int)
    requires !DayAllowed(e, DayOf(m))
    ensures m < AdvanceDay(m) && forall x :: m <= x < AdvanceDay(m) ==> !Matches(e, x)
  {
    forall x | m <= x < AdvanceDay(m) ensures !Matches(e, x) {
      assert DayOf(x) == DayOf(m);
    }
  }

  lemma SkipHour(e: Expression, m: int)
    requires HourOf(m) !in e.hour
    ensures m < AdvanceHour(m) && forall x :: m <= x < AdvanceHour(m) ==> !Matches(e, x)
  {
    forall x | m <= x < AdvanceHour(m) ensures !Matches(e, x) {
      assert x / 60 == m / 60;
    }
  }

  /** Where the search stops, once nothing before matches, is what the plain search finds. */
  lemma SearchEnds(e: Expression, from: int, m: int, limit: int)
    requires from <= m && forall x :: from <= x < m ==> !Matches(e, x)
    requires m < limit ==> Matches(e, m)
    ensures LeastMatch(e, from, limit) == if m < limit then Some(m) else None
  {
    Skip(x => Matches(e, x), from, m, limit);
  }

  /** The search with skips finds what the plain search finds, or returns the zero time. */
  method Search(e: Expression, from: int, limit: int) returns (r: Time)
    ensures r == match LeastMatch(e, from, limit) case Some(m) => m * MINUTE case None => ZERO_TIME
  {
    var m := from;
    while m < limit
      invariant from <= m && forall x :: from <= x < m ==> !Matches(e, x)
      decreases limit - m
    {
      if DateOf(DayOf(m)).month !in e.month {
        SkipMonth(e, m);
        m := AdvanceMonth(m);
        continue;
      }
      var day := DayOf(m);
      var domMatch, dowMatch := DateOf(day).day in e.dayOfMonth, Weekday(day) in e.dayOfWeek;
      if !domMatch && !dowMatch {
        SkipDay(e, m);
        m := AdvanceDay(m);
        continue;
      }
      if HourOf(m) !in e.hour {
        SkipHour(e, m);
        m := AdvanceHour(m);
        continue;
      }
      if MinuteOf(m) !in e.minute {
        m := m + 1;
        continue;
      }
      SearchEnds(e, from, m, limit);
      return m * MINUTE;
    }
    SearchEnds(e, from, m, limit);
    return ZERO_TIME;
  }

  /** The source's Next: from the next whole minute, for at most four years. */
  method Next(e: Expression, t: Time) returns (r: Time)
    ensures r == match NextAfter(e, t) case Some(m) => m * MINUTE case None => ZERO_TIME
  {
    r := Search(e, t / MINUTE + 1, Limit(t / MINUTE + 1));
  }

  // ----- every parsed expression has a next minute -----

  /** Some value of the mask lies in lo .. hi. */
  predicate Meets(mask: Mask, lo: int, hi: int) {
    exists i :: lo <= i <= hi && i in mask
  }

  /** What Parse guarantees: no field is empty. */
  predicate Usable(e: Expression) {
    && Meets(e.minute, 0, 59) && Meets(e.hour, 0, 23) && Meets(e.dayOfMonth, 1, 31)
    && Meets(e.month, 1, 12) && Meets(e.dayOfWeek, 0, 6)
  }

  /** A month that starts within a year after day n. */
  lemma MonthWithinYear(n: int, m: int) returns (y: int)
    requires 1 <= m <= 12
    ensures n < FirstOf(y, m) <= n + 366
  {
    var y0, m0 := MonthAround(n);
    MonthsApartInYear(y0, m0, m);
    MonthsApartInYear(y0 + 1, m, 1);
    YearStartStep(y0);
    y := if m > m0 then y0 else y0 + 1;
    YearsOneApart(y0, m);
  }

  lemma MonthsApartInYear(y: int, m: int, m': int)
    requires 1 <= m <= 12 && 1 <= m' <= 12
    ensures m < m' ==> FirstOf(y, m + 1) <= FirstOf(y, m')
    ensures m' <= m ==> FirstOf(y, m') <= FirstOf(y, m)
    ensures YearStart(y) <= FirstOf(y, m) < FirstOf(y, m + 1) <= YearStart(y) + YearLength(y)
  {
  }

  lemma YearsOneApart(y: int, m: int)
    requires 1 <= m <= 12
    ensures FirstOf(y, m) + 365 <= FirstOf(y + 1, m) <= FirstOf(y, m) + 366
  {
    YearStartStep(y);
  }

  lemma WeekdayFrom(f: int, w: int) returns (n: int)
    requires 0 <= w <= 6
    ensures f <= n < f + 7 && Weekday(n) == w
  {
    n := f + (w - Weekday(f)) % 7;
  }

  /** Every month has every weekday in its first seven days. */
  lemma WeekdayInMonth(y: int, m: int, w: int) returns (n: int)
    requires 1 <= m <= 12 && 0 <= w <= 6
    ensures FirstOf(y, m) <= n < FirstOf(y, m) + 7 && Weekday(n) == w && DateOf(n).month == m
  {
    n := WeekdayFrom(FirstOf(y, m), w);
    MonthsGrow(Leap(y), m);
    DaysOfMonth(n, y, m);
  }

  lemma MinuteIs(n: int, h: int, mi: int) returns (x: int)
    requires 0 <= h <= 23 && 0 <= mi <= 59
    ensures DayOf(x) == n && HourOf(x) == h && MinuteOf(x) == mi
  {
    x := n * DAY + h * 60 + mi;
    assert x / 60 == n * 24 + h;
  }

  /** A day the expression accepts, in one of the next 373. */
  lemma DayExists(e: Expression, n: int) returns (n': int)
    requires Usable(e)
    ensures n < n' <= n + 372 && MonthAllowed(e, n') && DayAllowed(e, n')
  {
    var mo :| 1 <= mo <= 12 && mo in e.month;
    var w :| 0 <= w <= 6 && w in e.dayOfWeek;
    var y := MonthWithinYear(n, mo);
    n' := WeekdayInMonth(y, mo, w);
  }

  /** A match within 374 days, whatever the fields allow. */
  lemma MatchExists(e: Expression, m: int) returns (x: int)
    requires Usable(e)
    ensures m <= x < m + 374 * DAY && Matches(e, x)
  {
    var h :| 0 <= h <= 23 && h in e.hour;
    var mi :| 0 <= mi <= 59 && mi in e.minute;
    var n := DayExists(e, DayOf(m));
    x := MinuteIs(n, h, mi);
    DaysApart(m, x);
  }

  lemma DaysApart(m: int, x: int)
    requires DayOf(m) < DayOf(x) <= DayOf(m) + 372
    ensures m <= x < m + 374 * DAY
  {
  }

  lemma FourYears(y: int)
    ensures YearStart(y + 4) >= YearStart(y) + 1460
  {
    YearStartStep(y);
    YearStartStep(y + 1);
    YearStartStep(y + 2);
    YearStartStep(y + 3);
  }

  lemma FourYearsCount(y: int, m: int, d: int)
    requires 1 <= m <= 12 && 1 <= d <= MonthLength(Leap(y), m)
    ensures DayNumber(y + 4, m, d) >= DayNumber(y, m, d) + 1095
  {
    DayNumberPlain(y, m, d);
    DayNumberPlain(y + 4, m, d);
    MonthsApartInYear(y, m, m);
    MonthsApartInYear(y + 4, m, m);
    FourYears(y);
  }

  lemma FourYearsOn(n: int, d: Date)
    requires DateOf(n) == d
    ensures DayNumber(d.year + 4, d.month, d.day) >= n + 1095
  {
    DateIff(n, d);
    FourYearsCount(d.year, d.month, d.day);
  }

  lemma DaysOn(m: int, n: int)
    requires n >= DayOf(m) + 1095
    ensures n * 1440 + m % DAY >= m + 1095 * DAY
  {
  }

  lemma LimitOn(m: int, d: Date)
    requires DateOf(DayOf(m)) == d
    ensures Limit(m) == DayNumber(d.year + 4, d.month, d.day) * 1440 + m % DAY
  {
  }

  lemma LimitFar(m: int)
    ensures Limit(m) >= m + 1095 * DAY
  {
    var n := DayOf(m);
    LimitFarFrom(m, n, DateOf(n));
  }

  lemma LimitFarFrom(m: int, n: int, d: Date)
    requires DayOf(m) == n && DateOf(n) == d
    ensures Limit(m) >= m + 1095 * DAY
  {
    FourYearsOn(n, d);
    LimitOn(m, d);
    DaysOn(m, DayNumber(d.year + 4, d.month, d.day));
  }

  lemma NextWithin(e: Expression, m: int, limit: int)
    requires Usable(e) && limit >= m + 1095 * DAY
    ensures LeastMatch(e, m, limit).Some? && m <= LeastMatch(e, m, limit).value < m + 374 * DAY
  {
    var x := MatchExists(e, m);
    LeastFinds(m => Matches(e, m), m, limit, x);
  }

  lemma WholeMinutes(t: Time, v: int)
    requires t / MINUTE + 1 <= v < t / MINUTE + 1 + 374 * DAY
    ensures t < v * MINUTE <= t + 374 * DAY * MINUTE
  {
  }

  /** For every usable expression Next finds a later minute, within 374 days: the limit is never reached. */
  lemma NextTotal(e: Expression, t: Time)
    requires Usable(e)
    ensures NextAfter(e, t).Some?
    ensures t < NextAfter(e, t).value * MINUTE <= t + 374 * DAY * MINUTE
  {
    LimitFar(t / MINUTE + 1);
    NextWithin(e, t / MINUTE + 1, Limit(t / MINUTE + 1));
    WholeMinutes(t, NextAfter(e, t).value);
  }

  /** The next minute after a later time is no earlier. */
  lemma NextMonotone(e: Expression, t: Time, t': Time)
    requires Usable(e) && t <= t'
    ensures NextAfter(e, t).Some? && NextAfter(e, t').Some?
    ensures NextAfter(e, t).value <= NextAfter(e, t').value
  {
    NextTotal(e, t);
    NextTotal(e, t');
  }

  /** The answer is at most any match after t. */
  lemma NextAtMost(e: Expression, t: Time, x: int)
    requires Usable(e) && Matches(e, x) && t / MINUTE < x
    ensures NextAfter(e, t).Some? && NextAfter(e, t).value <= x
  {
    NextTotal(e, t);
    if x < Limit(t / MINUTE + 1) {
      LeastFinds(m => Matches(e, m), t / MINUTE + 1, Limit(t / MINUTE + 1), x);
    }
  }

  /** Asking again from the answer goes to the very next match: no match is left out, none comes twice. */
  lemma NextEnumerates(e: Expression, t: Time, x: int)
    requires Usable(e) && Matches(e, x) && t / MINUTE < x
    ensures NextAfter(e, t).Some? && NextAfter(e, NextAfter(e, t).value * MINUTE).Some?
    ensures x == NextAfter(e, t).value || x >= NextAfter(e, NextAfter(e, t).value * MINUTE).value
  {
    NextAtMost(e, t, x);
    var v := NextAfter(e, t).value;
    NextTotal(e, v * MINUTE);
    if x > v {
      NextAtMost(e, v * MINUTE, x);
    }
  }

  // ----- what a match and an answer are, in civil terms -----

  lemma MinuteParts(m: int, n: int, h: int, mi: int)
    requires 0 <= h < 24 && 0 <= mi < 60 && m == n * 1440 + 60 * h + mi
    ensures DayOf(m) == n && HourOf(m) == h && MinuteOf(m) == mi && m % DAY == 60 * h + mi
  {
    assert m / 60 == n * 24 + h;
  }

  lemma MatchesOn(e: Expression, m: int, d: Date)
    requires DateOf(DayOf(m)) == d
    ensures Matches(e, m) <==> MinuteOf(m) in e.minute && HourOf(m) in e.hour && d.month in e.month
                               && (d.day in e.dayOfMonth || Weekday(DayOf(m)) in e.dayOfWeek)
  {
  }

  /** A minute of a date matches exactly when the masks hold its minute, hour and month, and its day or weekday. */
  lemma MinuteMeans(e: Expression, m: int, n: int, d: Date, h: int, mi: int)
    requires Civil(d) && n == DayNumber(d.year, d.month, d.day)
    requires 0 <= h < 24 && 0 <= mi < 60 && m == n * 1440 + 60 * h + mi
    ensures Matches(e, m)
            <==> mi in e.minute && h in e.hour && d.month in e.month && (d.day in e.dayOfMonth || Weekday(n) in e.dayOfWeek)
  {
    CivilIsValid(d);
    DateOfDay(d, n);
    MinuteParts(m, n, h, mi);
    MatchesOn(e, m, d);
  }

  /** t is a whole minute after now that e accepts, and none between them is. */
  ghost predicate FirstAfter(e: Expression, now: Time, t: Time) {
    && now < t && t % MINUTE == 0 && Matches(e, t / MINUTE)
    && forall x :: now < x * MINUTE < t ==> !Matches(e, x)
  }

  lemma MinutesBetween(now: Time, x: int, v: int)
    ensures now / MINUTE + 1 <= x < v <==> now < x * MINUTE < v * MINUTE
  {
  }

  lemma StartOfMinute(v: int, t: Time)
    requires t == v * MINUTE
    ensures t % MINUTE == 0 && t / MINUTE == v
  {
  }

  lemma FirstIsUnique(e: Expression, now: Time, t: Time, t': Time)
    requires FirstAfter(e, now, t) && FirstAfter(e, now, t')
    ensures t == t'
  {
    assert t == t / MINUTE * MINUTE && t' == t' / MINUTE * MINUTE;
  }

  lemma LeastIsFirst(e: Expression, from: int, limit: int, v: int)
    requires LeastMatch(e, from, limit) == Some(v)
    ensures from <= v < limit && Matches(e, v) && forall x :: from <= x < v ==> !Matches(e, x)
  {
    var accepts := m => Matches(e, m);
    assert Least(accepts, from, limit) == Some(v);
    forall x | from <= x < v ensures !Matches(e, x) {
      assert !accepts(x);
    }
    assert accepts(v);
  }

  lemma FirstFrom(e: Expression, now: Time, v: int, t: Time)
    requires t == v * MINUTE && now / MINUTE + 1 <= v && Matches(e, v)
    requires forall x :: now / MINUTE + 1 <= x < v ==> !Matches(e, x)
    ensures FirstAfter(e, now, t)
  {
    StartOfMinute(v, t);
    MinutesBetween(now, v, v + 1);
    forall x | now < x * MINUTE < t ensures !Matches(e, x) {
      MinutesBetween(now, x, v);
    }
  }

  /** Whenever there is an answer, it is the first matching minute after now. */
  lemma AnswerIsFirst(e: Expression, now: Time)
    ensures NextAfter(e, now).Some? ==> FirstAfter(e, now, NextAfter(e, now).value * MINUTE)
  {
    if NextAfter(e, now).Some? {
      var v := NextAfter(e, now).value;
      LeastIsFirst(e, now / MINUTE + 1, Limit(now / MINUTE + 1), v);
      FirstFrom(e, now, v, v * MINUTE);
    }
  }

  /** For a usable expression there is an answer, the first matching minute after now, wherever that is. */
  lemma NextIsFirst(e: Expression, now: Time, t: Time)
    requires Usable(e)
    ensures NextAfter(e, now).Some?
    ensures t == NextAfter(e, now).value * MINUTE <==> FirstAfter(e, now, t)
  {
    NextTotal(e, now);
    AnswerIsFirst(e, now);
    if FirstAfter(e, now, t) {
      FirstIsUnique(e, now, t, NextAfter(e, now).value * MINUTE);
    }
  }

  lemma FourYearsFrom(d: Date)
    requires Civil(d)
    ensures var d' := d.(year := d.year + 4);
            var last := if Civil(d') then d' else Date(d.year + 4, 3, 1);
            DayNumber(d.year + 4, d.month, d.day) == DayNumber(last.year, last.month, last.day)
  {
    LengthIs(d.year + 4, d.month);
    if !Civil(d.(year := d.year + 4)) {
      MonthEnds(d.year + 4, 2);
      WithinMonth(d.year + 4, 2, 28);
    }
  }

  /** The search ends at the same time of day four years on, on 1 March if that year lacks the 29 February. */
  lemma LimitIsFourYears(m: int, d: Date, h: int, mi: int)
    requires Civil(d) && 0 <= h < 24 && 0 <= mi < 60
    requires m == DayNumber(d.year, d.month, d.day) * 1440 + 60 * h + mi
    ensures var d' := d.(year := d.year + 4);
            var last := if Civil(d') then d' else Date(d.year + 4, 3, 1);
            Limit(m) == DayNumber(last.year, last.month, last.day) * 1440 + 60 * h + mi
  {
    CivilIsValid(d);
    DateOfDay(d, DayNumber(d.year, d.month, d.day));
    MinuteParts(m, DayNumber(d.year, d.month, d.day), h, mi);
    LimitOn(m, d);
    FourYearsFrom(d);
  }

  // ----- the day rule is not the one its comment names -----

  predicate Full(mask: Mask, lo: int, hi: int) {
    forall i :: lo <= i <= hi ==> i in mask
  }

  /** Vixie cron: a field left at `*` does not take part. */
  predicate VixieAllowed(e: Expression, n: int) {
    if Full(e.dayOfMonth, 1, 31) then Weekday(n) in e.dayOfWeek
    else if Full(e.dayOfWeek, 0, 6) then DateOf(n).day in e.dayOfMonth
    else DayAllowed(e, n)
  }

  /** The code's day rule is Vixie cron's exactly when both day fields are restricted or neither is. */
  lemma DayRuleIsVixieIff(e: Expression)
    ensures (forall n :: DayAllowed(e, n) <==> VixieAllowed(e, n))
            <==> (Full(e.dayOfMonth, 1, 31) <==> Full(e.dayOfWeek, 0, 6))
  {
    forall n ensures Full(e.dayOfMonth, 1, 31) || Full(e.dayOfWeek, 0, 6) ==> DayAllowed(e, n) {
      DayOfDate(n);
      MonthsGrow(Leap(DateOf(n).year), DateOf(n).month);
    }
    if Full(e.dayOfMonth, 1, 31) && !Full(e.dayOfWeek, 0, 6) {
      var w :| 0 <= w <= 6 && w !in e.dayOfWeek;
      var n := WeekdayInMonth(1, 1, w);
      assert DayAllowed(e, n) && !VixieAllowed(e, n);
    }
    if Full(e.dayOfWeek, 0, 6) && !Full(e.dayOfMonth, 1, 31) {
      var d :| 1 <= d <= 31 && d !in e.dayOfMonth;
      DateOfDay(Date(1, 1, d), DayNumber(1, 1, d));
      assert DayAllowed(e, DayNumber(1, 1, d)) && !VixieAllowed(e, DayNumber(1, 1, d));
    }
  }
}
