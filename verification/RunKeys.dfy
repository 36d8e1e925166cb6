/** The idempotency key of a run, before it is hashed: the job and the minute it was scheduled for. */
module RunKeys {
  import opened Calendar
  import opened Cron

  function Pad(n: int, width: nat): (s: string)
    ensures |s| == width
    decreases width
  {
    if width == 0 then "" else Pad(n / 10, width - 1) + [(n % 10 + '0' as int) as char]
  }

  /** The minute as 2006-01-02T15:04 in UTC. */
  function Stamp(m: int): string {
    var d := DateOf(DayOf(m));
    Pad(d.year, 4) + "-" + Pad(d.month, 2) + "-" + Pad(d.day, 2) + "T" + Pad(HourOf(m), 2) + ":" + Pad(MinuteOf(m), 2)
  }

  /** What RunIdempotencyKey hashes. */
  function RunKey(jobId: string, m: int): string {
    jobId + ":" + Stamp(m)
  }

  /** Times a JSON command can carry: through year 9999. */
  const LAST_MINUTE: int := 5258964959

  predicate Encodable(m: int) {
    0 <= m <= LAST_MINUTE
  }

  lemma {:induction false} PadInjective(n: int, n': int, width: nat, top: int)
    requires 0 <= n < top && 0 <= n' < top && (width == 0 ==> top == 1)
    requires width == 1 ==> top == 10
    requires width == 2 ==> top == 100
    requires width == 3 ==> top == 1000
    requires width == 4 ==> top == 10000
    requires width <= 4 && Pad(n, width) == Pad(n', width)
    ensures n == n'
    decreases width
  {
    if width > 0 {
      var s := Pad(n, width);
      assert s[..width - 1] == Pad(n / 10, width - 1) && s[..width - 1] == Pad(n' / 10, width - 1);
      assert s[width - 1] == (n % 10 + '0' as int) as char == (n' % 10 + '0' as int) as char;
      PadInjective(n / 10, n' / 10, width - 1, top / 10);
    }
  }

  lemma YearEncodable(m: int)
    requires Encodable(m)
    ensures 1 <= DateOf(DayOf(m)).year <= 9999
  {
    var y := YearOf(DayOf(m));
    YearHolds(DayOf(m));
    if y > 9999 { YearStartGrows(9999, y); }
    if y < 1 && y < 0 { YearStartGrows(y, 0); }
  }

  lemma StampSplits(a: string, b: string, c: string, d: string, e: string,
                    a': string, b': string, c': string, d': string, e': string)
    requires |a| == |a'| == 4 && |b| == |b'| == |c| == |c'| == |d| == |d'| == |e| == |e'| == 2
    requires a + "-" + b + "-" + c + "T" + d + ":" + e == a' + "-" + b' + "-" + c' + "T" + d' + ":" + e'
    ensures a == a' && b == b' && c == c' && d == d' && e == e'
  {
    var s, s' := a + "-" + b + "-" + c + "T" + d + ":" + e, a' + "-" + b' + "-" + c' + "T" + d' + ":" + e';
    assert a == s[..4] && a' == s'[..4];
    assert b == s[5..7] && b' == s'[5..7];
    assert c == s[8..10] && c' == s'[8..10];
    assert d == s[11..13] && d' == s'[11..13];
    assert e == s[14..16] && e' == s'[14..16];
  }

  lemma SameMinute(m: int, m': int)
    requires DayOf(m) == DayOf(m') && HourOf(m) == HourOf(m') && MinuteOf(m) == MinuteOf(m')
    ensures m == m'
  {
    assert m / 60 == DayOf(m) * 24 + HourOf(m);
    assert m' / 60 == DayOf(m') * 24 + HourOf(m');
  }

  lemma DateBounded(n: int)
    ensures 1 <= DateOf(n).month <= 12 && 1 <= DateOf(n).day <= 31
  {
    DayOfDate(n);
    MonthsGrow(Leap(DateOf(n).year), DateOf(n).month);
  }

  lemma SameDate(n: int, n': int)
    requires DateOf(n) == DateOf(n')
    ensures n == n'
  {
    DayOfDate(n);
    DayOfDate(n');
  }

  lemma StampInjective(m: int, m': int)
    requires Encodable(m) && Encodable(m') && Stamp(m) == Stamp(m')
    ensures m == m'
  {
    var d, d' := DateOf(DayOf(m)), DateOf(DayOf(m'));
    YearEncodable(m);
    YearEncodable(m');
    DateBounded(DayOf(m));
    DateBounded(DayOf(m'));
    StampSplits(Pad(d.year, 4), Pad(d.month, 2), Pad(d.day, 2), Pad(HourOf(m), 2), Pad(MinuteOf(m), 2),
                Pad(d'.year, 4), Pad(d'.month, 2), Pad(d'.day, 2), Pad(HourOf(m'), 2), Pad(MinuteOf(m'), 2));
    PadInjective(d.year, d'.year, 4, 10000);
    PadInjective(d.month, d'.month, 2, 100);
    PadInjective(d.day, d'.day, 2, 100);
    PadInjective(HourOf(m), HourOf(m'), 2, 100);
    PadInjective(MinuteOf(m), MinuteOf(m'), 2, 100);
    SameDate(DayOf(m), DayOf(m'));
    SameMinute(m, m');
  }

  /** A key, before it is hashed, names one job and one minute. */
  lemma KeyInjective(id: string, m: int, id': string, m': int)
    requires Encodable(m) && Encodable(m') && RunKey(id, m) == RunKey(id', m')
    ensures id == id' && m == m'
  {
    var s, s' := RunKey(id, m), RunKey(id', m');
    assert |Stamp(m)| == 16 && |Stamp(m')| == 16;
    assert s[|id| + 1..] == Stamp(m) && s'[|id'| + 1..] == Stamp(m');
    assert s[..|id|] == id && s'[..|id'|] == id';
    StampInjective(m, m');
  }

  function Digit(n: int): char
    requires 0 <= n <= 9
  {
    "0123456789"[n]
  }

  function Two(n: int): string
    requires 0 <= n <= 99
  {
    [Digit(n / 10), Digit(n % 10)]
  }

  lemma PadMore(n: int, width: nat)
    requires n >= 0
    ensures Pad(n, width + 1) == Pad(n / 10, width) + [Digit(n % 10)]
  {
  }

  lemma PadTwo(n: int)
    requires 0 <= n <= 99
    ensures Pad(n, 2) == Two(n)
  {
    PadMore(n, 1);
    PadMore(n / 10, 0);
  }

  lemma PadFour(n: int)
    requires 0 <= n <= 9999
    ensures Pad(n, 4) == Two(n / 100) + Two(n % 100)
  {
    PadMore(n, 3);
    PadMore(n / 10, 2);
    PadTwo(n / 10 / 10);
    assert n / 10 / 10 == n / 100 && n / 10 % 10 == n % 100 / 10 && n % 10 == n % 100 % 10;
  }

  /** What is hashed is the job's id and the minute in the usual notation of its date and time, in UTC. */
  lemma RunKeyText(id: string, m: int, d: Date, h: int, mi: int)
    requires Civil(d) && 1 <= d.year <= 9999 && 0 <= h < 24 && 0 <= mi < 60
    requires m == DayNumber(d.year, d.month, d.day) * 1440 + 60 * h + mi
    ensures RunKey(id, m) == id + ":" + (Two(d.year / 100) + Two(d.year % 100) + "-" + Two(d.month) + "-" + Two(d.day)
                                         + "T" + Two(h) + ":" + Two(mi))
  {
    CivilIsValid(d);
    DateOfDay(d, DayNumber(d.year, d.month, d.day));
    MinuteParts(m, DayNumber(d.year, d.month, d.day), h, mi);
    PadFour(d.year);
    PadTwo(d.month);
    PadTwo(d.day);
    PadTwo(h);
    PadTwo(mi);
    StampText(m, d, h, mi);
  }

  lemma StampText(m: int, d: Date, h: int, mi: int)
    requires DateOf(DayOf(m)) == d && HourOf(m) == h && MinuteOf(m) == mi
    ensures Stamp(m) == Pad(d.year, 4) + "-" + Pad(d.month, 2) + "-" + Pad(d.day, 2) + "T" + Pad(h, 2) + ":" + Pad(mi, 2)
  {
  }
}
