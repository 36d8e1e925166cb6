/** A cron expression as syntax, its text, its meaning; reading the text gives the meaning. */
module CronRoundTrip {
  import opened StoreTypes
  import Calendar
  import opened Cron
  import opened CronText

  datatype Base = Star | One(v: nat) | Range(lo: nat, hi: nat)

  /** One comma part: a base and perhaps a step. */
  datatype Item = Item(base: Base, step: Option<nat>)

  datatype Field = Field(items: seq<Item>)

  // ----- what syntax means -----

  function ItemSpan(it: Item, min: nat, max: nat): Span {
    var step := match it.step case Some(s) => s case None => 1;
    match it.base
    case Star => Span(min, max, step)
    case One(v) => Span(v, v, step)
    case Range(lo, hi) => Span(lo, hi, step)
  }

  predicate ItemOk(it: Item, min: nat, max: nat) {
    var s := ItemSpan(it, min, max);
    s.step > 0 && min <= s.lo <= s.hi <= max
  }

  ghost predicate FieldOk(f: Field, min: nat, max: nat) {
    forall it :: it in f.items ==> ItemOk(it, min, max)
  }

  /** A field accepts what any of its items spans. */
  ghost predicate FieldAccepts(f: Field, min: nat, max: nat, v: int) {
    exists it :: it in f.items && InSpan(ItemSpan(it, min, max), v)
  }

  // ----- how syntax is written -----

  function Decimal(n: nat): (s: string)
    ensures |s| > 0 && AllDigits(s)
  {
    var d := [(n % 10 + '0' as int) as char];
    if n < 10 then d else Decimal(n / 10) + d
  }

  function BaseText(b: Base): string {
    match b
    case Star => "*"
    case One(v) => Decimal(v)
    case Range(lo, hi) => Decimal(lo) + "-" + Decimal(hi)
  }

  function ItemText(it: Item): string {
    BaseText(it.base) + match it.step case Some(s) => "/" + Decimal(s) case None => ""
  }

  function ItemTexts(its: seq<Item>): (ts: seq<string>)
    ensures |ts| == |its| && forall i :: 0 <= i < |its| ==> ts[i] == ItemText(its[i])
  {
    seq(|its|, i requires 0 <= i < |its| => ItemText(its[i]))
  }

  function Join(parts: seq<string>, sep: char): string
    requires |parts| > 0
  {
    if |parts| == 1 then parts[0] else parts[0] + [sep] + Join(parts[1..], sep)
  }

  function FieldText(f: Field): string
    requires |f.items| > 0
  {
    Join(ItemTexts(f.items), ',')
  }

  // ----- reading numbers and parts back -----

  lemma {:induction false} ValueOfDecimal(n: nat)
    ensures Value(Decimal(n)) == n
    decreases n
  {
    var s := Decimal(n);
    if n < 10 {
      assert s[..0] == "";
    } else {
      ValueOfDecimal(n / 10);
      assert s[..|s| - 1] == Decimal(n / 10);
    }
  }

  lemma AtoiOfDecimal(n: nat)
    ensures Atoi(Decimal(n)) == if n <= MAX_INT then Some(n) else None
  {
    ValueOfDecimal(n);
    assert Decimal(n)[0] != '+' && Decimal(n)[0] != '-';
  }

  lemma {:induction false} IndexAfter(a: string, c: char, b: string)
    requires c !in a
    ensures IndexOf(a + [c] + b, c) == |a|
  {
    if a != "" {
      assert (a + [c] + b)[1..] == a[1..] + [c] + b;
      IndexAfter(a[1..], c, b);
    }
  }

  predicate Apart(s: string, c: char) {
    c !in s
  }

  lemma DigitsApart(s: string, c: char)
    requires AllDigits(s) && !('0' <= c <= '9')
    ensures Apart(s, c)
  {
  }

  /** No item text holds a separator of an outer level. */
  lemma BaseApart(b: Base, c: char)
    requires c == '/' || c == ',' || IsSpace(c)
    ensures Apart(BaseText(b), c) && |BaseText(b)| > 0
  {
    match b {
      case Star =>
      case One(v) => DigitsApart(Decimal(v), c);
      case Range(lo, hi) =>
        DigitsApart(Decimal(lo), c);
        DigitsApart(Decimal(hi), c);
    }
  }

  lemma ItemApart(it: Item, c: char)
    requires c == ',' || IsSpace(c)
    ensures Apart(ItemText(it), c) && |ItemText(it)| > 0
  {
    BaseApart(it.base, c);
    if it.step.Some? {
      DigitsApart(Decimal(it.step.value), c);
    }
  }

  lemma EndsOfBase(b: Base, min: nat, max: nat)
    requires max <= MAX_INT
    ensures match Ends(BaseText(b), min, max)
            case Some((lo, hi)) => (lo, hi) == (ItemSpan(Item(b, None), min, max).lo, ItemSpan(Item(b, None), min, max).hi)
            case None => !ItemOk(Item(b, None), min, max)
  {
    match b {
      case Star =>
      case One(v) =>
        DigitsApart(Decimal(v), '-');
        AtoiOfDecimal(v);
        assert Decimal(v)[0] != '*';
      case Range(lo, hi) =>
        var s := BaseText(b);
        DigitsApart(Decimal(lo), '-');
        IndexAfter(Decimal(lo), '-', Decimal(hi));
        AtoiOfDecimal(lo);
        AtoiOfDecimal(hi);
        assert s[0] == Decimal(lo)[0] != '*';
        assert s[..|Decimal(lo)|] == Decimal(lo) && s[|Decimal(lo)| + 1..] == Decimal(hi);
    }
  }

  lemma StepOfItem(it: Item)
    requires it.step.Some? ==> it.step.value <= MAX_INT
    ensures StepOf(ItemText(it)) == Some(ItemSpan(it, 0, 0).step) && BodyOf(ItemText(it)) == BaseText(it.base)
  {
    var b := BaseText(it.base);
    BaseApart(it.base, '/');
    match it.step {
      case None => assert ItemText(it) == b;
      case Some(s) =>
        var t := b + "/" + Decimal(s);
        assert ItemText(it) == t;
        IndexAfter(b, '/', Decimal(s));
        AtoiOfDecimal(s);
        assert t[..|b|] == b && t[|b| + 1..] == Decimal(s);
    }
  }

  /** A written part reads back as its span, or is refused exactly when it is out of range. */
  lemma PartOfItem(it: Item, min: nat, max: nat)
    requires max <= MAX_INT && (it.step.Some? ==> it.step.value <= MAX_INT)
    ensures PartSpan(ItemText(it), min, max) == if ItemOk(it, min, max) then Some(ItemSpan(it, min, max)) else None
  {
    StepOfItem(it);
    EndsOfBase(it.base, min, max);
  }

  // ----- reading fields and expressions back -----

  lemma {:induction false} SplitOfJoin(parts: seq<string>, sep: char)
    requires |parts| > 0 && forall i :: 0 <= i < |parts| ==> Apart(parts[i], sep)
    ensures Split(Join(parts, sep), sep) == parts
    decreases |parts|
  {
    var s := Join(parts, sep);
    if |parts| > 1 {
      var rest := Join(parts[1..], sep);
      IndexAfter(parts[0], sep, rest);
      assert s[..|parts[0]|] == parts[0] && s[|parts[0]| + 1..] == rest;
      SplitOfJoin(parts[1..], sep);
    }
  }

  lemma SplitOfField(f: Field)
    requires |f.items| > 0
    ensures Split(FieldText(f), ',') == ItemTexts(f.items)
  {
    forall i | 0 <= i < |f.items| ensures Apart(ItemTexts(f.items)[i], ',') {
      ItemApart(f.items[i], ',');
    }
    SplitOfJoin(ItemTexts(f.items), ',');
  }

  /** Steps must fit an int; larger ones are refused though they would mean something. */
  predicate Writable(f: Field) {
    |f.items| > 0 && forall i :: 0 <= i < |f.items| && f.items[i].step.Some? ==> f.items[i].step.value <= MAX_INT
  }

  lemma TextRead(f: Field, i: nat, min: nat, max: nat)
    requires Writable(f) && max <= MAX_INT && i < |f.items|
    ensures ItemTexts(f.items)[i] in ItemTexts(f.items) && f.items[i] in f.items
    ensures PartSpan(ItemTexts(f.items)[i], min, max)
         == if ItemOk(f.items[i], min, max) then Some(ItemSpan(f.items[i], min, max)) else None
  {
    PartOfItem(f.items[i], min, max);
  }

  lemma TextsRead(f: Field, min: nat, max: nat)
    requires Writable(f) && max <= MAX_INT
    ensures AllRead(ItemTexts(f.items), min, max) <==> FieldOk(f, min, max)
  {
    var ts := ItemTexts(f.items);
    forall i | 0 <= i < |ts| ensures PartSpan(ts[i], min, max).Some? <==> ItemOk(f.items[i], min, max) {
      TextRead(f, i, min, max);
    }
    if AllRead(ts, min, max) {
      forall i | 0 <= i < |ts| ensures ItemOk(f.items[i], min, max) {
        TextRead(f, i, min, max);
      }
    }
  }

  lemma TextsHave(f: Field, min: nat, max: nat, v: int)
    requires Writable(f) && max <= MAX_INT && FieldOk(f, min, max)
    ensures SomeHas(ItemTexts(f.items), min, max, v) <==> FieldAccepts(f, min, max, v)
  {
    var ts := ItemTexts(f.items);
    if SomeHas(ts, min, max, v) {
      var i :| 0 <= i < |ts| && PartHas(ts[i], min, max, v);
      TextRead(f, i, min, max);
    }
    if FieldAccepts(f, min, max, v) {
      var i :| 0 <= i < |f.items| && InSpan(ItemSpan(f.items[i], min, max), v);
      TextRead(f, i, min, max);
      assert PartHas(ts[i], min, max, v);
    }
  }

  ghost predicate ReadsAs(mask: Option<Mask>, f: Field, min: nat, max: nat) {
    && (mask.Some? <==> FieldOk(f, min, max))
    && (mask.Some? ==> forall v :: v in mask.value <==> FieldAccepts(f, min, max, v))
  }

  /** A written field reads back as the set of values it means; it is refused exactly when an item is out of range. */
  lemma FieldRoundTrip(f: Field, min: nat, max: nat)
    requires Writable(f) && max <= MAX_INT
    ensures ReadsAs(FieldMask(FieldText(f), min, max), f, min, max)
  {
    SplitOfField(f);
    TextsRead(f, min, max);
    FieldExact(FieldText(f), min, max, 0);
    if FieldOk(f, min, max) {
      forall v ensures v in FieldMask(FieldText(f), min, max).value <==> FieldAccepts(f, min, max, v) {
        FieldExact(FieldText(f), min, max, v);
        TextsHave(f, min, max, v);
      }
    }
  }

  // ----- the whole expression -----

  predicate Solid(s: string) {
    |s| > 0 && forall i :: 0 <= i < |s| ==> !IsSpace(s[i])
  }

  /** Reading a solid word keeps it; the blank after it ends it. */
  lemma {:induction false} FieldsOfWord(w: string, word: string, rest: string)
    requires (forall i :: 0 <= i < |w| ==> !IsSpace(w[i])) && word + w != ""
    ensures rest == "" ==> FieldsFrom(w + rest, word) == [word + w]
    ensures rest != "" && IsSpace(rest[0]) ==> FieldsFrom(w + rest, word) == [word + w] + FieldsFrom(rest[1..], "")
    decreases |w|
  {
    if w == "" {
      assert w + rest == rest && word + w == word;
    } else {
      assert (w + rest)[1..] == w[1..] + rest && (w + rest)[0] == w[0];
      assert (word + [w[0]]) + w[1..] == word + w;
      FieldsOfWord(w[1..], word + [w[0]], rest);
    }
  }

  lemma {:induction false} FieldsOfJoin(parts: seq<string>)
    requires |parts| > 0 && forall i :: 0 <= i < |parts| ==> Solid(parts[i])
    ensures Fields(Join(parts, ' ')) == parts
    decreases |parts|
  {
    if |parts| == 1 {
      assert parts[0] + "" == parts[0] && "" + parts[0] == parts[0];
      FieldsOfWord(parts[0], "", "");
      assert [parts[0]] == parts;
    } else {
      var rest := Join(parts[1..], ' ');
      assert parts[0] + " " + rest == parts[0] + (" " + rest) && "" + parts[0] == parts[0];
      FieldsOfWord(parts[0], "", " " + rest);
      FieldsOfJoin(parts[1..]);
      assert (" " + rest)[1..] == rest;
      assert [parts[0]] + parts[1..] == parts;
    }
  }

  lemma {:induction false} JoinSolid(parts: seq<string>)
    requires |parts| > 0 && forall i :: 0 <= i < |parts| ==> Solid(parts[i])
    ensures Solid(Join(parts, ','))
    decreases |parts|
  {
    if |parts| > 1 {
      JoinSolid(parts[1..]);
    }
  }

  lemma FieldSolid(f: Field)
    requires |f.items| > 0
    ensures Solid(FieldText(f))
  {
    forall i | 0 <= i < |f.items| ensures Solid(ItemTexts(f.items)[i]) {
      ItemSolid(f.items[i]);
    }
    JoinSolid(ItemTexts(f.items));
  }

  lemma ItemSolid(it: Item)
    ensures Solid(ItemText(it))
  {
    ItemApart(it, ',');
    forall i | 0 <= i < |ItemText(it)| ensures !IsSpace(ItemText(it)[i]) {
      if IsSpace(ItemText(it)[i]) {
        ItemApart(it, ItemText(it)[i]);
        assert false;
      }
    }
  }

  datatype Crontab = Crontab(minute: Field, hour: Field, dayOfMonth: Field, month: Field, dayOfWeek: Field)

  predicate TabWritable(c: Crontab) {
    Writable(c.minute) && Writable(c.hour) && Writable(c.dayOfMonth) && Writable(c.month) && Writable(c.dayOfWeek)
  }

  function Words(c: Crontab): seq<string>
    requires TabWritable(c)
  {
    [FieldText(c.minute), FieldText(c.hour), FieldText(c.dayOfMonth), FieldText(c.month), FieldText(c.dayOfWeek)]
  }

  ghost predicate TabOk(c: Crontab) {
    && FieldOk(c.minute, 0, 59) && FieldOk(c.hour, 0, 23) && FieldOk(c.dayOfMonth, 1, 31)
    && FieldOk(c.month, 1, 12) && FieldOk(c.dayOfWeek, 0, 6)
  }

  lemma WordsOfTab(c: Crontab)
    requires TabWritable(c)
    ensures Fields(Join(Words(c), ' ')) == Words(c)
  {
    FieldSolid(c.minute);
    FieldSolid(c.hour);
    FieldSolid(c.dayOfMonth);
    FieldSolid(c.month);
    FieldSolid(c.dayOfWeek);
    FieldsOfJoin(Words(c));
  }

  ghost predicate TabReadsAs(e: Option<Expression>, c: Crontab) {
    match e
    case None => !TabOk(c)
    case Some(e) =>
      && TabOk(c)
      && ReadsAs(Some(e.minute), c.minute, 0, 59) && ReadsAs(Some(e.hour), c.hour, 0, 23)
      && ReadsAs(Some(e.dayOfMonth), c.dayOfMonth, 1, 31) && ReadsAs(Some(e.month), c.month, 1, 12)
      && ReadsAs(Some(e.dayOfWeek), c.dayOfWeek, 0, 6)
  }

  lemma FieldsReadAs(ws: seq<string>, c: Crontab)
    requires |ws| == 5
    requires ReadsAs(FieldMask(ws[0], 0, 59), c.minute, 0, 59) && ReadsAs(FieldMask(ws[1], 0, 23), c.hour, 0, 23)
    requires ReadsAs(FieldMask(ws[2], 1, 31), c.dayOfMonth, 1, 31) && ReadsAs(FieldMask(ws[3], 1, 12), c.month, 1, 12)
    requires ReadsAs(FieldMask(ws[4], 0, 6), c.dayOfWeek, 0, 6)
    ensures TabReadsAs(ParseFields(ws), c)
  {
  }

  /**
    * Reading a written expression gives exactly what its five fields mean, and an error exactly
    * when one of them is out of range.
    */
  lemma ExpressionRoundTrip(c: Crontab)
    requires TabWritable(c)
    ensures TabReadsAs(ParseFields(Fields(Join(Words(c), ' '))), c)
  {
    WordsOfTab(c);
    FieldRoundTrip(c.minute, 0, 59);
    FieldRoundTrip(c.hour, 0, 23);
    FieldRoundTrip(c.dayOfMonth, 1, 31);
    FieldRoundTrip(c.month, 1, 12);
    FieldRoundTrip(c.dayOfWeek, 0, 6);
    FieldsReadAs(Words(c), c);
  }

  // ----- an expression whose day field is idle -----

  function Single(b: Base): Field {
    Field([Item(b, None)])
  }

  /** Minute 0, hour 0, day 13, any month, any weekday. */
  const THIRTEENTH := Crontab(Single(One(0)), Single(One(0)), Single(One(13)), Single(Star), Single(Star))

  lemma SingleText(b: Base)
    ensures FieldText(Single(b)) == BaseText(b)
  {
    var its := [Item(b, None)];
    assert its[1..] == [];
    assert ItemTexts(its) == [ItemText(its[0])];
  }

  lemma DecimalTexts()
    ensures Decimal(0) == "0" && Decimal(13) == "13"
  {
    assert Decimal(1) == "1";
    assert 13 / 10 == 1 && 13 % 10 == 3;
  }

  lemma JoinMore(a: string, rest: seq<string>)
    requires |rest| > 0
    ensures Join([a] + rest, ' ') == a + " " + Join(rest, ' ')
  {
    assert ([a] + rest)[1..] == rest;
  }

  lemma ThirteenthWords()
    ensures TabWritable(THIRTEENTH) && Words(THIRTEENTH) == ["0", "0", "13", "*", "*"]
  {
    SingleText(One(0));
    SingleText(One(13));
    SingleText(Star);
    DecimalTexts();
  }

  lemma ThirteenthText()
    ensures TabWritable(THIRTEENTH) && Join(Words(THIRTEENTH), ' ') == "0 0 13 * *"
  {
    ThirteenthWords();
    JoinMore("*", ["*"]);
    JoinMore("13", ["*", "*"]);
    JoinMore("0", ["13", "*", "*"]);
    JoinMore("0", ["0", "13", "*", "*"]);
    assert Words(THIRTEENTH) == ["0"] + (["0"] + (["13"] + (["*"] + ["*"])));
  }

  lemma SingleMeans(b: Base, min: nat, max: nat, v: int)
    requires ItemOk(Item(b, None), min, max)
    ensures FieldOk(Single(b), min, max)
    ensures FieldAccepts(Single(b), min, max, v) <==> InSpan(ItemSpan(Item(b, None), min, max), v)
  {
    assert Item(b, None) in Single(b).items;
  }

  lemma InSpanOfOne(lo: int, hi: int, v: int)
    ensures InSpan(Span(lo, hi, 1), v) <==> lo <= v <= hi
  {
  }

  lemma ThirteenthMasks(e: Expression, v: int)
    requires TabReadsAs(Some(e), THIRTEENTH)
    ensures (v in e.minute <==> v == 0) && (v in e.hour <==> v == 0)
    ensures (v in e.month <==> 1 <= v <= 12) && (v in e.dayOfWeek <==> 0 <= v <= 6)
  {
    SingleMeans(One(0), 0, 59, v);
    SingleMeans(One(0), 0, 23, v);
    SingleMeans(Star, 1, 12, v);
    SingleMeans(Star, 0, 6, v);
    InSpanOfOne(0, 0, v);
    InSpanOfOne(1, 12, v);
    InSpanOfOne(0, 6, v);
  }

  lemma ThirteenthReads()
    ensures TabReadsAs(ParseFields(Fields("0 0 13 * *")), THIRTEENTH) && TabOk(THIRTEENTH)
  {
    ThirteenthText();
    ExpressionRoundTrip(THIRTEENTH);
    SingleMeans(One(0), 0, 59, 0);
    SingleMeans(One(0), 0, 23, 0);
    SingleMeans(One(13), 1, 31, 0);
    SingleMeans(Star, 1, 12, 0);
    SingleMeans(Star, 0, 6, 0);
  }

  /** The thirteenth of the month at midnight, as it is written, comes at every midnight. */
  lemma ThirteenthFiresDaily(m: int)
    ensures ParseFields(Fields("0 0 13 * *")).Some?
    ensures Matches(ParseFields(Fields("0 0 13 * *")).value, m) <==> HourOf(m) == 0 && MinuteOf(m) == 0
  {
    ThirteenthReads();
    EveryMidnight(ParseFields(Fields("0 0 13 * *")).value, m);
  }

  lemma EveryMidnight(e: Expression, m: int)
    requires TabReadsAs(Some(e), THIRTEENTH)
    ensures Matches(e, m) <==> HourOf(m) == 0 && MinuteOf(m) == 0
  {
    var y, mo := Calendar.MonthAround(DayOf(m));
    ThirteenthMasks(e, mo);
    ThirteenthMasks(e, Calendar.Weekday(DayOf(m)));
    ThirteenthMasks(e, HourOf(m));
    ThirteenthMasks(e, MinuteOf(m));
  }
}
