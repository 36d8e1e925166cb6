/** Reading a five-field cron expression, and why a printed expression reads back as what it means. */
module CronText {
  import opened StoreTypes
  import opened Cron

  // ----- the string functions the parser calls -----

  /** unicode.IsSpace */
  predicate IsSpace(c: char) {
    || c in {'\t', '\n', '\r', ' '} || c as int in {0x0B, 0x0C, 0x85, 0xA0, 0x1680, 0x2028, 0x2029, 0x202F, 0x205F, 0x3000}
    || 0x2000 <= c as int <= 0x200A
  }

  /** strings.Index for a one-character pattern. */
  function IndexOf(s: string, c: char): (i: int)
    ensures i < 0 ==> i == -1 && c !in s
    ensures i >= 0 ==> i < |s| && s[i] == c && c !in s[..i]
  {
    if s == "" then -1
    else if s[0] == c then 0
    else
      var i := IndexOf(s[1..], c);
      if i < 0 then -1 else i + 1
  }

  /** strings.Split; always at least one part. */
  function Split(s: string, sep: char): (parts: seq<string>)
    ensures |parts| > 0
    decreases |s|
  {
    var i := IndexOf(s, sep);
    if i < 0 then [s] else [s[..i]] + Split(s[i + 1..], sep)
  }

  /** strings.Fields: the maximal runs without white space; `word` is the run being read. */
  function FieldsFrom(s: string, word: string): seq<string> {
    if s == "" then (if word == "" then [] else [word])
    else if IsSpace(s[0]) then (if word == "" then [] else [word]) + FieldsFrom(s[1..], "")
    else FieldsFrom(s[1..], word + [s[0]])
  }

  function Fields(s: string): seq<string> {
    FieldsFrom(s, "")
  }

  predicate AllDigits(s: string) {
    forall i :: 0 <= i < |s| ==> '0' <= s[i] <= '9'
  }

  function Value(s: string): nat
    requires AllDigits(s)
  {
    if s == "" then 0 else Value(s[..|s| - 1]) * 10 + (s[|s| - 1] as int - '0' as int)
  }

  const MAX_INT: int := 0x7FFF_FFFF_FFFF_FFFF

  /** strconv.Atoi on a 64-bit platform. */
  function Atoi(s: string): Option<int> {
    var digits := if s != "" && (s[0] == '+' || s[0] == '-') then s[1..] else s;
    if digits == "" || !AllDigits(digits) then None
    else if s[0] == '-' then (if Value(digits) <= MAX_INT + 1 then Some(-(Value(digits) as int)) else None)
    else if Value(digits) <= MAX_INT then Some(Value(digits))
    else None
  }

  // ----- what a field means -----

  /** lo, lo + step, lo + 2*step, ... up to hi. */
  datatype Span = Span(lo: int, hi: int, step: int)

  function Steps(lo: int, hi: int, step: int): Mask
    decreases hi - lo
  {
    if lo > hi || step <= 0 then {} else {lo} + Steps(lo + step, hi, step)
  }

  function Bounded(lo: int, hi: int, step: int, min: int, max: int): Option<Span> {
    if step <= 0 || lo < min || hi > max || lo > hi then None else Some(Span(lo, hi, step))
  }

  /** The two ends of a part without its step. */
  function Ends(body: string, min: int, max: int): Option<(int, int)> {
    var dash := IndexOf(body, '-');
    if body == "*" then Some((min, max))
    else if dash < 0 then
      match Atoi(body)
      case Some(v) => Some((v, v))
      case None => None
    else
      match (Atoi(body[..dash]), Atoi(body[dash + 1..]))
      case (Some(lo), Some(hi)) => Some((lo, hi))
      case _ => None
  }

  function StepOf(part: string): Option<int> {
    var slash := IndexOf(part, '/');
    if slash < 0 then Some(1) else Atoi(part[slash + 1..])
  }

  function BodyOf(part: string): string {
    var slash := IndexOf(part, '/');
    if slash < 0 then part else part[..slash]
  }

  /** One comma part; None where the code returns an error. */
  function PartSpan(part: string, min: int, max: int): Option<Span> {
    match (StepOf(part), Ends(BodyOf(part), min, max))
    case (Some(step), Some((lo, hi))) => Bounded(lo, hi, step, min, max)
    case _ => None
  }

  function SpanOption(s: Option<Span>): Option<Mask> {
    match s case Some(span) => Some(Steps(span.lo, span.hi, span.step)) case None => None
  }

  function Both(a: Option<Mask>, b: Option<Mask>): Option<Mask> {
    match (a, b) case (Some(x), Some(y)) => Some(x + y) case _ => None
  }

  function PartsMask(parts: seq<string>, min: int, max: int): Option<Mask> {
    if parts == [] then Some({})
    else Both(PartsMask(parts[..|parts| - 1], min, max), SpanOption(PartSpan(parts[|parts| - 1], min, max)))
  }

  function FieldMask(field: string, min: int, max: int): Option<Mask> {
    PartsMask(Split(field, ','), min, max)
  }

  function ParseFields(fields: seq<string>): Option<Expression> {
    if |fields| != 5 then None
    else
      match (FieldMask(fields[0], 0, 59), FieldMask(fields[1], 0, 23), FieldMask(fields[2], 1, 31),
             FieldMask(fields[3], 1, 12), FieldMask(fields[4], 0, 6))
      case (Some(mi), Some(h), Some(dom), Some(mo), Some(dow)) => Some(Expression(mi, h, dom, mo, dow))
      case _ => None
  }

  // ----- the parser -----

  method FillRangeStep(lo: int, hi: int, step: int) returns (mask: Mask)
    requires step > 0
    ensures mask == Steps(lo, hi, step)
  {
    mask := {};
    var i := lo;
    while i <= hi
      invariant mask + Steps(i, hi, step) == Steps(lo, hi, step)
      decreases hi - i
    {
      mask := mask + {i};
      i := i + step;
    }
  }

  /** The lo and hi of a part, its step taken off. */
  method ParseEnds(text: string, min: int, max: int) returns (r: Option<(int, int)>)
    ensures r == Ends(text, min, max)
  {
    var lo, hi := min, max;
    if text != "*" {
      var dash := IndexOf(text, '-');
      if dash >= 0 {
        var a := Atoi(text[..dash]);
        if a.None? {
          return None;
        }
        lo := a.value;
        var b := Atoi(text[dash + 1..]);
        if b.None? {
          return None;
        }
        hi := b.value;
      } else {
        var v := Atoi(text);
        if v.None? {
          return None;
        }
        lo, hi := v.value, v.value;
      }
    }
    return Some((lo, hi));
  }

  method ParsePart(part: string, min: int, max: int) returns (r: Option<Mask>)
    ensures r == SpanOption(PartSpan(part, min, max))
  {
    var step := 1;
    var text := part;
    var slash := IndexOf(text, '/');
    if slash >= 0 {
      var s := Atoi(text[slash + 1..]);
      if s.None? || s.value <= 0 {
        return None;
      }
      step := s.value;
      text := text[..slash];
    }
    var ends := ParseEnds(text, min, max);
    if ends.None? {
      return None;
    }
    var (lo, hi) := ends.value;
    if lo < min || hi > max || lo > hi {
      return None;
    }
    var mask := FillRangeStep(lo, hi, step);
    return Some(mask);
  }

  method ParseField(field: string, min: int, max: int) returns (r: Option<Mask>)
    requires min <= max
    ensures r == FieldMask(field, min, max)
  {
    if field == "*" {
      StarField(min, max);
      var all := FillRangeStep(min, max, 1);
      return Some(all);
    }
    var mask: Mask := {};
    var parts := Split(field, ',');
    for i := 0 to |parts|
      invariant PartsMask(parts[..i], min, max) == Some(mask)
    {
      assert parts[..i + 1][..i] == parts[..i];
      var m := ParsePart(parts[i], min, max);
      if m.None? {
        PartsFail(parts, i, min, max);
        return None;
      }
      mask := mask + m.value;
    }
    assert parts[..|parts|] == parts;
    return Some(mask);
  }

  /** The shortcut for `*` agrees with reading it as a part. */
  lemma StarField(min: int, max: int)
    requires min <= max
    ensures FieldMask("*", min, max) == Some(Steps(min, max, 1))
  {
    assert IndexOf("*", ',') == -1 && IndexOf("*", '/') == -1;
    assert Split("*", ',') == ["*"] && ["*"][..0] == [];
    assert PartSpan("*", min, max) == Some(Span(min, max, 1));
    assert PartsMask(["*"], min, max) == Some({} + Steps(min, max, 1));
    assert {} + Steps(min, max, 1) == Steps(min, max, 1);
  }

  lemma {:induction false} PartsFail(parts: seq<string>, i: nat, min: int, max: int)
    requires i < |parts| && PartSpan(parts[i], min, max).None?
    ensures PartsMask(parts, min, max).None?
    decreases |parts|
  {
    if i < |parts| - 1 {
      PartsFail(parts[..|parts| - 1], i, min, max);
    }
  }

  method Parse(expr: string) returns (r: Option<Expression>)
    ensures r == ParseFields(Fields(expr))
  {
    var fields := Fields(expr);
    if |fields| != 5 {
      return None;
    }
    var minute := ParseField(fields[0], 0, 59);
    if minute.None? { return None; }
    var hour := ParseField(fields[1], 0, 23);
    if hour.None? { return None; }
    var dayOfMonth := ParseField(fields[2], 1, 31);
    if dayOfMonth.None? { return None; }
    var month := ParseField(fields[3], 1, 12);
    if month.None? { return None; }
    var dayOfWeek := ParseField(fields[4], 0, 6);
    if dayOfWeek.None? { return None; }
    return Some(Expression(minute.value, hour.value, dayOfMonth.value, month.value, dayOfWeek.value));
  }

  // ----- an accepted field is exactly the union of its parts -----

  /** v is one of lo, lo + step, lo + 2*step, ... and not above hi. */
  predicate InSpan(s: Span, v: int) {
    s.step > 0 && s.lo <= v <= s.hi && (v - s.lo) % s.step == 0
  }

  lemma ModStep(a: int, step: int)
    requires step > 0
    ensures 0 <= a < step ==> a % step == a
    ensures (a - step) % step == a % step
  {
    var q, r := (a - step) / step, (a - step) % step;
    assert a == (q + 1) * step + r;
    DivUnique(a, step, q + 1, r);
    if 0 <= a < step {
      DivUnique(a, step, 0, a);
    }
  }

  lemma DivUnique(a: int, d: int, q: int, r: int)
    requires d > 0 && a == q * d + r && 0 <= r < d
    ensures a % d == r
  {
    var k := a / d - q;
    assert k * d == r - a % d;
    assert k > 0 ==> k * d >= d;
    assert k < 0 ==> k * d <= -d;
  }

  lemma {:induction false} StepsExact(lo: int, hi: int, step: int, v: int)
    requires step > 0
    ensures v in Steps(lo, hi, step) <==> InSpan(Span(lo, hi, step), v)
    decreases hi - lo
  {
    if lo <= hi {
      StepsExact(lo + step, hi, step, v);
      ModStep(v - lo, step);
    }
  }

  predicate PartHas(part: string, min: int, max: int, v: int) {
    PartSpan(part, min, max).Some? && InSpan(PartSpan(part, min, max).value, v)
  }

  lemma PartExact(part: string, min: int, max: int, v: int)
    ensures PartHas(part, min, max, v) <==>
              SpanOption(PartSpan(part, min, max)).Some? && v in SpanOption(PartSpan(part, min, max)).value
  {
    if PartSpan(part, min, max).Some? {
      var s := PartSpan(part, min, max).value;
      StepsExact(s.lo, s.hi, s.step, v);
    }
  }

  ghost predicate AllRead(parts: seq<string>, min: int, max: int) {
    forall p :: p in parts ==> PartSpan(p, min, max).Some?
  }

  ghost predicate SomeHas(parts: seq<string>, min: int, max: int, v: int) {
    exists p :: p in parts && PartHas(p, min, max, v)
  }

  lemma {:induction false} PartsExact(parts: seq<string>, min: int, max: int, v: int)
    ensures PartsMask(parts, min, max).Some? <==> AllRead(parts, min, max)
    ensures PartsMask(parts, min, max).Some? ==>
              (v in PartsMask(parts, min, max).value <==> SomeHas(parts, min, max, v))
    decreases |parts|
  {
    if parts != [] {
      var init, last := parts[..|parts| - 1], parts[|parts| - 1];
      PartsExact(init, min, max, v);
      PartExact(last, min, max, v);
      assert forall p :: p in parts <==> p in init || p == last;
      assert AllRead(parts, min, max) <==> AllRead(init, min, max) && PartSpan(last, min, max).Some?;
      assert SomeHas(parts, min, max, v) <==> SomeHas(init, min, max, v) || PartHas(last, min, max, v);
    }
  }

  /** A field is accepted exactly when every part is, and then it holds exactly the parts' values. */
  lemma FieldExact(field: string, min: int, max: int, v: int)
    ensures FieldMask(field, min, max).Some? <==> AllRead(Split(field, ','), min, max)
    ensures FieldMask(field, min, max).Some? ==>
              (v in FieldMask(field, min, max).value <==> SomeHas(Split(field, ','), min, max, v))
  {
    PartsExact(Split(field, ','), min, max, v);
  }

  lemma PartWithin(part: string, min: int, max: int, v: int)
    ensures PartHas(part, min, max, v) ==> min <= v <= max
    ensures PartSpan(part, min, max).Some? ==> PartHas(part, min, max, PartSpan(part, min, max).value.lo)
  {
    if PartSpan(part, min, max).Some? {
      ModStep(0, PartSpan(part, min, max).value.step);
    }
  }

  /** An accepted field is not empty and stays within its limits. */
  lemma FieldUsable(field: string, min: int, max: int)
    requires FieldMask(field, min, max).Some?
    ensures Meets(FieldMask(field, min, max).value, min, max)
    ensures forall v :: v in FieldMask(field, min, max).value ==> min <= v <= max
  {
    var parts := Split(field, ',');
    FieldExact(field, min, max, 0);
    var lo := PartSpan(parts[0], min, max).value.lo;
    PartWithin(parts[0], min, max, lo);
    FieldExact(field, min, max, lo);
    assert lo in FieldMask(field, min, max).value;
    forall v | v in FieldMask(field, min, max).value ensures min <= v <= max {
      FieldExact(field, min, max, v);
      var p :| p in parts && PartHas(p, min, max, v);
      PartWithin(p, min, max, v);
    }
  }

  /** So every expression Parse accepts has a next minute (Cron.NextTotal). */
  lemma ParsedUsable(fields: seq<string>)
    requires ParseFields(fields).Some?
    ensures Usable(ParseFields(fields).value)
  {
    FieldUsable(fields[0], 0, 59);
    FieldUsable(fields[1], 0, 23);
    FieldUsable(fields[2], 1, 31);
    FieldUsable(fields[3], 1, 12);
    FieldUsable(fields[4], 0, 6);
  }
}
