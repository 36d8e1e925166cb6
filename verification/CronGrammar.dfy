/** Which texts the parser accepts and what they say, told as a grammar and not by searching. */
module CronGrammar {
  import opened StoreTypes
  import opened Cron
  import opened CronText
  import opened CronRoundTrip

  // ----- numbers -----

  function TenTo(n: nat): int {
    if n == 0 then 1 else 10 * TenTo(n - 1)
  }

  /** Digits by place value, the first one first. */
  function Number(s: string): int
    requires AllDigits(s)
  {
    if s == "" then 0 else (s[0] as int - '0' as int) * TenTo(|s| - 1) + Number(s[1..])
  }

  lemma {:induction false} NumberByLast(s: string)
    requires AllDigits(s) && s != ""
    ensures Number(s) == Number(s[..|s| - 1]) * 10 + (s[|s| - 1] as int - '0' as int)
    decreases |s|
  {
    if |s| == 1 {
      assert s[1..] == "" && s[..0] == "";
    } else {
      var init := s[..|s| - 1];
      NumberByLast(s[1..]);
      assert s[1..][..|s| - 2] == init[1..];
      var d, t := s[0] as int - '0' as int, TenTo(|s| - 2);
      assert TenTo(|s| - 1) == 10 * t;
      assert d * (10 * t) == (d * t) * 10;
    }
  }

  lemma {:induction false} ValueIsNumber(s: string)
    requires AllDigits(s)
    ensures Value(s) == Number(s)
    decreases |s|
  {
    if s != "" {
      ValueIsNumber(s[..|s| - 1]);
      NumberByLast(s);
    }
  }

  predicate Digits(s: string) {
    s != "" && AllDigits(s)
  }

  /** Digits, perhaps after a sign, for a number that fits in 64 bits. */
  predicate Numeral(s: string, v: int) {
    && -0x8000_0000_0000_0000 <= v <= 0x7FFF_FFFF_FFFF_FFFF
    && if Digits(s) then v == Number(s)
       else |s| > 1 && Digits(s[1..]) && ((s[0] == '+' && v == Number(s[1..])) || (s[0] == '-' && v == -Number(s[1..])))
  }

  lemma NumeralIff(s: string, v: int)
    ensures Atoi(s) == Some(v) <==> Numeral(s, v)
  {
    if Digits(s) {
      ValueIsNumber(s);
      assert s[0] != '+' && s[0] != '-';
    } else if |s| > 1 && Digits(s[1..]) {
      ValueIsNumber(s[1..]);
    }
  }

  // ----- one part -----

  /** The first c of s is at k. */
  predicate FirstAt(s: string, c: char, k: int) {
    0 <= k < |s| && s[k] == c && c !in s[..k]
  }

  lemma NoneBefore(s: string, c: char, k: int)
    requires 0 <= k <= |s| && c !in s[..k]
    ensures forall j :: 0 <= j < k ==> s[j] != c
  {
    forall j | 0 <= j < k ensures s[j] != c {
      assert s[..k][j] == s[j];
    }
  }

  lemma FirstIff(s: string, c: char)
    ensures forall k :: FirstAt(s, c, k) <==> k >= 0 && IndexOf(s, c) == k
    ensures c !in s <==> IndexOf(s, c) < 0
  {
    if IndexOf(s, c) >= 0 {
      NoneBefore(s, c, IndexOf(s, c));
    }
    forall k | FirstAt(s, c, k) ensures IndexOf(s, c) == k {
      NoneBefore(s, c, k);
    }
  }

  /** `*`, one number, or two numbers with a dash between them. */
  ghost predicate BodyIs(body: string, lo: int, hi: int, min: int, max: int) {
    || (body == "*" && lo == min && hi == max)
    || ('-' !in body && Numeral(body, lo) && hi == lo)
    || exists k :: FirstAt(body, '-', k) && Numeral(body[..k], lo) && Numeral(body[k + 1..], hi)
  }

  /** A body and perhaps a step, with 0 < step and min <= lo <= hi <= max. */
  ghost predicate PartIs(part: string, s: Span, min: int, max: int) {
    && s.step > 0 && min <= s.lo <= s.hi <= max
    && (('/' !in part && s.step == 1 && BodyIs(part, s.lo, s.hi, min, max))
        || exists k :: FirstAt(part, '/', k) && Numeral(part[k + 1..], s.step) && BodyIs(part[..k], s.lo, s.hi, min, max))
  }

  lemma OneNumber(body: string, lo: int, hi: int, min: int, max: int)
    requires '-' !in body && body != "*"
    ensures Ends(body, min, max) == Some((lo, hi)) <==> Numeral(body, lo) && hi == lo
  {
    FirstIff(body, '-');
    NumeralIff(body, lo);
    NumeralIff(body, hi);
  }

  lemma TwoNumbers(body: string, dash: int, lo: int, hi: int, min: int, max: int)
    requires FirstAt(body, '-', dash)
    ensures Ends(body, min, max) == Some((lo, hi)) <==> Numeral(body[..dash], lo) && Numeral(body[dash + 1..], hi)
  {
    FirstIff(body, '-');
    NumeralIff(body[..dash], lo);
    NumeralIff(body[dash + 1..], hi);
  }

  lemma BodyIff(body: string, lo: int, hi: int, min: int, max: int)
    ensures Ends(body, min, max) == Some((lo, hi)) <==> BodyIs(body, lo, hi, min, max)
  {
    FirstIff(body, '-');
    if '-' in body {
      TwoNumbers(body, IndexOf(body, '-'), lo, hi, min, max);
    } else if body != "*" {
      OneNumber(body, lo, hi, min, max);
    }
  }

  /** A part is accepted with a span exactly when the grammar gives it that span. */
  lemma PartIff(part: string, s: Span, min: int, max: int)
    ensures PartSpan(part, min, max) == Some(s) <==> PartIs(part, s, min, max)
  {
    var slash := IndexOf(part, '/');
    FirstIff(part, '/');
    BodyIff(BodyOf(part), s.lo, s.hi, min, max);
    if slash >= 0 {
      NumeralIff(part[slash + 1..], s.step);
    }
  }

  // ----- parts and fields -----

  /** Splitting at commas gives the one way to write the text as comma-free parts. */
  lemma {:induction false} SplitIff(s: string, sep: char, parts: seq<string>)
    ensures Split(s, sep) == parts
            <==> |parts| > 0 && (forall i :: 0 <= i < |parts| ==> sep !in parts[i]) && Join(parts, sep) == s
    decreases |s|
  {
    SplitJoins(s, sep);
    if |parts| > 0 && (forall i :: 0 <= i < |parts| ==> sep !in parts[i]) && Join(parts, sep) == s {
      forall i | 0 <= i < |parts| ensures Apart(parts[i], sep) {}
      SplitOfJoin(parts, sep);
    }
  }

  lemma {:induction false} SplitJoins(s: string, sep: char)
    ensures (forall i :: 0 <= i < |Split(s, sep)| ==> sep !in Split(s, sep)[i]) && Join(Split(s, sep), sep) == s
    decreases |s|
  {
    var i := IndexOf(s, sep);
    if i >= 0 {
      SplitJoins(s[i + 1..], sep);
      assert s == s[..i] + [sep] + s[i + 1..];
      assert ([s[..i]] + Split(s[i + 1..], sep))[1..] == Split(s[i + 1..], sep);
    }
  }

  /** Blanks, tabs and line ends. */
  predicate Gap(s: string) {
    forall i :: 0 <= i < |s| ==> s[i] in {' ', '\t', '\n', '\r'}
  }

  /** Each word after its gap, and one more gap at the end. */
  function Spaced(gaps: seq<string>, words: seq<string>, end: string): string
    requires |gaps| == |words|
  {
    if words == [] then end else gaps[0] + words[0] + Spaced(gaps[1..], words[1..], end)
  }

  lemma {:induction false} GapSkipped(gap: string, rest: string)
    requires Gap(gap)
    ensures FieldsFrom(gap + rest, "") == FieldsFrom(rest, "")
    decreases |gap|
  {
    if gap == "" {
      assert gap + rest == rest;
    } else {
      assert (gap + rest)[0] == gap[0] && (gap + rest)[1..] == gap[1..] + rest;
      GapSkipped(gap[1..], rest);
    }
  }

  /** What follows a word begins with a blank, which the word's end takes with it. */
  lemma RestStartsBlank(gaps: seq<string>, words: seq<string>, end: string)
    requires |gaps| == |words| && Gap(end)
    requires forall i :: 0 <= i < |gaps| ==> Gap(gaps[i]) && gaps[i] != ""
    ensures var s := Spaced(gaps, words, end); s == "" || (IsSpace(s[0]) && FieldsFrom(s, "") == FieldsFrom(s[1..], ""))
  {
    var s := Spaced(gaps, words, end);
    if words != [] {
      assert s[0] == gaps[0][0];
    }
  }

  /** However a line is spaced, its words are read, and nothing else. */
  lemma {:induction false} SpacingIsIdle(gaps: seq<string>, words: seq<string>, end: string)
    requires |gaps| == |words| && Gap(end)
    requires forall i :: 0 <= i < |gaps| ==> Gap(gaps[i]) && Solid(words[i]) && (i > 0 ==> gaps[i] != "")
    ensures Fields(Spaced(gaps, words, end)) == words
    decreases |words|
  {
    if words == [] {
      GapSkipped(end, "");
      assert end + "" == end;
    } else {
      var rest := Spaced(gaps[1..], words[1..], end);
      GapSkipped(gaps[0], words[0] + rest);
      assert gaps[0] + words[0] + rest == gaps[0] + (words[0] + rest);
      RestStartsBlank(gaps[1..], words[1..], end);
      FieldsOfWord(words[0], "", rest);
      SpacingIsIdle(gaps[1..], words[1..], end);
      assert "" + words[0] == words[0] && [words[0]] + words[1..] == words;
    }
  }

  /** An expression has exactly five words, and each is a field within its own limits. */
  lemma ExpressionIff(words: seq<string>, e: Expression)
    ensures ParseFields(words) == Some(e)
            <==> |words| == 5 && FieldMask(words[0], 0, 59) == Some(e.minute) && FieldMask(words[1], 0, 23) == Some(e.hour)
                 && FieldMask(words[2], 1, 31) == Some(e.dayOfMonth) && FieldMask(words[3], 1, 12) == Some(e.month)
                 && FieldMask(words[4], 0, 6) == Some(e.dayOfWeek)
  {
  }
}
