/**
  * The technical indicators, over the reals. A slot the code leaves as not-a-number during
  * warm-up is None; an exception for bad arguments is None for the whole result.
  */
module Indicators {
  import opened StoreTypes

  type Series = seq<Option<real>>

  function Blank(n: nat): (r: Series)
    ensures |r| == n && forall i :: 0 <= i < n ==> r[i] == None
  {
    seq(n, _ => None)
  }

  // ----- what the indicators are -----

  /** prices[lo] + ... + prices[hi-1] */
  function Sum(prices: seq<real>, lo: nat, hi: nat): real
    requires lo <= hi <= |prices|
  {
    if lo == hi then 0.0 else Sum(prices, lo, hi - 1) + prices[hi - 1]
  }

  function Average(sum: real, n: nat): real
    requires n > 0
  {
    sum / n as real
  }

  /** The weight of a new price. */
  function Multiplier(period: nat): real {
    2.0 / (period as real + 1.0)
  }

  /** A step from `last` towards x, a fraction f of the way. */
  function Blend(x: real, last: real, f: real): real {
    (x - last) * f + last
  }

  /** The mean of the window of this many prices that ends at i. */
  function Mean(prices: seq<real>, period: nat, i: nat): real
    requires 0 < period <= i + 1 <= |prices|
  {
    Average(Sum(prices, i + 1 - period, i + 1), period)
  }

  /** Seeded with a mean, then each price pulls the average towards itself. */
  function EmaAt(prices: seq<real>, period: nat, i: nat): real
    requires 0 < period <= i + 1 <= |prices|
  {
    if i + 1 == period then Mean(prices, period, i)
    else Blend(prices[i], EmaAt(prices, period, i - 1), Multiplier(period))
  }

  predicate IsSma(prices: seq<real>, period: nat, r: Series) {
    && 0 < period && |r| == |prices|
    && forall i {:trigger r[i]} :: 0 <= i < |r| ==>
         r[i] == if i + 1 < period then None else Some(Mean(prices, period, i))
  }

  predicate IsEma(prices: seq<real>, period: nat, r: Series) {
    && 0 < period && |r| == |prices|
    && forall i {:trigger r[i]} :: 0 <= i < |r| ==>
         r[i] == if i + 1 < period then None else Some(EmaAt(prices, period, i))
  }

  // ----- moving averages -----

  /** The rolling sum drops the oldest price as it takes the newest. */
  lemma {:induction false} SumSlides(prices: seq<real>, lo: nat, hi: nat)
    requires lo < hi <= |prices|
    ensures Sum(prices, lo, hi) == prices[lo] + Sum(prices, lo + 1, hi)
    decreases hi
  {
    if lo + 1 < hi {
      SumSlides(prices, lo, hi - 1);
    }
  }

  method Sma(prices: seq<real>, period: int) returns (result: Option<Series>)
    ensures result.Some? <==> 0 < period <= |prices|
    ensures result.Some? ==> IsSma(prices, period, result.value)
  {
    if period <= 0 || |prices| < period {
      return None;
    }
    var r := Blank(|prices|);
    var windowSum := 0.0;
    for i := 0 to |prices|
      invariant |r| == |prices|
      invariant windowSum == Sum(prices, if i < period then 0 else i - period, i)
      invariant forall k {:trigger r[k]} :: 0 <= k < |r| ==>
        r[k] == if k >= i || k + 1 < period then None else Some(Mean(prices, period, k))
    {
      windowSum := windowSum + prices[i];
      if i >= period {
        SumSlides(prices, i - period, i + 1);
        windowSum := windowSum - prices[i - period];
      }
      if i + 1 >= period {
        r := r[i := Some(Average(windowSum, period))];
      }
    }
    return Some(r);
  }

  method Ema(prices: seq<real>, period: int) returns (result: Option<Series>)
    ensures result.Some? <==> 0 < period <= |prices|
    ensures result.Some? ==> IsEma(prices, period, result.value)
  {
    if period <= 0 || |prices| < period {
      return None;
    }
    var r := Blank(|prices|);
    var sum := 0.0;
    for i := 0 to period
      invariant sum == Sum(prices, 0, i)
    {
      sum := sum + prices[i];
    }
    var seed := period - 1;
    r := r[seed := Some(Average(sum, period))];
    var multiplier := Multiplier(period);
    for i := seed + 1 to |prices|
      invariant |r| == |prices|
      invariant forall k {:trigger r[k]} :: 0 <= k < |r| ==>
        r[k] == if k >= i || k + 1 < period then None else Some(EmaAt(prices, period, k))
    {
      assert r[i - 1] == Some(EmaAt(prices, period, i - 1));
      r := r[i := Some(Blend(prices[i], r[i - 1].value, multiplier))];
    }
    return Some(r);
  }

  /** All prices up to i lie in lo .. hi. */
  predicate Within(prices: seq<real>, i: nat, lo: real, hi: real) {
    forall k :: 0 <= k < |prices| && k <= i ==> lo <= prices[k] <= hi
  }

  lemma {:induction false} SumWithin(prices: seq<real>, a: nat, b: nat, lo: real, hi: real)
    requires a <= b <= |prices| && forall k :: a <= k < b ==> lo <= prices[k] <= hi
    ensures lo * (b - a) as real <= Sum(prices, a, b) <= hi * (b - a) as real
    decreases b
  {
    if a < b {
      SumWithin(prices, a, b - 1, lo, hi);
      var n := (b - 1 - a) as real;
      assert (b - a) as real == n + 1.0;
      assert lo * (n + 1.0) == lo * n + lo && hi * (n + 1.0) == hi * n + hi;
    }
  }

  lemma AverageWithin(s: real, n: nat, lo: real, hi: real)
    requires n > 0 && lo * n as real <= s <= hi * n as real
    ensures lo <= Average(s, n) <= hi
  {
    var q, n := Average(s, n), n as real;
    assert q * n == s;
    assert q < lo ==> q * n < lo * n;
    assert q > hi ==> q * n > hi * n;
  }

  lemma MeanWithin(prices: seq<real>, period: nat, i: nat, lo: real, hi: real)
    requires 0 < period <= i + 1 <= |prices| && Within(prices, i, lo, hi)
    ensures lo <= Mean(prices, period, i) <= hi
  {
    SumWithin(prices, i + 1 - period, i + 1, lo, hi);
    AverageWithin(Sum(prices, i + 1 - period, i + 1), period, lo, hi);
  }

  lemma ProductNonNegative(a: real, b: real)
    requires a >= 0.0 && b >= 0.0
    ensures a * b >= 0.0
  {
  }

  /** A step towards x by a fraction of the way stays between. */
  lemma BlendWithin(x: real, last: real, f: real, lo: real, hi: real)
    requires lo <= x <= hi && lo <= last <= hi && 0.0 <= f <= 1.0
    ensures lo <= Blend(x, last, f) <= hi
  {
    var y := Blend(x, last, f);
    ProductNonNegative(x - lo, f);
    ProductNonNegative(hi - x, f);
    ProductNonNegative(last - lo, 1.0 - f);
    ProductNonNegative(hi - last, 1.0 - f);
    assert y - lo == (x - lo) * f + (last - lo) * (1.0 - f);
    assert hi - y == (hi - x) * f + (hi - last) * (1.0 - f);
  }

  lemma MultiplierWithin(period: nat)
    requires period > 0
    ensures 0.0 < Multiplier(period) <= 1.0
  {
  }

  /** An exponential average never leaves the range of the prices so far. */
  lemma {:induction false} EmaWithin(prices: seq<real>, period: nat, i: nat, lo: real, hi: real)
    requires 0 < period <= i + 1 <= |prices| && Within(prices, i, lo, hi)
    ensures lo <= EmaAt(prices, period, i) <= hi
    decreases i
  {
    if i + 1 == period {
      MeanWithin(prices, period, i, lo, hi);
    } else {
      EmaWithin(prices, period, i - 1, lo, hi);
      MultiplierWithin(period);
      BlendWithin(prices[i], EmaAt(prices, period, i - 1), Multiplier(period), lo, hi);
    }
  }

  // ----- MACD -----

  datatype MacdResult = MacdResult(macd: Series, signal: Series, histogram: Series)

  /** The MACD line from its first defined slot on. */
  function MacdLine(prices: seq<real>, fast: nat, slow: nat): (line: seq<real>)
    requires 0 < fast < slow <= |prices|
    ensures |line| == |prices| - (slow - 1)
    ensures forall k :: 0 <= k < |line| ==>
              line[k] == EmaAt(prices, fast, slow - 1 + k) - EmaAt(prices, slow, slow - 1 + k)
  {
    seq(|prices| - (slow - 1), k requires 0 <= k < |prices| - (slow - 1) =>
      EmaAt(prices, fast, slow - 1 + k) - EmaAt(prices, slow, slow - 1 + k))
  }

  /** The first n slots are empty, the rest hold `values`. */
  predicate Delayed(r: Series, n: nat, values: seq<real>) {
    && |r| == n + |values| && (forall i :: 0 <= i < n ==> r[i] == None)
    && forall k :: 0 <= k < |values| ==> r[n + k] == Some(values[k])
  }

  /** The EMA values of a line, from the first defined one on. */
  function EmaLine(line: seq<real>, period: nat): (e: seq<real>)
    requires 0 < period <= |line|
    ensures |e| == |line| - (period - 1) && forall k :: 0 <= k < |e| ==> e[k] == EmaAt(line, period, period - 1 + k)
  {
    seq(|line| - (period - 1), k requires 0 <= k < |line| - (period - 1) => EmaAt(line, period, period - 1 + k))
  }

  function Minus(a: seq<real>, b: seq<real>): (d: seq<real>)
    requires |a| >= |b|
    ensures |d| == |b| && forall k :: 0 <= k < |d| ==> d[k] == a[|a| - |b| + k] - b[k]
  {
    seq(|b|, k requires 0 <= k < |b| => a[|a| - |b| + k] - b[k])
  }

  /** The signal line, computed inline, is the EMA of the MACD line; the histogram is their difference. */
  predicate IsMacd(prices: seq<real>, fast: nat, slow: nat, period: nat, r: MacdResult)
    requires 0 < fast < slow && 0 < period && slow + period <= |prices|
  {
    var line := MacdLine(prices, fast, slow);
    var signal := EmaLine(line, period);
    && Delayed(r.macd, slow - 1, line)
    && Delayed(r.signal, slow - 1 + period - 1, signal)
    && Delayed(r.histogram, slow - 1 + period - 1, Minus(line, signal))
  }

  lemma MacdAssembled(prices: seq<real>, fast: nat, slow: nat, period: nat, r: MacdResult, line: seq<real>, ema: seq<real>)
    requires 0 < fast < slow && 0 < period && slow + period <= |prices|
    requires line == MacdLine(prices, fast, slow) && ema == EmaLine(line, period)
    requires Delayed(r.macd, slow - 1, line) && Delayed(r.signal, slow - 1 + period - 1, ema)
    requires Delayed(r.histogram, slow - 1 + period - 1, Minus(line, ema))
    ensures IsMacd(prices, fast, slow, period, r)
  {
  }

  method Macd(prices: seq<real>, fast: int, slow: int, signalPeriod: int) returns (result: Option<MacdResult>)
    ensures result.Some? <==> 0 < fast < slow && 0 < signalPeriod && slow + signalPeriod <= |prices|
    ensures result.Some? ==> IsMacd(prices, fast, slow, signalPeriod, result.value)
  {
    if fast <= 0 || slow <= 0 || signalPeriod <= 0 || fast >= slow || |prices| < slow + signalPeriod {
      return None;
    }
    var fastEma := Ema(prices, fast);
    var slowEma := Ema(prices, slow);
    ghost var line := MacdLine(prices, fast, slow);
    var macd := MacdSlots(prices, fast, slow, fastEma.value, slowEma.value, line);
    var start := slow - 1;
    var seedSum := SeedSum(macd, start, signalPeriod, line);
    ghost var ema := EmaLine(line, signalPeriod);
    var signal := SignalSlots(macd, start, signalPeriod, seedSum, line, ema);
    var histogram := HistogramSlots(macd, signal, start, start + signalPeriod - 1, line, ema);
    MacdAssembled(prices, fast, slow, signalPeriod, MacdResult(macd, signal, histogram), line, ema);
    return Some(MacdResult(macd, signal, histogram));
  }

  /** The slots from n to i - 1 are filled with the first values, all others are empty. */
  predicate Filled(r: Series, n: nat, i: nat, values: seq<real>) {
    && |r| == n + |values| && n <= i <= |r|
    && (forall k :: 0 <= k < |r| && (k < n || k >= i) ==> r[k] == None)
    && forall k {:trigger values[k]} :: 0 <= k < i - n ==> r[n + k] == Some(values[k])
  }

  lemma FilledMore(r: Series, n: nat, i: nat, values: seq<real>)
    requires Filled(r, n, i, values) && i < |r|
    ensures Filled(r[i := Some(values[i - n])], n, i + 1, values)
  {
  }

  lemma FilledAll(r: Series, n: nat, values: seq<real>)
    requires Filled(r, n, |r|, values)
    ensures Delayed(r, n, values)
  {
    forall k | 0 <= k < |values| ensures r[n + k] == Some(values[k]) {
      assert values[k] == values[k];
    }
  }

  /** The loop that takes fast EMA minus slow EMA. */
  method MacdSlots(prices: seq<real>, fast: nat, slow: nat, fastEma: Series, slowEma: Series, ghost line: seq<real>)
    returns (macd: Series)
    requires 0 < fast < slow <= |prices| && IsEma(prices, fast, fastEma) && IsEma(prices, slow, slowEma)
    requires line == MacdLine(prices, fast, slow)
    ensures Delayed(macd, slow - 1, line)
  {
    macd := Blank(|prices|);
    for i := slow - 1 to |prices|
      invariant Filled(macd, slow - 1, i, line)
    {
      FilledMore(macd, slow - 1, i, line);
      assert line[i - (slow - 1)] == fastEma[i].value - slowEma[i].value;
      macd := macd[i := Some(fastEma[i].value - slowEma[i].value)];
    }
    FilledAll(macd, slow - 1, line);
  }

  method SeedSum(macd: Series, start: nat, period: nat, ghost line: seq<real>) returns (seedSum: real)
    requires 0 < period <= |line| && Delayed(macd, start, line)
    ensures seedSum == Sum(line, 0, period)
  {
    seedSum := 0.0;
    for i := start to start + period
      invariant seedSum == Sum(line, 0, i - start)
    {
      assert macd[start + (i - start)] == Some(line[i - start]);
      seedSum := seedSum + macd[i].value;
    }
  }

  /** The signal line: its seed, then the smoothing loop. */
  method SignalSlots(macd: Series, start: nat, period: nat, seedSum: real, ghost line: seq<real>, ghost ema: seq<real>)
    returns (signal: Series)
    requires 0 < period <= |line| && Delayed(macd, start, line) && seedSum == Sum(line, 0, period)
    requires ema == EmaLine(line, period)
    ensures Delayed(signal, start + period - 1, ema)
  {
    var seed := start + period - 1;
    signal := Blank(|macd|);
    FilledMore(signal, seed, seed, ema);
    assert ema[0] == Mean(line, period, period - 1);
    signal := signal[seed := Some(Average(seedSum, period))];
    var multiplier := Multiplier(period);
    for i := seed + 1 to |macd|
      invariant Filled(signal, seed, i, ema)
    {
      FilledMore(signal, seed, i, ema);
      assert ema[i - seed] == EmaAt(line, period, i - start);
      assert macd[start + (i - start)] == Some(line[i - start]);
      assert signal[seed + (i - 1 - seed)] == Some(ema[i - 1 - seed]);
      signal := signal[i := Some(Blend(macd[i].value, signal[i - 1].value, multiplier))];
    }
    FilledAll(signal, seed, ema);
  }

  /** The last loop: MACD line minus signal line. */
  method HistogramSlots(macd: Series, signal: Series, start: nat, seed: nat, ghost line: seq<real>, ghost ema: seq<real>)
    returns (histogram: Series)
    requires start <= seed && Delayed(macd, start, line) && Delayed(signal, seed, ema) && |macd| == |signal|
    ensures Delayed(histogram, seed, Minus(line, ema))
  {
    histogram := Blank(|macd|);
    for i := seed to |macd|
      invariant Filled(histogram, seed, i, Minus(line, ema))
    {
      FilledMore(histogram, seed, i, Minus(line, ema));
      assert macd[start + (i - start)] == Some(line[i - start]);
      assert signal[seed + (i - seed)] == Some(ema[i - seed]);
      histogram := histogram[i := Some(macd[i].value - signal[i].value)];
    }
    FilledAll(histogram, seed, Minus(line, ema));
  }

  // ----- averages move with the prices -----

  /** Every price moved by c. */
  function Shifted(prices: seq<real>, c: real): (q: seq<real>)
    ensures |q| == |prices| && forall k :: 0 <= k < |q| ==> q[k] == prices[k] + c
  {
    seq(|prices|, k requires 0 <= k < |prices| => prices[k] + c)
  }

  lemma {:induction false} SumShifted(prices: seq<real>, c: real, lo: nat, n: nat)
    requires lo + n <= |prices|
    ensures Sum(Shifted(prices, c), lo, lo + n) == Sum(prices, lo, lo + n) + c * n as real
    decreases n
  {
    if n > 0 {
      SumShifted(prices, c, lo, n - 1);
      var m := (n - 1) as real;
      assert c * (m + 1.0) == c * m + c;
    }
  }

  lemma AverageShifted(s: real, s': real, n: nat, c: real)
    requires n > 0 && s' == s + c * n as real
    ensures Average(s', n) == Average(s, n) + c
  {
    var q, d := Average(s, n), n as real;
    assert s == q * d;
    assert s' == (q + c) * d;
    assert (q + c) * d / d == q + c;
  }

  lemma BlendShifted(x: real, last: real, f: real, c: real)
    ensures Blend(x + c, last + c, f) == Blend(x, last, f) + c
  {
    assert x + c - (last + c) == x - last;
  }

  /** An exponential average moves with the prices. */
  lemma {:induction false} EmaShifted(prices: seq<real>, c: real, period: nat, i: nat)
    requires 0 < period <= i + 1 <= |prices|
    ensures EmaAt(Shifted(prices, c), period, i) == EmaAt(prices, period, i) + c
    decreases i
  {
    var q := Shifted(prices, c);
    if i + 1 == period {
      SumShifted(prices, c, 0, period);
      AverageShifted(Sum(prices, 0, period), Sum(q, 0, period), period, c);
    } else {
      EmaShifted(prices, c, period, i - 1);
      BlendShifted(prices[i], EmaAt(prices, period, i - 1), Multiplier(period), c);
    }
  }

  /** So adding a constant to all prices leaves the MACD line as it is. */
  lemma MacdShifted(prices: seq<real>, c: real, fast: nat, slow: nat)
    requires 0 < fast < slow <= |prices|
    ensures MacdLine(Shifted(prices, c), fast, slow) == MacdLine(prices, fast, slow)
  {
    var q := Shifted(prices, c);
    forall k | 0 <= k < |prices| - (slow - 1)
      ensures MacdLine(q, fast, slow)[k] == MacdLine(prices, fast, slow)[k]
    {
      EmaShifted(prices, c, fast, slow - 1 + k);
      EmaShifted(prices, c, slow, slow - 1 + k);
    }
  }

  // ----- RSI -----

  function Gain(prices: seq<real>, i: nat): (g: real)
    requires 0 < i < |prices|
    ensures g >= 0.0
  {
    if prices[i] > prices[i - 1] then prices[i] - prices[i - 1] else 0.0
  }

  function Loss(prices: seq<real>, i: nat): (l: real)
    requires 0 < i < |prices|
    ensures l >= 0.0
  {
    if prices[i] < prices[i - 1] then prices[i - 1] - prices[i] else 0.0
  }

  /** The first n gains and losses, added up. */
  function GainSum(prices: seq<real>, n: nat): (g: real)
    requires n < |prices|
    ensures g >= 0.0
  {
    if n == 0 then 0.0 else GainSum(prices, n - 1) + Gain(prices, n)
  }

  function LossSum(prices: seq<real>, n: nat): (l: real)
    requires n < |prices|
    ensures l >= 0.0
  {
    if n == 0 then 0.0 else LossSum(prices, n - 1) + Loss(prices, n)
  }

  /** Wilder's smoothing: the new value counts once, the average so far period - 1 times. */
  function Smooth(last: real, x: real, period: nat): real
    requires period > 0
  {
    Average(last * (period - 1) as real + x, period)
  }

  lemma AverageNonNegative(s: real, n: nat)
    requires n > 0 && s >= 0.0
    ensures Average(s, n) >= 0.0
  {
  }

  lemma SmoothNonNegative(last: real, x: real, period: nat)
    requires period > 0 && last >= 0.0 && x >= 0.0
    ensures Smooth(last, x, period) >= 0.0
  {
    ProductNonNegative(last, (period - 1) as real);
    AverageNonNegative(last * (period - 1) as real + x, period);
  }

  function AvgGain(prices: seq<real>, period: nat, i: nat): (g: real)
    requires 0 < period <= i < |prices|
  {
    if i == period then Average(GainSum(prices, period), period)
    else Smooth(AvgGain(prices, period, i - 1), Gain(prices, i), period)
  }

  function AvgLoss(prices: seq<real>, period: nat, i: nat): (l: real)
    requires 0 < period <= i < |prices|
  {
    if i == period then Average(LossSum(prices, period), period)
    else Smooth(AvgLoss(prices, period, i - 1), Loss(prices, i), period)
  }

  /** The index of an average gain and an average loss. */
  function Strength(gain: real, loss: real): real
    requires gain >= 0.0 && loss >= 0.0
  {
    if loss == 0.0 then 100.0 else 100.0 - 100.0 / (1.0 + gain / loss)
  }

  lemma {:induction false} AveragesNonNegative(prices: seq<real>, period: nat, i: nat)
    requires 0 < period <= i < |prices|
    ensures AvgGain(prices, period, i) >= 0.0 && AvgLoss(prices, period, i) >= 0.0
    decreases i
  {
    if i == period {
      AverageNonNegative(GainSum(prices, period), period);
      AverageNonNegative(LossSum(prices, period), period);
    } else {
      AveragesNonNegative(prices, period, i - 1);
      SmoothNonNegative(AvgGain(prices, period, i - 1), Gain(prices, i), period);
      SmoothNonNegative(AvgLoss(prices, period, i - 1), Loss(prices, i), period);
    }
  }

  function RsiAt(prices: seq<real>, period: nat, i: nat): real
    requires 0 < period <= i < |prices|
  {
    AveragesNonNegative(prices, period, i);
    Strength(AvgGain(prices, period, i), AvgLoss(prices, period, i))
  }

  predicate IsRsi(prices: seq<real>, period: nat, r: Series) {
    && 0 < period && |r| == |prices|
    && forall i {:trigger r[i]} :: 0 <= i < |r| ==> r[i] == if i < period then None else Some(RsiAt(prices, period, i))
  }

  method Rsi(prices: seq<real>, period: int) returns (result: Option<Series>)
    ensures result.Some? <==> 0 < period && period + 1 <= |prices|
    ensures result.Some? ==> IsRsi(prices, period, result.value)
  {
    if period <= 0 || |prices| < period + 1 {
      return None;
    }
    var r := Blank(|prices|);
    var avgGain, avgLoss := 0.0, 0.0;
    for i := 1 to period + 1
      invariant avgGain == GainSum(prices, i - 1) && avgLoss == LossSum(prices, i - 1)
    {
      var change := prices[i] - prices[i - 1];
      if change >= 0.0 {
        avgGain := avgGain + change;
      } else {
        avgLoss := avgLoss - change;
      }
    }
    avgGain := Average(avgGain, period);
    avgLoss := Average(avgLoss, period);
    AveragesNonNegative(prices, period, period);
    r := r[period := Some(Strength(avgGain, avgLoss))];
    for i := period + 1 to |prices|
      invariant |r| == |prices|
      invariant avgGain == AvgGain(prices, period, i - 1) && avgLoss == AvgLoss(prices, period, i - 1)
      invariant forall k {:trigger r[k]} :: 0 <= k < |r| ==>
        r[k] == if k >= i || k < period then None else Some(RsiAt(prices, period, k))
    {
      var change := prices[i] - prices[i - 1];
      var gain := if change > 0.0 then change else 0.0;
      var loss := if change < 0.0 then -change else 0.0;
      avgGain := Smooth(avgGain, gain, period);
      avgLoss := Smooth(avgLoss, loss, period);
      AveragesNonNegative(prices, period, i);
      r := r[i := Some(Strength(avgGain, avgLoss))];
    }
    return Some(r);
  }

  /** Strength is the share of the gain, in percent; 100 when nothing was lost, even if nothing was gained. */
  lemma StrengthIsShare(gain: real, loss: real)
    requires gain >= 0.0 && loss >= 0.0
    ensures 0.0 <= Strength(gain, loss) <= 100.0
    ensures loss > 0.0 ==> Strength(gain, loss) * (gain + loss) == 100.0 * gain
    ensures Strength(gain, loss) == 100.0 <==> loss == 0.0
  {
    if loss > 0.0 {
      var q := gain / loss;
      assert q * loss == gain && q >= 0.0;
      var p := 100.0 / (1.0 + q);
      assert p * (1.0 + q) == 100.0;
      PartOfHundred(p, q);
      assert (100.0 - p) * (q * loss + loss) == (100.0 * (1.0 + q) - p * (1.0 + q)) * loss;
    }
  }

  lemma PartOfHundred(p: real, q: real)
    requires q >= 0.0 && p * (1.0 + q) == 100.0
    ensures 0.0 < p <= 100.0
  {
    assert p > 100.0 ==> p * (1.0 + q) >= p;
    assert p <= 0.0 ==> p * (1.0 + q) <= 0.0;
  }

  /** Every defined RSI lies in 0 .. 100, and is 100 exactly when no loss is left in the average. */
  lemma RsiWithin(prices: seq<real>, period: nat, i: nat)
    requires 0 < period <= i < |prices|
    ensures 0.0 <= RsiAt(prices, period, i) <= 100.0
    ensures RsiAt(prices, period, i) == 100.0 <==> AvgLoss(prices, period, i) == 0.0
  {
    AveragesNonNegative(prices, period, i);
    StrengthIsShare(AvgGain(prices, period, i), AvgLoss(prices, period, i));
  }

  function Mirrored(prices: seq<real>): (q: seq<real>)
    ensures |q| == |prices| && forall k :: 0 <= k < |q| ==> q[k] == -prices[k]
  {
    seq(|prices|, k requires 0 <= k < |prices| => -prices[k])
  }

  lemma {:induction false} SumsMirrored(prices: seq<real>, n: nat)
    requires n < |prices|
    ensures GainSum(Mirrored(prices), n) == LossSum(prices, n) && LossSum(Mirrored(prices), n) == GainSum(prices, n)
    decreases n
  {
    if n > 0 {
      SumsMirrored(prices, n - 1);
    }
  }

  lemma {:induction false} AveragesMirrored(prices: seq<real>, period: nat, i: nat)
    requires 0 < period <= i < |prices|
    ensures AvgGain(Mirrored(prices), period, i) == AvgLoss(prices, period, i)
    ensures AvgLoss(Mirrored(prices), period, i) == AvgGain(prices, period, i)
    decreases i
  {
    if i == period {
      SumsMirrored(prices, period);
    } else {
      AveragesMirrored(prices, period, i - 1);
      assert Gain(Mirrored(prices), i) == Loss(prices, i) && Loss(Mirrored(prices), i) == Gain(prices, i);
    }
  }

  lemma SharesAddUp(gain: real, loss: real)
    requires gain > 0.0 && loss > 0.0
    ensures Strength(gain, loss) + Strength(loss, gain) == 100.0
  {
    StrengthIsShare(gain, loss);
    StrengthIsShare(loss, gain);
    var x, y, s := Strength(gain, loss), Strength(loss, gain), gain + loss;
    assert y * (loss + gain) == y * s;
    assert (x + y - 100.0) * s == x * s + y * s - 100.0 * s == 0.0;
  }

  lemma SharesOfOne(x: real)
    requires x > 0.0
    ensures Strength(0.0, x) == 0.0 && Strength(x, 0.0) == 100.0
  {
    assert 0.0 / x == 0.0;
  }

  /** Upside down, the index is its complement exactly when the averages hold any change at all. */
  lemma RsiMirroredIff(prices: seq<real>, period: nat, i: nat)
    requires 0 < period <= i < |prices|
    ensures RsiAt(Mirrored(prices), period, i) == 100.0 - RsiAt(prices, period, i)
            <==> !(AvgGain(prices, period, i) == 0.0 && AvgLoss(prices, period, i) == 0.0)
  {
    var gain, loss := AvgGain(prices, period, i), AvgLoss(prices, period, i);
    AveragesMirrored(prices, period, i);
    AveragesNonNegative(prices, period, i);
    if gain > 0.0 && loss > 0.0 {
      SharesAddUp(gain, loss);
    } else if gain > 0.0 {
      SharesOfOne(gain);
    } else if loss > 0.0 {
      SharesOfOne(loss);
    }
  }

  // ----- ATR -----

  function Abs(x: real): real {
    if x >= 0.0 then x else -x
  }

  function MaxOf(a: real, b: real): real {
    if a < b then b else a
  }

  function MinOf(a: real, b: real): real {
    if b < a then b else a
  }

  function TrueRange(highs: seq<real>, lows: seq<real>, closes: seq<real>, i: nat): real
    requires i < |closes| == |highs| == |lows|
  {
    if i == 0 then highs[0] - lows[0]
    else MaxOf(highs[i] - lows[i], MaxOf(Abs(highs[i] - closes[i - 1]), Abs(lows[i] - closes[i - 1])))
  }

  function TrueRanges(highs: seq<real>, lows: seq<real>, closes: seq<real>): (t: seq<real>)
    requires |closes| == |highs| == |lows|
    ensures |t| == |closes| && forall i :: 0 <= i < |t| ==> t[i] == TrueRange(highs, lows, closes, i)
  {
    seq(|closes|, i requires 0 <= i < |closes| => TrueRange(highs, lows, closes, i))
  }

  function AtrAt(ranges: seq<real>, period: nat, i: nat): real
    requires 0 < period <= i + 1 <= |ranges|
  {
    if i + 1 == period then Mean(ranges, period, i) else Smooth(AtrAt(ranges, period, i - 1), ranges[i], period)
  }

  method Atr(highs: seq<real>, lows: seq<real>, closes: seq<real>, period: int) returns (result: Option<Series>)
    ensures result.Some? <==> |highs| == |lows| == |closes| && 0 < period <= |closes|
    ensures result.Some? ==>
              && |result.value| == |closes|
              && forall i {:trigger result.value[i]} :: 0 <= i < |closes| ==>
                   result.value[i] == if i + 1 < period then None
                                      else Some(AtrAt(TrueRanges(highs, lows, closes), period, i))
  {
    if period <= 0 || |highs| != |lows| || |highs| != |closes| || |closes| < period {
      return None;
    }
    ghost var ranges := TrueRanges(highs, lows, closes);
    var trueRange := seq(|closes|, _ => 0.0);
    trueRange := trueRange[0 := highs[0] - lows[0]];
    for i := 1 to |closes|
      invariant |trueRange| == |closes| && forall k :: 0 <= k < i ==> trueRange[k] == ranges[k]
    {
      var highLow := highs[i] - lows[i];
      var highClose := Abs(highs[i] - closes[i - 1]);
      var lowClose := Abs(lows[i] - closes[i - 1]);
      trueRange := trueRange[i := MaxOf(highLow, MaxOf(highClose, lowClose))];
    }
    assert trueRange == ranges;
    var r := Blank(|closes|);
    var sum := 0.0;
    for i := 0 to period
      invariant sum == Sum(ranges, 0, i)
    {
      sum := sum + trueRange[i];
    }
    r := r[period - 1 := Some(Average(sum, period))];
    for i := period to |closes|
      invariant |r| == |closes|
      invariant forall k {:trigger r[k]} :: 0 <= k < |r| ==>
        r[k] == if k >= i || k + 1 < period then None else Some(AtrAt(ranges, period, k))
    {
      assert r[i - 1] == Some(AtrAt(ranges, period, i - 1));
      r := r[i := Some(Smooth(r[i - 1].value, trueRange[i], period))];
    }
    return Some(r);
  }

  /** The true range is the day's range, from the second day on stretched to reach the previous close. */
  lemma TrueRangeIsSpan(highs: seq<real>, lows: seq<real>, closes: seq<real>, i: nat)
    requires i < |closes| == |highs| == |lows| && lows[i] <= highs[i]
    ensures TrueRange(highs, lows, closes, i)
         == if i == 0 then highs[0] - lows[0] else MaxOf(highs[i], closes[i - 1]) - MinOf(lows[i], closes[i - 1])
  {
  }

  lemma SmoothWithin(last: real, x: real, period: nat, lo: real, hi: real)
    requires period > 0 && lo <= last <= hi && lo <= x <= hi
    ensures lo <= Smooth(last, x, period) <= hi
  {
    var n := (period - 1) as real;
    ProductNonNegative(last - lo, n);
    ProductNonNegative(hi - last, n);
    assert (last - lo) * n == last * n - lo * n && (hi - last) * n == hi * n - last * n;
    assert lo * (n + 1.0) == lo * n + lo && hi * (n + 1.0) == hi * n + hi;
    AverageWithin(last * n + x, period, lo, hi);
  }

  /** The average true range never leaves the range of the true ranges so far. */
  lemma {:induction false} AtrWithin(ranges: seq<real>, period: nat, i: nat, lo: real, hi: real)
    requires 0 < period <= i + 1 <= |ranges| && Within(ranges, i, lo, hi)
    ensures lo <= AtrAt(ranges, period, i) <= hi
    decreases i
  {
    if i + 1 == period {
      MeanWithin(ranges, period, i, lo, hi);
    } else {
      AtrWithin(ranges, period, i - 1, lo, hi);
      SmoothWithin(AtrAt(ranges, period, i - 1), ranges[i], period, lo, hi);
    }
  }

  // ----- Bollinger bands -----

  /** The squared distances of prices[lo..hi] from c, added up. */
  function SquaresAbout(prices: seq<real>, c: real, lo: nat, hi: nat): (s: real)
    requires lo <= hi <= |prices|
  {
    if lo == hi then 0.0
    else SquaresAbout(prices, c, lo, hi - 1) + (prices[hi - 1] - c) * (prices[hi - 1] - c)
  }

  function Variance(prices: seq<real>, period: nat, i: nat): real
    requires 0 < period <= i + 1 <= |prices|
  {
    Average(SquaresAbout(prices, Mean(prices, period, i), i + 1 - period, i + 1), period)
  }

  function Upper(mean: real, k: real, stddev: real): real { mean + k * stddev }

  function Lower(mean: real, k: real, stddev: real): real { mean - k * stddev }

  datatype Bands = Bands(upper: Series, middle: Series, lower: Series)

  predicate IsBands(prices: seq<real>, period: nat, k: real, sqrt: real -> real, b: Bands) {
    && IsSma(prices, period, b.middle) && |b.upper| == |b.lower| == |prices|
    && forall i {:trigger b.upper[i]} {:trigger b.lower[i]} :: 0 <= i < |prices| ==>
         if i + 1 < period then b.upper[i] == None && b.lower[i] == None
         else b.upper[i] == Some(Upper(Mean(prices, period, i), k, sqrt(Variance(prices, period, i))))
              && b.lower[i] == Some(Lower(Mean(prices, period, i), k, sqrt(Variance(prices, period, i))))
  }

  method Bollinger(prices: seq<real>, period: int, k: real, sqrt: real -> real) returns (result: Option<Bands>)
    ensures result.Some? <==> 0 < period <= |prices|
    ensures result.Some? ==> IsBands(prices, period, k, sqrt, result.value)
  {
    if period <= 0 || |prices| < period {
      return None;
    }
    var middle := Sma(prices, period);
    var upper, lower := Blank(|prices|), Blank(|prices|);
    for i := period - 1 to |prices|
      invariant |upper| == |lower| == |prices|
      invariant forall j {:trigger upper[j]} {:trigger lower[j]} :: 0 <= j < |prices| ==>
        if j + 1 < period || j >= i then upper[j] == None && lower[j] == None
        else upper[j] == Some(Upper(Mean(prices, period, j), k, sqrt(Variance(prices, period, j))))
             && lower[j] == Some(Lower(Mean(prices, period, j), k, sqrt(Variance(prices, period, j))))
    {
      assert middle.value[i] == Some(Mean(prices, period, i));
      var mean := middle.value[i].value;
      var variance := SquareSum(prices, mean, i + 1 - period, i + 1);
      assert Average(variance, period) == Variance(prices, period, i);
      var stddev := sqrt(Average(variance, period));
      upper := upper[i := Some(Upper(mean, k, stddev))];
      lower := lower[i := Some(Lower(mean, k, stddev))];
    }
    return Some(Bands(upper, middle.value, lower));
  }

  /** The inner loop. */
  method SquareSum(prices: seq<real>, mean: real, lo: nat, hi: nat) returns (variance: real)
    requires lo <= hi <= |prices|
    ensures variance == SquaresAbout(prices, mean, lo, hi)
  {
    variance := 0.0;
    for j := lo to hi
      invariant variance == SquaresAbout(prices, mean, lo, j)
    {
      var diff := prices[j] - mean;
      variance := variance + diff * diff;
    }
  }

  lemma {:induction false} SquaresNonNegative(prices: seq<real>, c: real, lo: nat, hi: nat)
    requires lo <= hi <= |prices|
    ensures SquaresAbout(prices, c, lo, hi) >= 0.0
    decreases hi
  {
    if lo < hi {
      SquaresNonNegative(prices, c, lo, hi - 1);
      var d := prices[hi - 1] - c;
      assert d * d >= 0.0;
    }
  }

  /** The square root is only ever taken of a non-negative number, so the bands lie around the middle. */
  lemma BandsAround(prices: seq<real>, period: nat, k: real, sqrt: real -> real, b: Bands, i: nat)
    requires IsBands(prices, period, k, sqrt, b) && k >= 0.0 && period <= i + 1 <= |prices|
    requires forall x :: x >= 0.0 ==> sqrt(x) >= 0.0
    ensures Variance(prices, period, i) >= 0.0
    ensures b.lower[i].Some? && b.middle[i].Some? && b.upper[i].Some?
    ensures b.lower[i].value <= b.middle[i].value <= b.upper[i].value
    ensures b.upper[i].value - b.middle[i].value == b.middle[i].value - b.lower[i].value
  {
    SquaresNonNegative(prices, Mean(prices, period, i), i + 1 - period, i + 1);
    AverageNonNegative(SquaresAbout(prices, Mean(prices, period, i), i + 1 - period, i + 1), period);
    ProductNonNegative(k, sqrt(Variance(prices, period, i)));
    assert b.upper[i].Some? && b.middle[i] == Some(Mean(prices, period, i));
  }
}
