/** Laws that fix the indicators without their recurrences: closed forms, and what they give on simple prices. */
module IndicatorLaws {
  import opened StoreTypes
  import opened Indicators

  // ----- the weights -----

  function Pow(q: real, n: nat): real {
    if n == 0 then 1.0 else q * Pow(q, n - 1)
  }

  /** The first n of the values, each damped by q once for every value after it. */
  function Damped(xs: seq<real>, q: real, n: nat): real
    requires n <= |xs|
  {
    if n == 0 then 0.0 else Damped(xs, q, n - 1) + Pow(q, |xs| - n) * xs[n - 1]
  }

  /** Exponential smoothing in closed form: the newest value weighs w, each older one 1 - w times as much. */
  function Smoothed(seed: real, xs: seq<real>, w: real): real {
    Pow(1.0 - w, |xs|) * seed + w * Damped(xs, 1.0 - w, |xs|)
  }

  lemma DampedStep(q: real, p: real, p': real, y: real, d: real, d': real, r: real, r': real)
    requires p' == q * p && d' == q * d && r == d + p * y && r' == d' + p' * y
    ensures r' == q * r
  {
    assert q * p * y == q * (p * y);
    assert q * d + q * (p * y) == q * (d + p * y);
  }

  lemma PowMore(q: real, k: nat)
    ensures Pow(q, k + 1) == q * Pow(q, k)
  {
  }

  /** Value n of the damped sum, with k values after it. */
  lemma DampedLast(xs: seq<real>, q: real, n: nat, k: nat, x: real, p: real)
    requires 0 < n <= |xs| && k == |xs| - n && x == xs[n - 1] && p == Pow(q, k)
    ensures Damped(xs, q, n) == Damped(xs, q, n - 1) + p * x
  {
  }

  lemma {:induction false} DampedMore(xs: seq<real>, x: real, q: real, n: nat)
    requires n <= |xs|
    ensures Damped(xs + [x], q, n) == q * Damped(xs, q, n)
    decreases n
  {
    if n > 0 {
      var k := |xs| - n;
      DampedMore(xs, x, q, n - 1);
      PowMore(q, k);
      DampedLast(xs, q, n, k, xs[n - 1], Pow(q, k));
      DampedLast(xs + [x], q, n, k + 1, xs[n - 1], Pow(q, k + 1));
      DampedStep(q, Pow(q, k), Pow(q, k + 1), xs[n - 1], Damped(xs, q, n - 1), Damped(xs + [x], q, n - 1),
                 Damped(xs, q, n), Damped(xs + [x], q, n));
    }
  }

  /** One more value moves the average a fraction w of the way towards it. */
  lemma SmoothedMore(seed: real, xs: seq<real>, x: real, w: real)
    ensures Smoothed(seed, xs + [x], w) == Smoothed(seed, xs, w) + w * (x - Smoothed(seed, xs, w))
  {
    var q := 1.0 - w;
    DampedMore(xs, x, q, |xs|);
    assert Pow(q, |xs| + 1) == q * Pow(q, |xs|);
    assert Damped(xs + [x], q, |xs| + 1) == q * Damped(xs, q, |xs|) + x;
    SmoothedStep(w, q, Pow(q, |xs|), seed, Damped(xs, q, |xs|), x);
  }

  lemma SmoothedStep(w: real, q: real, p: real, seed: real, d: real, x: real)
    requires q == 1.0 - w
    ensures q * p * seed + w * (q * d + x) == (p * seed + w * d) + w * (x - (p * seed + w * d))
  {
    var s := p * seed + w * d;
    assert q * p * seed == q * (p * seed);
    assert w * (q * d) == q * (w * d);
    assert q * (p * seed) + q * (w * d) == q * s;
    assert w * (q * d + x) == w * (q * d) + w * x;
    assert q * s == s - w * s && w * (x - s) == w * x - w * s;
  }

  lemma SmoothedNone(seed: real, w: real)
    ensures Smoothed(seed, [], w) == seed
  {
  }

  lemma BlendIsStep(x: real, last: real, f: real)
    ensures Blend(x, last, f) == last + f * (x - last)
  {
  }

  lemma BlendMore(xs: seq<real>, b: nat, i: nat, seed: real, last: real, w: real)
    requires b <= i < |xs| && last == Smoothed(seed, xs[b..i], w)
    ensures Blend(xs[i], last, w) == Smoothed(seed, xs[b..i + 1], w)
  {
    assert xs[b..i + 1] == xs[b..i] + [xs[i]];
    SmoothedMore(seed, xs[b..i], xs[i], w);
    BlendIsStep(xs[i], last, w);
  }

  /** The EMA of a period weighs the newest price 2 / (period + 1); it starts from the mean of the first prices. */
  lemma {:induction false} EmaClosed(prices: seq<real>, period: nat, i: nat)
    requires 0 < period <= i + 1 <= |prices|
    ensures EmaAt(prices, period, i)
         == Smoothed(Mean(prices, period, period - 1), prices[period..i + 1], 2.0 / (period as real + 1.0))
    decreases i
  {
    var seed, w := Mean(prices, period, period - 1), 2.0 / (period as real + 1.0);
    if i + 1 == period {
      SmoothedNone(seed, w);
    } else {
      EmaClosed(prices, period, i - 1);
      BlendMore(prices, period, i, seed, EmaAt(prices, period, i - 1), w);
    }
  }

  lemma WilderIsStep(last: real, x: real, period: nat)
    requires period > 0
    ensures Smooth(last, x, period) == last + 1.0 / period as real * (x - last)
  {
    var n, y := period as real, Smooth(last, x, period);
    assert y * n == last * (n - 1.0) + x;
    var u := 1.0 / n;
    assert u * n == 1.0;
    assert (last + u * (x - last)) * n == last * n + u * n * (x - last);
    assert (y - (last + u * (x - last))) * n == 0.0;
  }

  /** A value smoothed Wilder's way over xs[b..i], one more value taken in. */
  lemma WilderMore(xs: seq<real>, period: nat, b: nat, i: nat, seed: real, avg: real, w: real)
    requires 0 < period && b <= i < |xs| && w == 1.0 / period as real && avg == Smoothed(seed, xs[b..i], w)
    ensures Smooth(avg, xs[i], period) == Smoothed(seed, xs[b..i + 1], w)
  {
    assert xs[b..i + 1] == xs[b..i] + [xs[i]];
    SmoothedMore(seed, xs[b..i], xs[i], w);
    WilderIsStep(avg, xs[i], period);
  }

  /** The ATR of a period weighs the newest true range 1 / period. */
  lemma {:induction false} AtrClosed(ranges: seq<real>, period: nat, i: nat)
    requires 0 < period <= i + 1 <= |ranges|
    ensures AtrAt(ranges, period, i)
         == Smoothed(Mean(ranges, period, period - 1), ranges[period..i + 1], 1.0 / period as real)
    decreases i
  {
    var seed, w := Mean(ranges, period, period - 1), 1.0 / period as real;
    if i + 1 == period {
      SmoothedNone(seed, w);
    } else {
      AtrClosed(ranges, period, i - 1);
      WilderMore(ranges, period, period, i, seed, AtrAt(ranges, period, i - 1), w);
    }
  }

  // ----- gains and losses -----

  /** How far the price rose from the one before, and how far it fell; one of the two is zero. */
  function Rise(prices: seq<real>, i: nat): real
    requires i < |prices|
  {
    if i == 0 then 0.0 else MaxOf(prices[i] - prices[i - 1], 0.0)
  }

  function Fall(prices: seq<real>, i: nat): real
    requires i < |prices|
  {
    if i == 0 then 0.0 else MaxOf(prices[i - 1] - prices[i], 0.0)
  }

  function Rises(prices: seq<real>): (r: seq<real>)
    ensures |r| == |prices| && forall i :: 0 <= i < |r| ==> r[i] == Rise(prices, i)
  {
    seq(|prices|, i requires 0 <= i < |prices| => Rise(prices, i))
  }

  function Falls(prices: seq<real>): (r: seq<real>)
    ensures |r| == |prices| && forall i :: 0 <= i < |r| ==> r[i] == Fall(prices, i)
  {
    seq(|prices|, i requires 0 <= i < |prices| => Fall(prices, i))
  }

  lemma {:induction false} FirstChanges(prices: seq<real>, n: nat)
    requires n < |prices|
    ensures GainSum(prices, n) == Sum(Rises(prices), 1, n + 1) && LossSum(prices, n) == Sum(Falls(prices), 1, n + 1)
    decreases n
  {
    if n > 0 {
      FirstChanges(prices, n - 1);
    }
  }

  /** The average gain behind the RSI is that of the rises, the newest weighing 1 / period. */
  lemma {:induction false} GainClosed(prices: seq<real>, period: nat, i: nat)
    requires 0 < period <= i < |prices|
    ensures AvgGain(prices, period, i)
         == Smoothed(Mean(Rises(prices), period, period), Rises(prices)[period + 1..i + 1], 1.0 / period as real)
    decreases i
  {
    var xs := Rises(prices);
    if i == period {
      FirstChanges(prices, period);
      SmoothedNone(Mean(xs, period, period), 1.0 / period as real);
    } else {
      GainClosed(prices, period, i - 1);
      WilderMore(xs, period, period + 1, i, Mean(xs, period, period), AvgGain(prices, period, i - 1), 1.0 / period as real);
    }
  }

  /** The average loss likewise is that of the falls. */
  lemma {:induction false} LossClosed(prices: seq<real>, period: nat, i: nat)
    requires 0 < period <= i < |prices|
    ensures AvgLoss(prices, period, i)
         == Smoothed(Mean(Falls(prices), period, period), Falls(prices)[period + 1..i + 1], 1.0 / period as real)
    decreases i
  {
    var xs := Falls(prices);
    if i == period {
      FirstChanges(prices, period);
      SmoothedNone(Mean(xs, period, period), 1.0 / period as real);
    } else {
      LossClosed(prices, period, i - 1);
      WilderMore(xs, period, period + 1, i, Mean(xs, period, period), AvgLoss(prices, period, i - 1), 1.0 / period as real);
    }
  }

  // ----- on a ramp -----

  /** Prices that change by d each step. */
  function Ramp(a: real, d: real, n: nat): (r: seq<real>)
    ensures |r| == n && forall k :: 0 <= k < n ==> r[k] == a + d * k as real
  {
    seq(n, k requires 0 <= k < n => a + d * k as real)
  }

  lemma {:induction false} SumOnRamp(a: real, d: real, len: nat, lo: nat, n: nat)
    requires lo + n <= len
    ensures Sum(Ramp(a, d, len), lo, lo + n) == n as real * (a + d * lo as real + d * (n as real - 1.0) / 2.0)
    decreases n
  {
    if n > 0 {
      SumOnRamp(a, d, len, lo, n - 1);
      var m, b := (n - 1) as real, a + d * lo as real;
      assert n as real == m + 1.0;
      assert (lo + n - 1) as real == lo as real + m;
      assert Ramp(a, d, len)[lo + n - 1] == b + d * m;
      assert m * (b + d * (m - 1.0) / 2.0) + (b + d * m) == (m + 1.0) * (b + d * m / 2.0);
    }
  }

  lemma HalfBehind(a: real, d: real, lo: real, n: real, i: real, sum: real)
    requires n > 0.0 && i == lo + (n - 1.0) && sum == n * (a + d * lo + d * (n - 1.0) / 2.0)
    ensures sum / n == a + d * i - d * (n - 1.0) / 2.0
  {
    var v := a + d * lo + d * (n - 1.0) / 2.0;
    assert n * v / n == v;
    assert d * (lo + (n - 1.0)) == d * lo + d * (n - 1.0);
  }

  /** On a ramp a mean lags by half its window less half a step. */
  lemma MeanOnRamp(a: real, d: real, len: nat, period: nat, i: nat)
    requires 0 < period <= i + 1 <= len
    ensures Mean(Ramp(a, d, len), period, i) == Ramp(a, d, len)[i] - d * (period as real - 1.0) / 2.0
  {
    var lo := i + 1 - period;
    SumOnRamp(a, d, len, lo, period);
    assert i as real == lo as real + (period as real - 1.0);
    HalfBehind(a, d, lo as real, period as real, i as real, Sum(Ramp(a, d, len), lo, i + 1));
  }

  lemma LagKept(x: real, d: real, n: real)
    requires n > 0.0
    ensures var w := 2.0 / (n + 1.0); var lag := d * (n - 1.0) / 2.0;
            Blend(x + d, x - lag, w) == x + d - lag
  {
    var w, lag := 2.0 / (n + 1.0), d * (n - 1.0) / 2.0;
    assert w * (n + 1.0) == 2.0;
    assert d + lag == d * (n + 1.0) / 2.0;
    assert (d + lag) * w == d * (w * (n + 1.0)) / 2.0;
  }

  /** So does the EMA of that period, exactly and for good: this is what fixes its weight. */
  lemma {:induction false} EmaOnRamp(a: real, d: real, len: nat, period: nat, i: nat)
    requires 0 < period <= i + 1 <= len
    ensures EmaAt(Ramp(a, d, len), period, i) == Ramp(a, d, len)[i] - d * (period as real - 1.0) / 2.0
    decreases i
  {
    if i + 1 == period {
      MeanOnRamp(a, d, len, period, i);
    } else {
      EmaOnRamp(a, d, len, period, i - 1);
      assert i as real == (i - 1) as real + 1.0;
      assert Ramp(a, d, len)[i] == Ramp(a, d, len)[i - 1] + d;
      LagKept(Ramp(a, d, len)[i - 1], d, period as real);
    }
  }

  lemma LagsApart(x: real, d: real, m: real, n: real)
    ensures (x - d * (m - 1.0) / 2.0) - (x - d * (n - 1.0) / 2.0) == d * (n - m) / 2.0
  {
  }

  /** On a ramp the MACD line stands at half the difference of the periods, up for rising prices. */
  lemma MacdOnRamp(a: real, d: real, len: nat, fast: nat, slow: nat, k: nat)
    requires 0 < fast < slow <= len && k < |MacdLine(Ramp(a, d, len), fast, slow)|
    ensures MacdLine(Ramp(a, d, len), fast, slow)[k] == d * (slow as real - fast as real) / 2.0
  {
    EmaOnRamp(a, d, len, fast, slow - 1 + k);
    EmaOnRamp(a, d, len, slow, slow - 1 + k);
    LagsApart(Ramp(a, d, len)[slow - 1 + k], d, fast as real, slow as real);
  }

  /** The MACD line is the signal line and the histogram together; each starts where it can. */
  lemma MacdAddsUp(prices: seq<real>, fast: nat, slow: nat, period: nat, r: MacdResult, i: nat)
    requires 0 < fast < slow && 0 < period && slow + period <= |prices| && IsMacd(prices, fast, slow, period, r)
    requires i < |prices|
    ensures |r.macd| == |r.signal| == |r.histogram| == |prices|
    ensures r.macd[i].Some? <==> i >= slow - 1
    ensures r.signal[i].Some? <==> i >= slow + period - 2
    ensures r.histogram[i].Some? <==> i >= slow + period - 2
    ensures i >= slow + period - 2 ==> r.macd[i].value == r.signal[i].value + r.histogram[i].value
  {
    var line := MacdLine(prices, fast, slow);
    if i >= slow - 1 {
      assert r.macd[slow - 1 + (i - (slow - 1))] == Some(line[i - (slow - 1)]);
    }
    if i >= slow + period - 2 {
      var k := i - (slow + period - 2);
      assert r.signal[slow - 1 + period - 1 + k] == Some(EmaLine(line, period)[k]);
      assert r.histogram[slow - 1 + period - 1 + k] == Some(Minus(line, EmaLine(line, period))[k]);
    }
  }

  // ----- RSI of one-sided prices -----

  lemma {:induction false} NoFalls(prices: seq<real>, n: nat)
    requires n < |prices| && forall k :: 0 < k <= n ==> prices[k - 1] <= prices[k]
    ensures LossSum(prices, n) == 0.0
    decreases n
  {
    if n > 0 {
      NoFalls(prices, n - 1);
    }
  }

  /** Prices that never fall have an RSI of 100. */
  lemma {:induction false} RisingIsHundred(prices: seq<real>, period: nat, i: nat)
    requires 0 < period <= i < |prices| && forall k :: 0 < k <= i ==> prices[k - 1] <= prices[k]
    ensures AvgLoss(prices, period, i) == 0.0 && RsiAt(prices, period, i) == 100.0
    decreases i
  {
    if i == period {
      NoFalls(prices, period);
    } else {
      RisingIsHundred(prices, period, i - 1);
    }
    RsiWithin(prices, period, i);
  }

  /** Prices that never rise have an RSI of 0 once a fall is left in the average. */
  lemma FallingIsZero(prices: seq<real>, period: nat, i: nat)
    requires 0 < period <= i < |prices| && forall k :: 0 < k <= i ==> prices[k - 1] >= prices[k]
    requires AvgLoss(prices, period, i) > 0.0
    ensures RsiAt(prices, period, i) == 0.0
  {
    RisingIsHundred(Mirrored(prices), period, i);
    RsiMirroredIff(prices, period, i);
  }

  // ----- the variance -----

  function Squares(prices: seq<real>): (q: seq<real>)
    ensures |q| == |prices| && forall k :: 0 <= k < |q| ==> q[k] == prices[k] * prices[k]
  {
    seq(|prices|, k requires 0 <= k < |prices| => prices[k] * prices[k])
  }

  function Scaled(xs: seq<real>, a: real): (q: seq<real>)
    ensures |q| == |xs| && forall k :: 0 <= k < |q| ==> q[k] == a * xs[k]
  {
    seq(|xs|, k requires 0 <= k < |xs| => a * xs[k])
  }

  function Deviations(xs: seq<real>, c: real): (q: seq<real>)
    ensures |q| == |xs| && forall k :: 0 <= k < |q| ==> q[k] == (xs[k] - c) * (xs[k] - c)
  {
    seq(|xs|, k requires 0 <= k < |xs| => (xs[k] - c) * (xs[k] - c))
  }

  lemma Distributes(a: real, s: real, x: real)
    ensures a * (s + x) == a * s + a * x && (s + x) * a == s * a + x * a
  {
  }

  lemma {:induction false} SumScaled(xs: seq<real>, a: real, lo: nat, n: nat)
    requires lo + n <= |xs|
    ensures Sum(Scaled(xs, a), lo, lo + n) == a * Sum(xs, lo, lo + n)
    decreases n
  {
    if n > 0 {
      SumScaled(xs, a, lo, n - 1);
      Distributes(a, Sum(xs, lo, lo + n - 1), xs[lo + n - 1]);
    }
  }

  lemma {:induction false} SumCombined(u: seq<real>, v: seq<real>, w: seq<real>, e: real, lo: nat, n: nat)
    requires |u| == |v| == |w| && lo + n <= |u| && forall k :: 0 <= k < |u| ==> u[k] == v[k] - w[k] + e
    ensures Sum(u, lo, lo + n) == Sum(v, lo, lo + n) - Sum(w, lo, lo + n) + n as real * e
    decreases n
  {
    if n > 0 {
      SumCombined(u, v, w, e, lo, n - 1);
      Distributes(e, (n - 1) as real, 1.0);
    }
  }

  lemma {:induction false} SquaresAreDeviations(prices: seq<real>, c: real, lo: nat, n: nat)
    requires lo + n <= |prices|
    ensures SquaresAbout(prices, c, lo, lo + n) == Sum(Deviations(prices, c), lo, lo + n)
    decreases n
  {
    if n > 0 {
      SquaresAreDeviations(prices, c, lo, n - 1);
    }
  }

  lemma DeviationSquared(x: real, c: real)
    ensures (x - c) * (x - c) == x * x - 2.0 * c * x + c * c
  {
  }

  lemma DeviationsExpand(prices: seq<real>, c: real, a: real, e: real)
    requires a == 2.0 * c && e == c * c
    ensures forall k :: 0 <= k < |prices| ==> Deviations(prices, c)[k] == Squares(prices)[k] - Scaled(prices, a)[k] + e
  {
    forall k | 0 <= k < |prices| ensures Deviations(prices, c)[k] == Squares(prices)[k] - Scaled(prices, a)[k] + e {
      DeviationSquared(prices[k], c);
    }
  }

  lemma SquaresExpand(prices: seq<real>, c: real, a: real, e: real, lo: nat, n: nat)
    requires lo + n <= |prices| && a == 2.0 * c && e == c * c
    ensures SquaresAbout(prices, c, lo, lo + n)
         == Sum(Squares(prices), lo, lo + n) - a * Sum(prices, lo, lo + n) + n as real * e
  {
    SquaresAreDeviations(prices, c, lo, n);
    DeviationsExpand(prices, c, a, e);
    SumCombined(Deviations(prices, c), Squares(prices), Scaled(prices, a), e, lo, n);
    SumScaled(prices, a, lo, n);
  }

  lemma SpreadAboutMean(q: real, t: real, s: real, c: real, a: real, e: real, n: real)
    requires n > 0.0 && c == s / n && a == 2.0 * c && e == c * c && q == t - a * s + n * e
    ensures q / n == t / n - e
  {
    assert s == c * n;
    assert a * s == 2.0 * (n * e);
    assert q == t - n * e;
    assert t / n * n == t;
    assert (t / n - e) * n == t - n * e;
  }

  lemma SpreadOfWindow(prices: seq<real>, period: nat, i: nat, c: real, a: real, e: real)
    requires 0 < period <= i + 1 <= |prices| && c == Mean(prices, period, i) && a == 2.0 * c && e == c * c
    ensures Variance(prices, period, i) == Mean(Squares(prices), period, i) - e
  {
    var lo := i + 1 - period;
    SquaresExpand(prices, c, a, e, lo, period);
    SpreadAboutMean(SquaresAbout(prices, c, lo, i + 1), Sum(Squares(prices), lo, i + 1), Sum(prices, lo, i + 1),
                    c, a, e, period as real);
  }

  /** The variance is the mean of the squares less the square of the mean: of the population, not of a sample. */
  lemma VarianceIsMeanOfSquares(prices: seq<real>, period: nat, i: nat)
    requires 0 < period <= i + 1 <= |prices|
    ensures Variance(prices, period, i)
         == Mean(Squares(prices), period, i) - Mean(prices, period, i) * Mean(prices, period, i)
  {
    var c := Mean(prices, period, i);
    SpreadOfWindow(prices, period, i, c, 2.0 * c, c * c);
  }

  /** The bands are 2 k standard deviations apart. */
  lemma BandsApart(prices: seq<real>, period: nat, k: real, sqrt: real -> real, b: Bands, i: nat)
    requires IsBands(prices, period, k, sqrt, b) && 0 < period <= i + 1 <= |prices|
    ensures b.upper[i].Some? && b.lower[i].Some?
    ensures b.upper[i].value - b.lower[i].value == 2.0 * k * sqrt(Variance(prices, period, i))
  {
    assert b.upper[i].Some?;
  }
}
