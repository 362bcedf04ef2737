/** Technical indicators over a series of closing prices: the simple moving
    average, the exponential moving average and the relative strength index.
    Prices are exact reals; every function here is pure. */
module Indicators {

  import opened RealArith

  /** Sum of a series, accumulated left to right from a zero seed, the order
      in which the source's fold adds. */
  function Sum(s: seq<real>): real
  {
    if |s| == 0 then 0.0 else Sum(s[..|s| - 1]) + s[|s| - 1]
  }

  /** Arithmetic mean of a non-empty series. */
  function Mean(s: seq<real>): real
    requires |s| > 0
  {
    Sum(s) / |s| as real
  }

  function Max0(n: int): nat
  {
    if n > 0 then n else 0
  }

  /** Summing from the front gives the same total as summing from the back. */
  lemma {:induction false} SumFront(s: seq<real>)
    requires |s| > 0
    ensures Sum(s) == s[0] + Sum(s[1..])
    decreases |s|
  {
    if |s| > 1 {
      var init := s[..|s| - 1];
      SumFront(init);
      assert init[1..] == s[1..][..|s[1..]| - 1];
      assert init[0] == s[0];
    } else {
      assert s[1..] == [];
    }
  }

  /** A sum of n terms each in [lo, hi] lies in [n * lo, n * hi]. */
  lemma {:induction false} SumBounds(s: seq<real>, lo: real, hi: real)
    requires forall i :: 0 <= i < |s| ==> lo <= s[i] <= hi
    ensures |s| as real * lo <= Sum(s) <= |s| as real * hi
    decreases |s|
  {
    if |s| > 0 {
      var init := s[..|s| - 1];
      SumBounds(init, lo, hi);
      var n := |init| as real;
      assert |s| as real * lo == n * lo + lo;
      assert |s| as real * hi == n * hi + hi;
    }
  }

  /** The mean of values lying in [lo, hi] lies in [lo, hi]. */
  lemma MeanBounds(s: seq<real>, lo: real, hi: real)
    requires |s| > 0
    requires forall i :: 0 <= i < |s| ==> lo <= s[i] <= hi
    ensures lo <= Mean(s) <= hi
  {
    SumBounds(s, lo, hi);
    var n := |s| as real;
    assert Sum(s) / n >= lo by {
      assert n * lo <= Sum(s);
    }
    assert Sum(s) / n <= hi by {
      assert Sum(s) <= n * hi;
    }
  }

  // ---------------------------------------------------------------------
  // Simple moving average
  // ---------------------------------------------------------------------

  /** The simple moving average: one entry per full window of `period`
      consecutive values, entry j being the mean of data[j .. j + period - 1].
      A series shorter than the period yields no entries. */
  method CalculateSma(data: seq<real>, period: int) returns (sma: seq<real>)
    requires period > 0
    ensures |sma| == Max0(|data| - period + 1)
    ensures forall j :: 0 <= j < |sma| ==> sma[j] == Mean(data[j..j + period])
  {
    sma := [];
    var i := period - 1;
    while i < |data|
      invariant period - 1 <= i
      invariant i <= |data| || i == period - 1
      invariant |sma| == i - period + 1
      invariant forall j :: 0 <= j < |sma| ==> sma[j] == Mean(data[j..j + period])
    {
      var window := data[i - period + 1..i + 1];
      sma := sma + [Sum(window) / period as real];
      i := i + 1;
    }
  }

  /** Sliding the window one step right changes the average by the value
      that entered minus the value that left, divided by the period. */
  lemma SmaSlide(data: seq<real>, period: int, j: int)
    requires period > 0
    requires 0 <= j && j + period < |data|
    ensures Mean(data[j + 1..j + 1 + period])
         == Mean(data[j..j + period]) + (data[j + period] - data[j]) / period as real
  {
    var wide := data[j..j + period + 1];
    assert wide[..|wide| - 1] == data[j..j + period];
    assert Sum(wide) == Sum(data[j..j + period]) + data[j + period];
    SumFront(wide);
    assert wide[1..] == data[j + 1..j + 1 + period];
    assert Sum(data[j + 1..j + 1 + period]) == Sum(data[j..j + period]) + data[j + period] - data[j];
  }

  // ---------------------------------------------------------------------
  // Exponential moving average
  // ---------------------------------------------------------------------

  /** The smoothing factor 2 / (period + 1): a weight in (0, 1], and below 1
      for every period longer than one bar. */
  function Smoothing(period: int): (k: real)
    requires period > 0
    ensures 0.0 < k <= 1.0
    ensures period > 1 ==> k < 1.0
  {
    2.0 / (period + 1) as real
  }

  /** One smoothing step: weight k on the new value, 1 - k on the previous
      average. */
  function Blend(x: real, prev: real, k: real): real
  {
    x * k + prev * (1.0 - k)
  }

  /** The exponential moving average, seeded with the first value rather than
      with an initial simple average. */
  function Ema(data: seq<real>, period: int): (ema: seq<real>)
    requires period > 0
    requires |data| > 0
    ensures |ema| == |data|
    ensures ema[0] == data[0]
    ensures forall i {:trigger data[i]} :: 1 <= i < |ema| ==> ema[i] == Blend(data[i], ema[i - 1], Smoothing(period))
    decreases |data|
  {
    if |data| == 1 then [data[0]]
    else
      var prev := Ema(data[..|data| - 1], period);
      prev + [Blend(data[|data| - 1], prev[|prev| - 1], Smoothing(period))]
  }

  function Last(s: seq<real>): real
    requires |s| > 0
  {
    s[|s| - 1]
  }

  /** The average is causal: its first m entries depend only on the first m
      values of the series. */
  lemma {:induction false} EmaPrefix(data: seq<real>, period: int, m: int)
    requires period > 0
    requires 0 < m <= |data|
    ensures Ema(data[..m], period) == Ema(data, period)[..m]
    decreases |data|
  {
    if m < |data| {
      var init := data[..|data| - 1];
      EmaPrefix(init, period, m);
      assert init[..m] == data[..m];
      assert Ema(data, period)[..|data| - 1] == Ema(init, period);
      assert Ema(data, period)[..m] == Ema(data, period)[..|data| - 1][..m];
    } else {
      assert data[..m] == data;
    }
  }

  /** One smoothing step keeps a value inside any interval that holds both
      the new value and the previous average. */
  lemma BlendWithin(x: real, e: real, k: real, lo: real, hi: real)
    requires 0.0 <= k <= 1.0
    requires lo <= x <= hi && lo <= e <= hi
    ensures lo <= Blend(x, e, k) <= hi
  {
    // Each bound minus the blend is a weighted sum of signed distances.
    assert Blend(x, e, k) - hi == (x - hi) * k + (e - hi) * (1.0 - k);
    NonposTimesNonneg(x - hi, k);
    NonposTimesNonneg(e - hi, 1.0 - k);
    assert lo - Blend(x, e, k) == (lo - x) * k + (lo - e) * (1.0 - k);
    NonposTimesNonneg(lo - x, k);
    NonposTimesNonneg(lo - e, 1.0 - k);
  }

  /** Blending a value with an average below it lands below the value. */
  lemma BlendBelow(x: real, e: real, k: real)
    requires 0.0 <= k < 1.0
    requires e < x
    ensures Blend(x, e, k) < x
  {
    var w := 1.0 - k;
    NegTimesPos(e - x, w);
    assert Blend(x, e, k) == x + (e - x) * w;
  }

  /** Blending the same value into two averages: the heavier weight on the
      value, from an average no lower, gives the higher result, provided the
      value lies above the lower average. */
  lemma BlendGap(x: real, ef: real, es: real, kf: real, ks: real)
    requires 0.0 < ks < kf <= 1.0
    requires es < x && es <= ef
    ensures Blend(x, ef, kf) > Blend(x, es, ks)
  {
    // The gap is the weight difference times how far the value lies above
    // the slow average, plus the decayed previous gap.
    assert Blend(x, ef, kf) - Blend(x, es, ks) == (kf - ks) * (x - es) + (1.0 - kf) * (ef - es);
    PosProduct(kf - ks, x - es);
    NonnegProduct(1.0 - kf, ef - es);
  }

  lemma {:induction false} EmaWithinAt(data: seq<real>, period: int, lo: real, hi: real, j: int)
    requires period > 0
    requires 0 <= j < |data|
    requires forall i :: 0 <= i < |data| ==> lo <= data[i] <= hi
    ensures lo <= Ema(data, period)[j] <= hi
    decreases j
  {
    if j > 0 {
      EmaWithinAt(data, period, lo, hi, j - 1);
      BlendWithin(data[j], Ema(data, period)[j - 1], Smoothing(period), lo, hi);
    }
  }

  /** The average never leaves the range of the series it smooths; in
      particular a constant series is its own average. */
  lemma EmaWithinRange(data: seq<real>, period: int, lo: real, hi: real)
    requires period > 0
    requires |data| > 0
    requires forall i :: 0 <= i < |data| ==> lo <= data[i] <= hi
    ensures forall j :: 0 <= j < |data| ==> lo <= Ema(data, period)[j] <= hi
  {
    forall j | 0 <= j < |data|
      ensures lo <= Ema(data, period)[j] <= hi
    {
      EmaWithinAt(data, period, lo, hi, j);
    }
  }

  predicate StrictlyIncreasing(s: seq<real>)
  {
    forall i, j :: 0 <= i < j < |s| ==> s[i] < s[j]
  }

  lemma {:induction false} EmaLagsAt(data: seq<real>, period: int, j: int)
    requires period > 1
    requires StrictlyIncreasing(data)
    requires 1 <= j < |data|
    ensures Ema(data, period)[j] < data[j]
    decreases j
  {
    var ema := Ema(data, period);
    if j > 1 {
      EmaLagsAt(data, period, j - 1);
    }
    assert data[j - 1] < data[j];
    BlendBelow(data[j], ema[j - 1], Smoothing(period));
  }

  /** On a strictly rising series the average (period above one) trails the
      price at every bar after the first. */
  lemma EmaLagsRising(data: seq<real>, period: int)
    requires period > 1
    requires |data| > 0
    requires StrictlyIncreasing(data)
    ensures forall j :: 1 <= j < |data| ==> Ema(data, period)[j] < data[j]
  {
    forall j | 1 <= j < |data|
      ensures Ema(data, period)[j] < data[j]
    {
      EmaLagsAt(data, period, j);
    }
  }

  lemma {:induction false} FastEmaLeadsAt(data: seq<real>, fast: int, slow: int, j: int)
    requires 1 < fast < slow
    requires StrictlyIncreasing(data)
    requires 1 <= j < |data|
    ensures Ema(data, fast)[j] > Ema(data, slow)[j]
    decreases j
  {
    var f := Ema(data, fast);
    var s := Ema(data, slow);
    if j > 1 {
      FastEmaLeadsAt(data, fast, slow, j - 1);
      EmaLagsAt(data, slow, j - 1);
    }
    assert data[j - 1] < data[j];
    ReciprocalDecreases(fast, slow);
    BlendGap(data[j], f[j - 1], s[j - 1], Smoothing(fast), Smoothing(slow));
  }

  /** On a strictly rising series of at least two bars the faster average
      ends above the slower one. */
  lemma FastEmaLeadsRising(data: seq<real>, fast: int, slow: int)
    requires 1 < fast < slow
    requires |data| >= 2
    requires StrictlyIncreasing(data)
    ensures Last(Ema(data, fast)) > Last(Ema(data, slow))
  {
    FastEmaLeadsAt(data, fast, slow, |data| - 1);
  }

  // ---------------------------------------------------------------------
  // Relative strength index
  // ---------------------------------------------------------------------

  /** The value at i is no higher than the one before it. */
  predicate NoRiseAt(data: seq<real>, i: int)
    requires 1 <= i < |data|
  {
    data[i] <= data[i - 1]
  }

  /** The value at i is no lower than the one before it. */
  predicate NoFallAt(data: seq<real>, i: int)
    requires 1 <= i < |data|
  {
    data[i] >= data[i - 1]
  }

  /** The upward part of a close-to-close change; a flat step counts as a
      zero gain. */
  function Gain(diff: real): real
  {
    if diff >= 0.0 then diff else 0.0
  }

  /** The magnitude of a downward close-to-close change. */
  function Loss(diff: real): real
  {
    if diff >= 0.0 then 0.0 else -diff
  }

  /** Total gain over the transitions into bars lo .. hi - 1. */
  function Gains(data: seq<real>, lo: int, hi: int): (g: real)
    requires 1 <= lo <= hi <= |data|
    ensures g >= 0.0
    ensures g == 0.0 <==> forall i :: lo <= i < hi ==> NoRiseAt(data, i)
    decreases hi - lo
  {
    if lo == hi then 0.0
    else
      var step := Gain(data[hi - 1] - data[hi - 2]);
      assert step == 0.0 <==> NoRiseAt(data, hi - 1);
      Gains(data, lo, hi - 1) + step
  }

  /** Total loss over the transitions into bars lo .. hi - 1. */
  function Losses(data: seq<real>, lo: int, hi: int): (l: real)
    requires 1 <= lo <= hi <= |data|
    ensures l >= 0.0
    ensures l == 0.0 <==> forall i :: lo <= i < hi ==> NoFallAt(data, i)
    decreases hi - lo
  {
    if lo == hi then 0.0
    else
      var step := Loss(data[hi - 1] - data[hi - 2]);
      assert step == 0.0 <==> NoFallAt(data, hi - 1);
      Losses(data, lo, hi - 1) + step
  }

  /** The index from the summed gains and losses of a window: 100 when
      there was no loss, otherwise 100 - 100 / (1 + RS) with RS the ratio
      of average gain to average loss. */
  function IndexFromMoves(gains: real, losses: real, period: int): (r: real)
    requires gains >= 0.0 && losses >= 0.0 && period > 0
    ensures 0.0 <= r <= 100.0
    ensures r == 100.0 <==> losses == 0.0
    ensures r == 0.0 <==> gains == 0.0 && losses > 0.0
  {
    var avgGain := gains / period as real;
    var avgLoss := losses / period as real;
    if avgLoss == 0.0 then 100.0
    else
      var rs := avgGain / avgLoss;
      RatioIndexBounds(rs);
      100.0 - 100.0 / (1.0 + rs)
  }

  /** The relative strength index over the last `period` transitions. A
      series too short for that many transitions gets the neutral 50; a
      window without a single decrease gets 100. */
  function Rsi(data: seq<real>, period: int): (r: real)
    requires period > 0
    ensures 0.0 <= r <= 100.0
    ensures |data| < period + 1 ==> r == 50.0
    ensures |data| >= period + 1 ==>
      (r == 100.0 <==> forall i :: |data| - period <= i < |data| ==> NoFallAt(data, i))
  {
    if |data| < period + 1 then 50.0
    else IndexFromMoves(Gains(data, |data| - period, |data|), Losses(data, |data| - period, |data|), period)
  }

  /** Once the window holds a decrease, the index is the gains' share of all
      movement, scaled to 100. */
  lemma RsiAsGainShare(data: seq<real>, period: int)
    requires period > 0
    requires |data| >= period + 1
    requires Losses(data, |data| - period, |data|) > 0.0
    ensures var g := Gains(data, |data| - period, |data|);
            var l := Losses(data, |data| - period, |data|);
            Rsi(data, period) == 100.0 * g / (g + l)
  {
    var g := Gains(data, |data| - period, |data|);
    var l := Losses(data, |data| - period, |data|);
    GainShareIdentity(g, l, period as real);
  }

  /** The index is 0 exactly when the window holds a decrease and no
      increase. */
  lemma RsiZero(data: seq<real>, period: int)
    requires period > 0
    requires |data| >= period + 1
    ensures Rsi(data, period) == 0.0 <==>
      (forall i :: |data| - period <= i < |data| ==> NoRiseAt(data, i)) &&
      (exists i :: |data| - period <= i < |data| && !NoFallAt(data, i))
  {
    var lo := |data| - period;
    var g := Gains(data, lo, |data|);
    var l := Losses(data, lo, |data|);
    assert Rsi(data, period) == IndexFromMoves(g, l, period);
    if l == 0.0 {
      assert forall i :: lo <= i < |data| ==> NoFallAt(data, i);
    }
  }

  /** Gains and losses depend only on the transitions they cover, not on the
      history before them. */
  lemma {:induction false} MovesIgnorePrefix(prefix: seq<real>, data: seq<real>, lo: int, hi: int)
    requires 1 <= lo <= hi <= |data|
    ensures Gains(prefix + data, |prefix| + lo, |prefix| + hi) == Gains(data, lo, hi)
    ensures Losses(prefix + data, |prefix| + lo, |prefix| + hi) == Losses(data, lo, hi)
    decreases hi - lo
  {
    if lo < hi {
      MovesIgnorePrefix(prefix, data, lo, hi - 1);
      var whole := prefix + data;
      assert whole[|prefix| + hi - 1] == data[hi - 1];
      assert whole[|prefix| + hi - 2] == data[hi - 2];
    }
  }

  /** The index looks only at the last `period` transitions: any earlier
      history leaves it unchanged. */
  lemma RsiIgnoresHistory(prefix: seq<real>, data: seq<real>, period: int)
    requires period > 0
    requires |data| >= period + 1
    ensures Rsi(prefix + data, period) == Rsi(data, period)
  {
    MovesIgnorePrefix(prefix, data, |data| - period, |data|);
    assert |prefix + data| - period == |prefix| + (|data| - period);
  }
}
