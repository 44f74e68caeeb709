/** Technical indicators over price series: simple and exponential moving
    averages, MACD and Wilder-smoothed RSI. Each indicator first validates its
    arguments and "throws" (returns `Thrown`) instead of producing a partial
    series. Prices are modelled as exact reals. */
module Indicators {
  import opened Types

  /** Why argument validation failed. Only the length check names the indicator. */
  datatype ParamError =
    | EmptyData
    | NonPositivePeriod
    | TooShort(indicator: string, size: int, period: int)

  /** Outcome of an indicator call: a value, or the `invalid_argument` it throws. */
  datatype Outcome<T> = Done(value: T) | Thrown(error: ParamError)

  datatype Check = Pass | Fail(error: ParamError)

  /** Default periods of the declared interface: MACD(12, 26, 9) and RSI(14). */
  const DefaultMacdFast: int := 12
  const DefaultMacdSlow: int := 26
  const DefaultMacdSignal: int := 9
  const DefaultRsiPeriod: int := 14

  /** Argument validation shared by all indicators: the data must be non-empty,
      the period positive and no longer than the data. The checks run in that
      order, and only the last one mentions `name`. */
  function ValidateParams(data: seq<real>, period: int, name: string): (c: Check)
    ensures c.Pass? <==> 0 < period <= |data|
    ensures c == Fail(EmptyData) <==> |data| == 0
    ensures c == Fail(NonPositivePeriod) <==> |data| > 0 && period <= 0
    ensures c.Fail? && c.error.TooShort? ==> c.error == TooShort(name, |data|, period) && 0 < |data| < period
  {
    if |data| == 0 then Fail(EmptyData)
    else if period <= 0 then Fail(NonPositivePeriod)
    else if |data| < period then Fail(TooShort(name, |data|, period))
    else Pass
  }

  /** Sum of a sequence, accumulated from the front as `std::accumulate` does. */
  function Sum(s: seq<real>): real
  {
    if |s| == 0 then 0.0 else Sum(s[..|s| - 1]) + s[|s| - 1]
  }

  /** Adding an element in front adds it to the sum. */
  lemma {:induction false} SumCons(x: real, s: seq<real>)
    ensures Sum([x] + s) == x + Sum(s)
  {
    if |s| > 0 {
      var t := [x] + s;
      assert t[..|t| - 1] == [x] + s[..|s| - 1];
      SumCons(x, s[..|s| - 1]);
    }
  }

  /** A sequence of `n` copies of `c` sums to `n·c`. */
  lemma {:induction false} SumConstant(s: seq<real>, c: real)
    requires forall i :: 0 <= i < |s| ==> s[i] == c
    ensures Sum(s) == (|s| as real) * c
  {
    if |s| > 0 {
      SumConstant(s[..|s| - 1], c);
    }
  }

  /** Arithmetic mean. */
  function Mean(s: seq<real>): real
    requires |s| > 0
  {
    Sum(s) / (|s| as real)
  }

  /** The mean of a constant sequence is that constant. */
  lemma MeanOfConstant(s: seq<real>, c: real)
    requires |s| > 0
    requires forall i :: 0 <= i < |s| ==> s[i] == c
    ensures Mean(s) == c
  {
    SumConstant(s, c);
  }

  /** Simple moving average: one value per full window of `period` prices,
      the k-th being the mean of `prices[k .. k + period - 1]`. */
  method CalculateMa(prices: seq<real>, period: int) returns (r: Outcome<seq<real>>)
    ensures ValidateParams(prices, period, "MA").Fail? ==> r == Thrown(ValidateParams(prices, period, "MA").error)
    ensures ValidateParams(prices, period, "MA").Pass? ==> r.Done?
    ensures r.Done? ==> |r.value| == |prices| - period + 1
    ensures r.Done? ==> forall k :: 0 <= k < |r.value| ==> r.value[k] == Mean(prices[k..k + period])
  {
    var check := ValidateParams(prices, period, "MA");
    if check.Fail? {
      return Thrown(check.error);
    }
    var values: seq<real> := [];
    var i := period - 1;
    while i < |prices|
      invariant period - 1 <= i <= |prices|
      invariant |values| == i - period + 1
      invariant forall k :: 0 <= k < |values| ==> values[k] == Mean(prices[k..k + period])
    {
      var sum := 0.0;
      var j := 0;
      while j < period
        invariant 0 <= j <= period
        invariant sum == Sum(prices[i - j + 1..i + 1])
      {
        SumCons(prices[i - j], prices[i - j + 1..i + 1]);
        assert [prices[i - j]] + prices[i - j + 1..i + 1] == prices[i - j..i + 1];
        sum := sum + prices[i - j];
        j := j + 1;
      }
      values := values + [sum / (period as real)];
      i := i + 1;
    }
    return Done(values);
  }

  /** A constant price series has a constant moving average. */
  lemma MaOfConstant(prices: seq<real>, period: int, c: real, k: int)
    requires 0 < period <= |prices|
    requires forall i :: 0 <= i < |prices| ==> prices[i] == c
    requires 0 <= k <= |prices| - period
    ensures Mean(prices[k..k + period]) == c
  {
    MeanOfConstant(prices[k..k + period], c);
  }

  lemma SumOfThree(a: real, b: real, c: real)
    ensures Sum([a, b, c]) == a + b + c
  {
    assert [a, b, c][..2] == [a, b];
    assert [a, b][..1] == [a];
    assert [a][..0] == [];
    assert Sum([a]) == a;
    assert Sum([a, b]) == a + b;
  }

  /** The documented example: MA(3) of [100, 102, 104, 106, 108] is [102, 104, 106]. */
  lemma MaDocExample()
    ensures var p := [100.0, 102.0, 104.0, 106.0, 108.0];
      && Mean(p[0..3]) == 102.0 && Mean(p[1..4]) == 104.0 && Mean(p[2..5]) == 106.0
  {
    var p := [100.0, 102.0, 104.0, 106.0, 108.0];
    assert p[0..3] == [100.0, 102.0, 104.0];
    assert p[1..4] == [102.0, 104.0, 106.0];
    assert p[2..5] == [104.0, 106.0, 108.0];
    SumOfThree(100.0, 102.0, 104.0);
    SumOfThree(102.0, 104.0, 106.0);
    SumOfThree(104.0, 106.0, 108.0);
  }

  /** EMA smoothing factor 2 / (period + 1). */
  function Alpha(period: int): real
    requires period >= 1
  {
    2.0 / (period as real + 1.0)
  }

  /** The k-th EMA value: the mean of the first `period` prices, then the
      recurrence `α·price + (1 − α)·previous` for each later price. */
  function EmaAt(prices: seq<real>, period: int, k: nat): real
    requires 1 <= period <= |prices| && k <= |prices| - period
    decreases k
  {
    if k == 0 then Mean(prices[..period])
    else Alpha(period) * prices[period - 1 + k] + (1.0 - Alpha(period)) * EmaAt(prices, period, k - 1)
  }

  /** Exponential moving average: `|prices| − period + 1` values following `EmaAt`. */
  method CalculateEma(prices: seq<real>, period: int) returns (r: Outcome<seq<real>>)
    ensures ValidateParams(prices, period, "EMA").Fail? ==> r == Thrown(ValidateParams(prices, period, "EMA").error)
    ensures ValidateParams(prices, period, "EMA").Pass? ==> r.Done?
    ensures r.Done? ==> |r.value| == |prices| - period + 1
    ensures r.Done? ==> forall k :: 0 <= k < |r.value| ==> r.value[k] == EmaAt(prices, period, k)
  {
    var check := ValidateParams(prices, period, "EMA");
    if check.Fail? {
      return Thrown(check.error);
    }
    var sum := PrefixSum(prices, period);
    var ema := sum / (period as real);
    var values := EmaSeries(prices, period, ema);
    return Done(values);
  }

  /** The EMA's seed loop: the sum of the first `n` prices. */
  method PrefixSum(prices: seq<real>, n: int) returns (sum: real)
    requires 0 <= n <= |prices|
    ensures sum == Sum(prices[..n])
  {
    sum := 0.0;
    var i := 0;
    while i < n
      invariant 0 <= i <= n
      invariant sum == Sum(prices[..i])
    {
      assert prices[..i + 1][..i] == prices[..i];
      sum := sum + prices[i];
      i := i + 1;
    }
  }

  /** The EMA's smoothing loop, from the seed average on. */
  method EmaSeries(prices: seq<real>, period: int, seed: real) returns (values: seq<real>)
    requires 1 <= period <= |prices| && seed == EmaAt(prices, period, 0)
    ensures |values| == |prices| - period + 1
    ensures forall k :: 0 <= k < |values| ==> values[k] == EmaAt(prices, period, k)
  {
    var alpha := 2.0 / (period as real + 1.0);
    var ema := seed;
    values := [ema];
    var i := period;
    while i < |prices|
      invariant period <= i <= |prices|
      invariant |values| == i - period + 1
      invariant ema == EmaAt(prices, period, i - period)
      invariant forall k :: 0 <= k < |values| ==> values[k] == EmaAt(prices, period, k)
    {
      assert EmaAt(prices, period, i - period + 1) == Alpha(period) * prices[i] + (1.0 - Alpha(period)) * ema;
      ema := alpha * prices[i] + (1.0 - alpha) * ema;
      values := values + [ema];
      i := i + 1;
    }
  }

  /** With period 1 the EMA reproduces its input. */
  lemma EmaPeriodOne(prices: seq<real>, k: nat)
    requires 1 <= |prices| && k < |prices|
    ensures EmaAt(prices, 1, k) == prices[k]
  {
    if k == 0 {
      assert prices[..1] == [prices[0]];
      assert Sum(prices[..1]) == Sum(prices[..1][..0]) + prices[0];
    }
  }

  /** A constant price series has a constant EMA. */
  lemma {:induction false} EmaOfConstant(prices: seq<real>, period: int, c: real, k: nat)
    requires 1 <= period <= |prices| && k <= |prices| - period
    requires forall i :: 0 <= i < |prices| ==> prices[i] == c
    ensures EmaAt(prices, period, k) == c
  {
    if k == 0 {
      MeanOfConstant(prices[..period], c);
    } else {
      EmaOfConstant(prices, period, c, k - 1);
    }
  }

  /** The three MACD series. */
  datatype MacdResult = MacdResult(dif: seq<real>, dea: seq<real>, histogram: seq<real>)

  /** MACD. DIF subtracts the slow EMA from the fast EMA shifted by
      `slow − fast`; DEA is the EMA of DIF when DIF is long enough (and empty
      otherwise); the histogram subtracts DEA from DIF shifted by `signal − 1`.
      The caller must not let a longer fast period through: the shift would then
      index before the fast series. */
  method CalculateMacd(prices: seq<real>, fast: int, slow: int, signal: int) returns (r: Outcome<MacdResult>)
    requires 0 < slow <= |prices| && 0 < fast <= |prices| ==> fast <= slow
    ensures ValidateParams(prices, slow, "MACD").Fail? ==> r == Thrown(ValidateParams(prices, slow, "MACD").error)
    ensures ValidateParams(prices, slow, "MACD").Pass? && ValidateParams(prices, fast, "EMA").Fail? ==>
      r == Thrown(ValidateParams(prices, fast, "EMA").error)
    ensures ValidateParams(prices, slow, "MACD").Pass? && ValidateParams(prices, fast, "EMA").Pass? ==>
      (r.Thrown? <==> signal == 0) && (signal == 0 ==> r == Thrown(NonPositivePeriod))
    ensures r.Done? ==> 0 < fast <= slow <= |prices|
    ensures r.Done? ==> |r.value.dif| == |prices| - slow + 1
    ensures r.Done? ==> forall i :: 0 <= i < |r.value.dif| ==>
      r.value.dif[i] == EmaAt(prices, fast, i + slow - fast) - EmaAt(prices, slow, i)
    ensures r.Done? && (signal < 0 || |r.value.dif| < signal) ==> r.value.dea == []
    ensures r.Done? && 0 < signal <= |r.value.dif| ==>
      |r.value.dea| == |r.value.dif| - signal + 1 &&
      forall k :: 0 <= k < |r.value.dea| ==> r.value.dea[k] == EmaAt(r.value.dif, signal, k)
    ensures r.Done? ==> |r.value.dea| <= |r.value.dif| && |r.value.histogram| == |r.value.dea|
    ensures r.Done? ==> forall i :: 0 <= i < |r.value.histogram| ==>
      0 <= i + signal - 1 < |r.value.dif| &&
      r.value.histogram[i] == r.value.dif[i + signal - 1] - r.value.dea[i]
  {
    var check := ValidateParams(prices, slow, "MACD");
    if check.Fail? {
      return Thrown(check.error);
    }
    var fastEma := CalculateEma(prices, fast);
    if fastEma.Thrown? {
      return Thrown(fastEma.error);
    }
    var slowEma := CalculateEma(prices, slow);
    if slowEma.Thrown? {
      // slow was validated above, so this cannot happen
      assert false;
    }
    var f, s := fastEma.value, slowEma.value;
    var dif := AlignedDifference(f, s, fast - slow);
    var dea: seq<real> := [];
    if signal >= 0 && |dif| >= signal {
      var d := CalculateEma(dif, signal);
      if d.Thrown? {
        return Thrown(d.error);
      }
      dea := d.value;
    }
    // the histogram loop runs once per DEA value, so it is empty whenever DEA is
    var histogram: seq<real> := [];
    if |dea| > 0 {
      histogram := AlignedDifference(dif, dea, -(signal - 1));
    }
    return Done(MacdResult(dif, dea, histogram));
  }

  /** The MACD alignment loops: `out[i] = longer[i - offset] − shorter[i]`
      for every index of the shorter series, `offset` being zero or negative. */
  method AlignedDifference(longer: seq<real>, shorter: seq<real>, offset: int) returns (out: seq<real>)
    requires offset <= 0 && |shorter| - offset <= |longer|
    ensures |out| == |shorter|
    ensures forall i :: 0 <= i < |shorter| ==> out[i] == longer[i - offset] - shorter[i]
  {
    out := [];
    var i := 0;
    while i < |shorter|
      invariant 0 <= i <= |shorter|
      invariant |out| == i
      invariant forall j :: 0 <= j < i ==> out[j] == longer[j - offset] - shorter[j]
    {
      out := out + [longer[i - offset] - shorter[i]];
      i := i + 1;
    }
  }

  /** Gain and loss of one price change; both are never negative. */
  function Gain(change: real): (g: real)
    ensures g >= 0.0 && (g > 0.0 <==> change > 0.0)
  {
    if change > 0.0 then change else 0.0
  }

  function Loss(change: real): (l: real)
    ensures l >= 0.0 && (l > 0.0 <==> change < 0.0)
  {
    if change < 0.0 then -change else 0.0
  }

  /** Wilder smoothing of a non-negative series: the mean of the first
      `period` values, then `(avg·(period − 1) + x) / period` for each later x.
      Non-negative inputs give non-negative averages. */
  function Smoothed(xs: seq<real>, period: int, k: nat): (avg: real)
    requires 1 <= period <= |xs| && k <= |xs| - period
    requires forall i :: 0 <= i < |xs| ==> xs[i] >= 0.0
    ensures avg >= 0.0
    decreases k
  {
    if k == 0 then SumNonNegative(xs[..period]); Sum(xs[..period]) / (period as real)
    else WilderStep(Smoothed(xs, period, k - 1), xs[period - 1 + k], period)
  }

  /** One Wilder smoothing step `(avg·(period − 1) + x) / period`. */
  function WilderStep(avg: real, x: real, period: int): (next: real)
    requires period >= 1
    ensures avg >= 0.0 && x >= 0.0 ==> next >= 0.0
  {
    var weighted := avg * (period as real - 1.0);
    assert avg >= 0.0 ==> weighted >= 0.0;
    (weighted + x) / (period as real)
  }

  lemma {:induction false} SumNonNegative(s: seq<real>)
    requires forall i :: 0 <= i < |s| ==> s[i] >= 0.0
    ensures Sum(s) >= 0.0
  {
    if |s| > 0 {
      SumNonNegative(s[..|s| - 1]);
    }
  }

  /** RSI from the two averages. A zero average loss is treated as `rs = 100`,
      so the value is then 100 − 100/101 rather than 100; every value lies in [0, 100). */
  function RsiValue(avgGain: real, avgLoss: real): (rsi: real)
    requires avgGain >= 0.0 && avgLoss >= 0.0
    ensures 0.0 <= rsi < 100.0
    ensures avgLoss == 0.0 ==> rsi == 100.0 - 100.0 / 101.0
  {
    var rs := if avgLoss == 0.0 then 100.0 else avgGain / avgLoss;
    var q := 100.0 / (1.0 + rs);
    assert q * (1.0 + rs) == 100.0;
    assert 0.0 < q <= 100.0;
    100.0 - q
  }

  /** Per-step gains and losses of a price series (one fewer than the prices). */
  function Gains(prices: seq<real>): (g: seq<real>)
    requires |prices| >= 1
    ensures |g| == |prices| - 1 && forall i :: 0 <= i < |g| ==> g[i] >= 0.0
  {
    seq(|prices| - 1, i requires 0 <= i < |prices| - 1 => Gain(prices[i + 1] - prices[i]))
  }

  function Losses(prices: seq<real>): (l: seq<real>)
    requires |prices| >= 1
    ensures |l| == |prices| - 1 && forall i :: 0 <= i < |l| ==> l[i] >= 0.0
  {
    seq(|prices| - 1, i requires 0 <= i < |prices| - 1 => Loss(prices[i + 1] - prices[i]))
  }

  /** Relative strength index: `|prices| − period` values, the k-th computed
      from the k-th Wilder averages of gains and losses. Period 0 passes the
      length check (which uses period + 1) but then divides by zero, so it is
      excluded. */
  method CalculateRsi(prices: seq<real>, period: int) returns (r: Outcome<seq<real>>)
    requires period != 0
    ensures ValidateParams(prices, period + 1, "RSI").Fail? ==> r == Thrown(ValidateParams(prices, period + 1, "RSI").error)
    ensures ValidateParams(prices, period + 1, "RSI").Pass? ==> r.Done? && period >= 1
    ensures r.Done? ==> |r.value| == |prices| - period
    ensures r.Done? ==> forall k :: 0 <= k < |r.value| ==>
      r.value[k] == RsiValue(Smoothed(Gains(prices), period, k), Smoothed(Losses(prices), period, k))
    ensures r.Done? ==> forall k :: 0 <= k < |r.value| ==> 0.0 <= r.value[k] < 100.0
  {
    var check := ValidateParams(prices, period + 1, "RSI");
    if check.Fail? {
      return Thrown(check.error);
    }
    var gains, losses := PriceChanges(prices);
    var values := WilderRsi(gains, losses, period);
    return Done(values);
  }

  /** The k-th RSI value from the k-th Wilder averages. */
  function RsiAt(gains: seq<real>, losses: seq<real>, period: int, k: nat): real
    requires 1 <= period <= |gains| == |losses| && k <= |gains| - period
    requires forall i :: 0 <= i < |gains| ==> gains[i] >= 0.0
    requires forall i :: 0 <= i < |losses| ==> losses[i] >= 0.0
  {
    RsiValue(Smoothed(gains, period, k), Smoothed(losses, period, k))
  }

  /** The seed and smoothing loops of the RSI over precomputed gains and losses. */
  method WilderRsi(gains: seq<real>, losses: seq<real>, period: int) returns (values: seq<real>)
    requires 1 <= period <= |gains| == |losses|
    requires forall i :: 0 <= i < |gains| ==> gains[i] >= 0.0
    requires forall i :: 0 <= i < |losses| ==> losses[i] >= 0.0
    ensures |values| == |gains| - period + 1
    ensures forall k :: 0 <= k < |values| ==> values[k] == RsiValue(Smoothed(gains, period, k), Smoothed(losses, period, k))
  {
    var avgGain := SeedAverage(gains, period);
    var avgLoss := SeedAverage(losses, period);
    values := [RsiValue(avgGain, avgLoss)];
    var i := period;
    while i < |gains|
      invariant period <= i <= |gains|
      invariant |values| == i - period + 1
      invariant avgGain == Smoothed(gains, period, i - period) && avgLoss == Smoothed(losses, period, i - period)
      invariant forall k :: 0 <= k < |values| ==> values[k] == RsiAt(gains, losses, period, k)
    {
      avgGain := WilderStep(avgGain, gains[i], period);
      avgLoss := WilderStep(avgLoss, losses[i], period);
      values := values + [RsiValue(avgGain, avgLoss)];
      i := i + 1;
    }
  }

  /** The first loop of the RSI: per-step gains and losses. */
  method PriceChanges(prices: seq<real>) returns (gains: seq<real>, losses: seq<real>)
    requires |prices| >= 1
    ensures gains == Gains(prices) && losses == Losses(prices)
  {
    gains, losses := [], [];
    var i := 1;
    while i < |prices|
      invariant 1 <= i <= |prices|
      invariant |gains| == i - 1 && |losses| == i - 1
      invariant forall j :: 0 <= j < i - 1 ==> gains[j] == Gain(prices[j + 1] - prices[j])
      invariant forall j :: 0 <= j < i - 1 ==> losses[j] == Loss(prices[j + 1] - prices[j])
    {
      var change := prices[i] - prices[i - 1];
      gains := gains + [Gain(change)];
      losses := losses + [Loss(change)];
      i := i + 1;
    }
    assert forall j :: 0 <= j < |gains| ==> gains[j] == Gains(prices)[j];
    assert forall j :: 0 <= j < |losses| ==> losses[j] == Losses(prices)[j];
  }

  /** The RSI's initial average: the mean of the first `period` values. */
  method SeedAverage(xs: seq<real>, period: int) returns (avg: real)
    requires 1 <= period <= |xs|
    requires forall i :: 0 <= i < |xs| ==> xs[i] >= 0.0
    ensures avg == Smoothed(xs, period, 0)
  {
    avg := 0.0;
    for i := 0 to period
      invariant avg == Sum(xs[..i])
    {
      assert xs[..i + 1][..i] == xs[..i];
      avg := avg + xs[i];
    }
    avg := avg / (period as real);
  }

  /** The "close" series as written: it reads each bar's OPEN price. */
  method ExtractClosePrices(bars: seq<Ohlcv>) returns (prices: seq<real>)
    ensures |prices| == |bars| && forall i :: 0 <= i < |bars| ==> prices[i] == bars[i].open
  {
    prices := [];
    for i := 0 to |bars|
      invariant |prices| == i && forall j :: 0 <= j < i ==> prices[j] == bars[j].open
    {
      prices := prices + [bars[i].open];
    }
  }

  method ExtractHighPrices(bars: seq<Ohlcv>) returns (prices: seq<real>)
    ensures |prices| == |bars| && forall i :: 0 <= i < |bars| ==> prices[i] == bars[i].high
  {
    prices := [];
    for i := 0 to |bars|
      invariant |prices| == i && forall j :: 0 <= j < i ==> prices[j] == bars[j].high
    {
      prices := prices + [bars[i].high];
    }
  }

  method ExtractLowPrices(bars: seq<Ohlcv>) returns (prices: seq<real>)
    ensures |prices| == |bars| && forall i :: 0 <= i < |bars| ==> prices[i] == bars[i].low
  {
    prices := [];
    for i := 0 to |bars|
      invariant |prices| == i && forall j :: 0 <= j < i ==> prices[j] == bars[j].low
    {
      prices := prices + [bars[i].low];
    }
  }

  method ExtractVolumes(bars: seq<Ohlcv>) returns (volumes: seq<real>)
    ensures |volumes| == |bars| && forall i :: 0 <= i < |bars| ==> volumes[i] == bars[i].volume
  {
    volumes := [];
    for i := 0 to |bars|
      invariant |volumes| == i && forall j :: 0 <= j < i ==> volumes[j] == bars[j].volume
    {
      volumes := volumes + [bars[i].volume];
    }
  }

  /** MA of the series `ExtractClosePrices` returns, i.e. of the open prices. */
  method CalculateMaFromOhlcv(bars: seq<Ohlcv>, period: int) returns (r: Outcome<seq<real>>)
    ensures 0 < period <= |bars| ==> r.Done? && |r.value| == |bars| - period + 1
    ensures !(0 < period <= |bars|) ==> r.Thrown?
    ensures r.Thrown? ==>
      r == Thrown(ValidateParams(seq(|bars|, i requires 0 <= i < |bars| => bars[i].open), period, "MA").error)
    ensures r.Done? ==> forall k :: 0 <= k < |r.value| ==>
      r.value[k] == Mean(seq(period, j requires 0 <= j < period => bars[k + j].open))
  {
    var prices := ExtractClosePrices(bars);
    assert prices == seq(|bars|, i requires 0 <= i < |bars| => bars[i].open);
    r := CalculateMa(prices, period);
    if r.Done? {
      forall k | 0 <= k < |r.value|
        ensures r.value[k] == Mean(seq(period, j requires 0 <= j < period => bars[k + j].open))
      {
        assert prices[k..k + period] == seq(period, j requires 0 <= j < period => bars[k + j].open);
      }
    }
  }
}
