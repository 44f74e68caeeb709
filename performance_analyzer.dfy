/** The performance analyzer: a post-processor over an equity curve, its
    timestamps and the trade log. `sqrt` and `pow` come in as parameters; the
    model keeps everything around them (the guards, the variance, the base and
    exponent). */
module Performance {
  import opened Strategy
  import Backtest
  import MaCross
  import Indicators
  import N = Numeric

  /** `365.25·24·3600`, the seconds in a year, which both time-based metrics
      divide a timestamp difference by. */
  const SecondsPerYear: real := 365.25 * 24.0 * 3600.0

  const Epsilon: real := 0.00000001

  const MillisecondsPerDay: real := 24.0 * 3600.0 * 1000.0

  datatype Metrics = Metrics(
    annualizedReturn: real,
    cumulativeReturn: real,
    equityCurve: seq<real>,
    maxDrawdown: real,
    sharpeRatio: real,
    sortinoRatio: real,
    calmarRatio: real,
    volatility: real,
    downsideDeviation: real,
    profitLossRatio: real,
    maxConsecutiveWins: int,
    maxConsecutiveLosses: int,
    avgHoldingPeriod: real,
    tradeFrequencyPerYear: real,
    drawdownCurve: seq<real>)

  /** The default-constructed metrics: every number zero, both curves empty. */
  function ZeroMetrics(): (m: Metrics)
    ensures m.annualizedReturn == 0.0 && m.cumulativeReturn == 0.0 && m.maxDrawdown == 0.0
    ensures m.sharpeRatio == 0.0 && m.sortinoRatio == 0.0 && m.calmarRatio == 0.0
    ensures m.volatility == 0.0 && m.downsideDeviation == 0.0 && m.profitLossRatio == 0.0
    ensures m.maxConsecutiveWins == 0 && m.maxConsecutiveLosses == 0
    ensures m.avgHoldingPeriod == 0.0 && m.tradeFrequencyPerYear == 0.0
    ensures m.equityCurve == [] && m.drawdownCurve == []
  {
    Metrics(0.0, 0.0, [], 0.0, 0.0, 0.0, 0.0, 0.0, 0.0, 0.0, 0, 0, 0.0, 0.0, [])
  }

  /** `std::accumulate` over a sequence. */
  method Accumulate(xs: seq<real>) returns (s: real)
    ensures s == Indicators.Sum(xs)
  {
    s := 0.0;
    for i := 0 to |xs|
      invariant s == Indicators.Sum(xs[..i])
    {
      assert xs[..i + 1][..i] == xs[..i];
      s := s + xs[i];
    }
    assert xs[..|xs|] == xs;
  }

  // ---------------------------------------------------------------- returns

  /** The simple returns over the first `n` equity values: one per index
      `i < n` whose predecessor is positive; other pairs are skipped. */
  function ReturnsUpTo(e: seq<real>, n: nat): (r: seq<real>)
    requires n <= |e|
    ensures |r| <= if n == 0 then 0 else n - 1
  {
    if n <= 1 then []
    else ReturnsUpTo(e, n - 1) + (if e[n - 2] > 0.0 then [(e[n - 1] - e[n - 2]) / e[n - 2]] else [])
  }

  function Returns(e: seq<real>): (r: seq<real>)
    ensures |e| > 0 ==> |r| <= |e| - 1
    ensures |e| <= 1 ==> r == []
  {
    ReturnsUpTo(e, |e|)
  }

  /** Along a positive curve nothing is skipped: n − 1 returns, the i-th being
      the relative change from `e[i]` to `e[i+1]`. */
  lemma {:induction false} ReturnsOfPositiveCurve(e: seq<real>, n: nat)
    requires 1 <= n <= |e|
    requires forall i :: 0 <= i < |e| ==> e[i] > 0.0
    ensures |ReturnsUpTo(e, n)| == n - 1
    ensures forall i :: 0 <= i < n - 1 ==> ReturnsUpTo(e, n)[i] == (e[i + 1] - e[i]) / e[i]
  {
    if n > 1 {
      ReturnsOfPositiveCurve(e, n - 1);
    }
  }

  method CalculateReturns(e: seq<real>) returns (rs: seq<real>)
    ensures rs == Returns(e)
  {
    rs := [];
    if |e| < 2 {
      return;
    }
    var i := 1;
    while i < |e|
      invariant 1 <= i <= |e|
      invariant rs == ReturnsUpTo(e, i)
    {
      if e[i - 1] > 0.0 {
        rs := rs + [(e[i] - e[i - 1]) / e[i - 1]];
      }
      i := i + 1;
    }
  }

  // --------------------------------------------------------------- drawdown

  /** The running peak: the largest of `e[0..i]`. */
  function Peak(e: seq<real>, i: nat): (p: real)
    requires i < |e|
    ensures forall j :: 0 <= j <= i ==> e[j] <= p
    ensures exists j :: 0 <= j <= i && e[j] == p
  {
    if i == 0 then e[0]
    else
      var prev := Peak(e, i - 1);
      if e[i] > prev then e[i] else prev
  }

  /** The fractional fall from the running peak, `(peak − e[i]) / peak`. */
  function DrawdownAt(e: seq<real>, i: nat): real
    requires i < |e|
  {
    N.Div(Peak(e, i) - e[i], Peak(e, i))
  }

  function DrawdownCurve(e: seq<real>): (dd: seq<real>)
    ensures |dd| == |e|
    ensures forall i :: 0 <= i < |e| ==> dd[i] == DrawdownAt(e, i)
  {
    seq(|e|, i requires 0 <= i < |e| => DrawdownAt(e, i))
  }

  method CalculateDrawdownCurve(e: seq<real>) returns (dd: seq<real>)
    ensures dd == DrawdownCurve(e)
  {
    dd := [];
    if |e| == 0 {
      return;
    }
    var peak := e[0];
    var i := 0;
    while i < |e|
      invariant 0 <= i <= |e|
      invariant |dd| == i
      invariant forall j :: 0 <= j < i ==> dd[j] == DrawdownAt(e, j)
      invariant peak == if i == 0 then e[0] else Peak(e, i - 1)
    {
      var equity := e[i];
      if equity > peak {
        peak := equity;
      }
      dd := dd + [N.Div(peak - equity, peak)];
      i := i + 1;
    }
  }

  /** At a new high-water mark the drawdown is 0. */
  lemma DrawdownZeroAtNewPeak(e: seq<real>, i: nat)
    requires i < |e|
    requires forall j :: 0 <= j <= i ==> e[j] <= e[i]
    ensures DrawdownCurve(e)[i] == 0.0
  {
    var j :| 0 <= j <= i && e[j] == Peak(e, i);
    assert Peak(e, i) == e[i];
  }

  /** Along a positive curve every drawdown lies in [0, 1). */
  lemma DrawdownBounds(e: seq<real>, i: nat)
    requires i < |e|
    requires forall j :: 0 <= j < |e| ==> e[j] > 0.0
    ensures 0.0 <= DrawdownCurve(e)[i] < 1.0
  {
    var p := Peak(e, i);
    assert p >= e[i] > 0.0;
    FractionBounds(p - e[i], p);
  }

  lemma FractionBounds(a: real, p: real)
    requires 0.0 <= a < p
    ensures 0.0 <= a / p < 1.0
  {
    var d := a / p;
    assert d * p == a;
  }

  /** The largest element. */
  function SeqMax(s: seq<real>): (m: real)
    requires |s| > 0
    ensures forall i :: 0 <= i < |s| ==> s[i] <= m
    ensures exists i :: 0 <= i < |s| && s[i] == m
  {
    if |s| == 1 then s[0]
    else
      var prev := SeqMax(s[..|s| - 1]);
      assert forall i :: 0 <= i < |s| - 1 ==> s[..|s| - 1][i] == s[i];
      if s[|s| - 1] > prev then s[|s| - 1] else prev
  }

  /** The maximum of the drawdown curve, 0 for an empty curve. */
  function MaxDrawdown(e: seq<real>): (md: real)
    ensures |e| == 0 ==> md == 0.0
    ensures forall i :: 0 <= i < |e| ==> DrawdownCurve(e)[i] <= md
    ensures |e| > 0 ==> exists i :: 0 <= i < |e| && DrawdownCurve(e)[i] == md
  {
    if |e| == 0 then 0.0 else SeqMax(DrawdownCurve(e))
  }

  /** Along a positive curve the maximum drawdown lies in [0, 1). */
  lemma MaxDrawdownBounds(e: seq<real>)
    requires |e| > 0
    requires forall j :: 0 <= j < |e| ==> e[j] > 0.0
    ensures 0.0 <= MaxDrawdown(e) < 1.0
  {
    var i :| 0 <= i < |e| && DrawdownCurve(e)[i] == MaxDrawdown(e);
    DrawdownBounds(e, i);
  }

  method CalculateMaxDrawdown(e: seq<real>) returns (md: real)
    ensures md == MaxDrawdown(e)
  {
    if |e| == 0 {
      return 0.0;
    }
    var dd := CalculateDrawdownCurve(e);
    if |dd| == 0 {
      return 0.0;
    }
    md := MaxElement(dd);
  }

  /** `*std::max_element` over a non-empty sequence. */
  method MaxElement(s: seq<real>) returns (m: real)
    requires |s| > 0
    ensures m == SeqMax(s)
  {
    m := s[0];
    var i := 1;
    while i < |s|
      invariant 1 <= i <= |s|
      invariant m == SeqMax(s[..i])
    {
      assert s[..i + 1][..i] == s[..i];
      if s[i] > m {
        m := s[i];
      }
      i := i + 1;
    }
    assert s[..i] == s;
  }

  /** The curve 100, 120, 90, 130 has drawdowns 0, 0, 0.25, 0 and maximum 0.25. */
  lemma DrawdownExample()
    ensures DrawdownCurve([100.0, 120.0, 90.0, 130.0]) == [0.0, 0.0, 0.25, 0.0]
    ensures MaxDrawdown([100.0, 120.0, 90.0, 130.0]) == 0.25
  {
    var e := [100.0, 120.0, 90.0, 130.0];
    assert Peak(e, 0) == 100.0;
    assert Peak(e, 1) == 120.0;
    assert Peak(e, 2) == 120.0;
    assert Peak(e, 3) == 130.0;
    var dd := DrawdownCurve(e);
    assert dd[2] == 0.25;
    assert dd == [0.0, 0.0, 0.25, 0.0];
  }

  // --------------------------------------------------------- return ratios

  /** `(final − initial) / initial`, or 0 when the initial capital is not positive. */
  function CumulativeReturn(initial: real, final: real): (r: real)
    ensures initial <= 0.0 ==> r == 0.0
    ensures initial > 0.0 ==> r * initial == final - initial && (r > 0.0 <==> final > initial)
  {
    if initial <= 0.0 then 0.0 else (final - initial) / initial
  }

  /** `pow(1 + total, 1 / years) − 1`, where `total` is the cumulative return and
      `years` the timestamp difference over `SecondsPerYear`; 0 when either
      capital is not positive or the span is not positive. */
  function AnnualizedReturn(pow: (real, real) -> real, initial: real, final: real, start: int, end: int): (r: real)
    ensures initial <= 0.0 || final <= 0.0 || end <= start ==> r == 0.0
    ensures initial > 0.0 && final > 0.0 && end > start ==>
      r == pow(1.0 + CumulativeReturn(initial, final), SecondsPerYear / ((end - start) as real)) - 1.0
  {
    if initial <= 0.0 || final <= 0.0 then 0.0
    else
      var total := (final - initial) / initial;
      var span := end - start;
      if span <= 0 then 0.0
      else
        var years := span as real / SecondsPerYear;
        if years <= 0.0 then 0.0
        else
          InverseYears(span);
          pow(1.0 + total, 1.0 / years) - 1.0
  }

  lemma InverseYears(span: int)
    requires span > 0
    ensures 1.0 / (span as real / SecondsPerYear) == SecondsPerYear / (span as real)
  {
  }

  /** Timestamps are milliseconds but the span is divided by seconds per year,
      so a one-year span counts as 1000 years: the exponent is 1/1000. */
  lemma AnnualizedOverMillisecondYear(pow: (real, real) -> real, initial: real, final: real, start: int)
    requires initial > 0.0 && final > 0.0
    ensures AnnualizedReturn(pow, initial, final, start, start + 31557600000)
         == pow(1.0 + CumulativeReturn(initial, final), 1.0 / 1000.0) - 1.0
  {
    assert SecondsPerYear / (31557600000 as real) == 1.0 / 1000.0;
  }

  /** `annualized / maxDrawdown`, or 0 when the maximum drawdown is 0. */
  function CalmarRatio(annualized: real, maxDrawdown: real): (r: real)
    ensures maxDrawdown == 0.0 ==> r == 0.0
    ensures maxDrawdown != 0.0 ==> r * maxDrawdown == annualized
  {
    if maxDrawdown == 0.0 then 0.0 else annualized / maxDrawdown
  }

  // ----------------------------------------------------------- risk ratios

  /** The sum of squared deviations from `m`. */
  function SumSquaredDeviations(xs: seq<real>, m: real): (total: real)
    ensures total >= 0.0
  {
    if |xs| == 0 then 0.0
    else
      var d := xs[|xs| - 1] - m;
      SumSquaredDeviations(xs[..|xs| - 1], m) + d * d
  }

  /** Population variance: mean squared deviation from the mean. */
  function Variance(xs: seq<real>): (v: real)
    requires |xs| > 0
    ensures v >= 0.0
  {
    SumSquaredDeviations(xs, Indicators.Mean(xs)) / (|xs| as real)
  }

  /** Constant returns have no variance. */
  lemma {:induction false} SquaredDeviationsOfConstant(xs: seq<real>, c: real)
    requires forall i :: 0 <= i < |xs| ==> xs[i] == c
    ensures SumSquaredDeviations(xs, c) == 0.0
  {
    if |xs| > 0 {
      SquaredDeviationsOfConstant(xs[..|xs| - 1], c);
    }
  }

  lemma VarianceOfConstant(xs: seq<real>, c: real)
    requires |xs| > 0 && forall i :: 0 <= i < |xs| ==> xs[i] == c
    ensures Variance(xs) == 0.0
  {
    Indicators.MeanOfConstant(xs, c);
    SquaredDeviationsOfConstant(xs, c);
  }

  /** `sqrt` of the variance; 0 for fewer than two returns. */
  function Volatility(sqrt: real -> real, rs: seq<real>): (v: real)
    ensures |rs| < 2 ==> v == 0.0
    ensures |rs| >= 2 ==> v == sqrt(Variance(rs))
  {
    if |rs| < 2 then 0.0 else sqrt(Variance(rs))
  }

  /** The loop that sums squared deviations from `m`. */
  method AccumulateSquares(xs: seq<real>, m: real) returns (total: real)
    ensures total == SumSquaredDeviations(xs, m)
  {
    total := 0.0;
    for i := 0 to |xs|
      invariant total == SumSquaredDeviations(xs[..i], m)
    {
      assert xs[..i + 1][..i] == xs[..i];
      var diff := xs[i] - m;
      total := total + diff * diff;
    }
    assert xs[..|xs|] == xs;
  }

  method CalculateVolatility(sqrt: real -> real, rs: seq<real>) returns (v: real)
    ensures v == Volatility(sqrt, rs)
  {
    if |rs| < 2 {
      return 0.0;
    }
    var total := Accumulate(rs);
    var mean := total / (|rs| as real);
    var variance := AccumulateSquares(rs, mean);
    variance := variance / (|rs| as real);
    v := sqrt(variance);
  }

  /** The negative returns, in order. */
  function Negatives(rs: seq<real>): (neg: seq<real>)
    ensures |neg| <= |rs|
    ensures forall i :: 0 <= i < |neg| ==> neg[i] < 0.0
  {
    if |rs| == 0 then []
    else
      var last := rs[|rs| - 1];
      Negatives(rs[..|rs| - 1]) + (if last < 0.0 then [last] else [])
  }

  /** Without a negative return there is nothing to filter. */
  lemma {:induction false} NegativesOfNonNegative(rs: seq<real>)
    requires forall i :: 0 <= i < |rs| ==> rs[i] >= 0.0
    ensures Negatives(rs) == []
  {
    if |rs| > 0 {
      NegativesOfNonNegative(rs[..|rs| - 1]);
    }
  }

  /** The mean square of the negative returns (deviation from 0, not from their mean). */
  function DownsideVariance(rs: seq<real>): (v: real)
    requires |Negatives(rs)| > 0
    ensures v >= 0.0
  {
    var neg := Negatives(rs);
    SumSquaredDeviations(neg, 0.0) / (|neg| as real)
  }

  /** `sqrt` of the downside variance; 0 without returns or without a negative one. */
  function DownsideDeviation(sqrt: real -> real, rs: seq<real>): (d: real)
    ensures |Negatives(rs)| == 0 ==> d == 0.0
    ensures |Negatives(rs)| > 0 ==> d == sqrt(DownsideVariance(rs))
  {
    if |rs| == 0 then 0.0
    else if |Negatives(rs)| == 0 then 0.0
    else sqrt(DownsideVariance(rs))
  }

  /** A series that never loses has no downside deviation. */
  lemma NoLossNoDownside(sqrt: real -> real, rs: seq<real>)
    requires forall i :: 0 <= i < |rs| ==> rs[i] >= 0.0
    ensures DownsideDeviation(sqrt, rs) == 0.0
  {
    NegativesOfNonNegative(rs);
  }

  /** The loop that keeps the negative returns. */
  method CollectNegatives(rs: seq<real>) returns (downside: seq<real>)
    ensures downside == Negatives(rs)
  {
    downside := [];
    for i := 0 to |rs|
      invariant downside == Negatives(rs[..i])
    {
      assert rs[..i + 1][..i] == rs[..i];
      if rs[i] < 0.0 {
        downside := downside + [rs[i]];
      }
    }
    assert rs[..|rs|] == rs;
  }

  method CalculateDownsideDeviation(sqrt: real -> real, rs: seq<real>) returns (d: real)
    ensures d == DownsideDeviation(sqrt, rs)
  {
    if |rs| == 0 {
      return 0.0;
    }
    var downside := CollectNegatives(rs);
    if |downside| == 0 {
      return 0.0;
    }
    var total := Accumulate(downside);
    var mean := total / (|downside| as real);  // computed as in the source, never used
    var variance := AccumulateSquares(downside, 0.0);
    variance := variance / (|downside| as real);
    d := sqrt(variance);
  }

  /** Mean return over volatility, not annualised; 0 for fewer than two
      returns or a zero volatility. */
  function SharpeRatio(sqrt: real -> real, rs: seq<real>): (r: real)
    ensures |rs| < 2 || Volatility(sqrt, rs) == 0.0 ==> r == 0.0
    ensures |rs| >= 2 && Volatility(sqrt, rs) != 0.0 ==>
      r * Volatility(sqrt, rs) == Indicators.Mean(rs)
  {
    if |rs| < 2 then 0.0
    else
      var vol := Volatility(sqrt, rs);
      if vol == 0.0 then 0.0 else Indicators.Mean(rs) / vol
  }

  method CalculateSharpeRatio(sqrt: real -> real, rs: seq<real>) returns (r: real)
    ensures r == SharpeRatio(sqrt, rs)
  {
    if |rs| < 2 {
      return 0.0;
    }
    var total := Accumulate(rs);
    var meanReturn := total / (|rs| as real);
    var vol := CalculateVolatility(sqrt, rs);
    if vol == 0.0 {
      return 0.0;
    }
    r := meanReturn / vol;
  }

  /** Mean return over downside deviation; 0 without returns or with a zero
      downside deviation. */
  function SortinoRatio(sqrt: real -> real, rs: seq<real>): (r: real)
    ensures |rs| == 0 || DownsideDeviation(sqrt, rs) == 0.0 ==> r == 0.0
    ensures |rs| > 0 && DownsideDeviation(sqrt, rs) != 0.0 ==>
      r * DownsideDeviation(sqrt, rs) == Indicators.Mean(rs)
  {
    if |rs| == 0 then 0.0
    else
      var dd := DownsideDeviation(sqrt, rs);
      if dd == 0.0 then 0.0 else Indicators.Mean(rs) / dd
  }

  method CalculateSortinoRatio(sqrt: real -> real, rs: seq<real>) returns (r: real)
    ensures r == SortinoRatio(sqrt, rs)
  {
    if |rs| == 0 {
      return 0.0;
    }
    var total := Accumulate(rs);
    var meanReturn := total / (|rs| as real);
    var dd := CalculateDownsideDeviation(sqrt, rs);
    if dd == 0.0 {
      return 0.0;
    }
    r := meanReturn / dd;
  }

  // ------------------------------------------------------ trade statistics

  /** Appending an element adds it to the sum. */
  lemma SumSnoc(s: seq<real>, x: real)
    ensures Indicators.Sum(s + [x]) == Indicators.Sum(s) + x
  {
    assert (s + [x])[..|s|] == s;
  }

  /** When every element exceeds `c`, the sum exceeds `|s|·c` ... */
  lemma {:induction false} SumAbove(s: seq<real>, c: real)
    requires |s| > 0 && forall i :: 0 <= i < |s| ==> s[i] > c
    ensures Indicators.Sum(s) > (|s| as real) * c
  {
    if |s| > 1 {
      SumAbove(s[..|s| - 1], c);
      assert (|s| as real) * c == ((|s| - 1) as real) * c + c;
    }
  }

  /** ... and so does the mean. */
  lemma MeanAbove(s: seq<real>, c: real)
    requires |s| > 0 && forall i :: 0 <= i < |s| ==> s[i] > c
    ensures Indicators.Mean(s) > c
  {
    SumAbove(s, c);
    var n := |s| as real;
    assert (Indicators.Sum(s) / n) * n == Indicators.Sum(s);
  }

  /** A trade counts as a win when its P&L exceeds `Epsilon` and as a loss when
      it is below `−Epsilon`; a P&L within `Epsilon` of zero (every opening
      trade) is neither. */
  predicate IsWin(t: Trade)
  {
    t.pnl > Epsilon
  }

  predicate IsLoss(t: Trade)
  {
    t.pnl < -Epsilon
  }

  /** The P&L of the winning trades, in order. */
  function Wins(trades: seq<Trade>): (w: seq<real>)
    ensures |w| <= |trades|
    ensures forall i :: 0 <= i < |w| ==> w[i] > Epsilon
  {
    if |trades| == 0 then []
    else
      var t := trades[|trades| - 1];
      Wins(trades[..|trades| - 1]) + (if IsWin(t) then [t.pnl] else [])
  }

  /** The size `|pnl|` of each losing trade, in order. */
  function LossSizes(trades: seq<Trade>): (l: seq<real>)
    ensures |l| <= |trades|
    ensures forall i :: 0 <= i < |l| ==> l[i] > Epsilon
  {
    if |trades| == 0 then []
    else
      var t := trades[|trades| - 1];
      LossSizes(trades[..|trades| - 1]) + (if IsLoss(t) then [-t.pnl] else [])
  }

  /** No trade is both a win and a loss: together the two lists are at most
      as long as the trade log. */
  lemma {:induction false} WinsAndLossesDisjoint(trades: seq<Trade>)
    ensures |Wins(trades)| + |LossSizes(trades)| <= |trades|
  {
    if |trades| > 0 {
      WinsAndLossesDisjoint(trades[..|trades| - 1]);
    }
  }

  /** Average win over average loss size; 0 without trades, without a win,
      without a loss, or when the average loss is below `Epsilon`. */
  function ProfitLossRatio(trades: seq<Trade>): (r: real)
    ensures |Wins(trades)| == 0 || |LossSizes(trades)| == 0 ==> r == 0.0
    ensures |Wins(trades)| > 0 && |LossSizes(trades)| > 0 && Indicators.Mean(LossSizes(trades)) >= Epsilon ==>
      r * Indicators.Mean(LossSizes(trades)) == Indicators.Mean(Wins(trades))
  {
    if |trades| == 0 then 0.0
    else
      var w := Wins(trades);
      var l := LossSizes(trades);
      if |w| == 0 || |l| == 0 then 0.0
      else
        var avgLoss := Indicators.Mean(l);
        if avgLoss < Epsilon then 0.0 else Indicators.Mean(w) / avgLoss
  }

  /** Every loss size exceeds `Epsilon`, so the guard on the average loss never
      fires: with at least one win and one loss the ratio is the positive
      quotient of the two averages. */
  lemma ProfitLossRatioPositive(trades: seq<Trade>)
    requires |Wins(trades)| > 0 && |LossSizes(trades)| > 0
    ensures Indicators.Mean(LossSizes(trades)) > Epsilon
    ensures ProfitLossRatio(trades) > 0.0
    ensures ProfitLossRatio(trades) * Indicators.Mean(LossSizes(trades)) == Indicators.Mean(Wins(trades))
  {
    MeanAbove(LossSizes(trades), Epsilon);
    MeanAbove(Wins(trades), Epsilon);
  }

  /** One more trade extends the win list or the loss list (or neither). */
  lemma TallyStep(trades: seq<Trade>, i: nat)
    requires i < |trades|
    ensures Wins(trades[..i + 1]) == Wins(trades[..i]) + (if IsWin(trades[i]) then [trades[i].pnl] else [])
    ensures LossSizes(trades[..i + 1]) == LossSizes(trades[..i]) + (if IsLoss(trades[i]) then [-trades[i].pnl] else [])
  {
    assert trades[..i + 1][..i] == trades[..i];
  }

  /** The loop that totals and counts wins and losses. */
  method Tally(trades: seq<Trade>) returns (totalProfit: real, profitCount: int, totalLoss: real, lossCount: int)
    ensures totalProfit == Indicators.Sum(Wins(trades)) && profitCount == |Wins(trades)|
    ensures totalLoss == Indicators.Sum(LossSizes(trades)) && lossCount == |LossSizes(trades)|
  {
    totalProfit, profitCount, totalLoss, lossCount := 0.0, 0, 0.0, 0;
    for i := 0 to |trades|
      invariant totalProfit == Indicators.Sum(Wins(trades[..i])) && profitCount == |Wins(trades[..i])|
      invariant totalLoss == Indicators.Sum(LossSizes(trades[..i])) && lossCount == |LossSizes(trades[..i])|
    {
      TallyStep(trades, i);
      assert Wins(trades[..i]) + [] == Wins(trades[..i]);
      assert LossSizes(trades[..i]) + [] == LossSizes(trades[..i]);
      var t := trades[i];
      if t.pnl > Epsilon || t.pnl < -Epsilon {
        if t.pnl > Epsilon {
          SumSnoc(Wins(trades[..i]), t.pnl);
          totalProfit := totalProfit + t.pnl;
          profitCount := profitCount + 1;
        } else if t.pnl < -Epsilon {
          SumSnoc(LossSizes(trades[..i]), -t.pnl);
          totalLoss := totalLoss + -t.pnl;
          lossCount := lossCount + 1;
        }
      }
    }
    assert trades[..|trades|] == trades;
  }

  method CalculateProfitLossRatio(trades: seq<Trade>) returns (r: real)
    ensures r == ProfitLossRatio(trades)
  {
    if |trades| == 0 {
      return 0.0;
    }
    var totalProfit, profitCount, totalLoss, lossCount := Tally(trades);
    if profitCount == 0 || lossCount == 0 {
      return 0.0;
    }
    var avgProfit := totalProfit / (profitCount as real);
    var avgLoss := totalLoss / (lossCount as real);
    if avgLoss < Epsilon {
      return 0.0;
    }
    r := avgProfit / avgLoss;
  }

  /** The decisive trades as outcomes, in order: `true` a win, `false` a loss. */
  function Outcomes(trades: seq<Trade>): (ds: seq<bool>)
    ensures |ds| <= |trades|
  {
    if |trades| == 0 then []
    else
      var t := trades[|trades| - 1];
      Outcomes(trades[..|trades| - 1]) + (if IsWin(t) then [true] else if IsLoss(t) then [false] else [])
  }

  /** The length of the run of `v` that ends the sequence. */
  function TrailingRun(ds: seq<bool>, v: bool): (n: nat)
    ensures n <= |ds|
  {
    if |ds| == 0 || ds[|ds| - 1] != v then 0 else TrailingRun(ds[..|ds| - 1], v) + 1
  }

  /** The length of the longest run of `v`. */
  function LongestRun(ds: seq<bool>, v: bool): (n: nat)
    ensures TrailingRun(ds, v) <= n <= |ds|
  {
    if |ds| == 0 then 0
    else
      var prev := LongestRun(ds[..|ds| - 1], v);
      var t := TrailingRun(ds, v);
      if t > prev then t else prev
  }

  /** `ds[a..b]` consists of `v` only. */
  predicate RunOf(ds: seq<bool>, a: int, b: int, v: bool)
    requires 0 <= a <= b <= |ds|
  {
    forall k :: a <= k < b ==> ds[k] == v
  }

  lemma {:induction false} TrailingRunIsRun(ds: seq<bool>, v: bool)
    ensures RunOf(ds, |ds| - TrailingRun(ds, v), |ds|, v)
  {
    if |ds| > 0 && ds[|ds| - 1] == v {
      var p := ds[..|ds| - 1];
      TrailingRunIsRun(p, v);
      assert forall k :: |p| - TrailingRun(p, v) <= k < |p| ==> ds[k] == p[k];
    }
  }

  lemma {:induction false} TrailingRunIsMaximal(ds: seq<bool>, v: bool, a: int)
    requires 0 <= a <= |ds| && RunOf(ds, a, |ds|, v)
    ensures |ds| - a <= TrailingRun(ds, v)
  {
    if a < |ds| {
      var p := ds[..|ds| - 1];
      assert RunOf(p, a, |p|, v) by {
        assert forall k :: a <= k < |p| ==> p[k] == ds[k];
      }
      TrailingRunIsMaximal(p, v, a);
    }
  }

  /** Every run of `v` is at most as long as `LongestRun` ... */
  lemma {:induction false} LongestRunIsUpperBound(ds: seq<bool>, v: bool, a: int, b: int)
    requires 0 <= a <= b <= |ds| && RunOf(ds, a, b, v)
    ensures b - a <= LongestRun(ds, v)
  {
    if b == |ds| {
      TrailingRunIsMaximal(ds, v, a);
    } else {
      var p := ds[..|ds| - 1];
      assert RunOf(p, a, b, v) by {
        assert forall k :: a <= k < b ==> p[k] == ds[k];
      }
      LongestRunIsUpperBound(p, v, a, b);
    }
  }

  /** ... and some run of `v` is exactly that long. */
  lemma {:induction false} LongestRunIsAttained(ds: seq<bool>, v: bool)
    ensures exists a, b :: 0 <= a <= b <= |ds| && b - a == LongestRun(ds, v) && RunOf(ds, a, b, v)
  {
    if |ds| == 0 {
      assert RunOf(ds, 0, 0, v);
    } else {
      var p := ds[..|ds| - 1];
      var t := TrailingRun(ds, v);
      if t > LongestRun(p, v) {
        TrailingRunIsRun(ds, v);
      } else {
        LongestRunIsAttained(p, v);
        var a, b :| 0 <= a <= b <= |p| && b - a == LongestRun(p, v) && RunOf(p, a, b, v);
        assert RunOf(ds, a, b, v) by {
          assert forall k :: a <= k < b ==> p[k] == ds[k];
        }
      }
    }
  }

  /** The longest streak of wins and the longest streak of losses; trades
      within `Epsilon` of zero P&L neither extend nor break a streak. */
  function MaxConsecutive(trades: seq<Trade>): (r: (int, int))
    ensures 0 <= r.0 <= |trades| && 0 <= r.1 <= |trades|
  {
    var ds := Outcomes(trades);
    (LongestRun(ds, true), LongestRun(ds, false))
  }

  /** One more outcome extends the run of its own kind and resets the other. */
  lemma OutcomeStep(ds: seq<bool>, v: bool)
    ensures TrailingRun(ds + [v], v) == TrailingRun(ds, v) + 1
    ensures TrailingRun(ds + [v], !v) == 0
    ensures LongestRun(ds + [v], v) ==
      if TrailingRun(ds, v) + 1 > LongestRun(ds, v) then TrailingRun(ds, v) + 1 else LongestRun(ds, v)
    ensures LongestRun(ds + [v], !v) == LongestRun(ds, !v)
  {
    assert (ds + [v])[..|ds|] == ds;
  }

  /** The outcomes of one more trade, as the loop reads them. */
  lemma OutcomesPrefix(trades: seq<Trade>, i: int)
    requires 0 <= i < |trades|
    ensures Outcomes(trades[..i + 1]) == Outcomes(trades[..i]) +
      (if IsWin(trades[i]) then [true] else if IsLoss(trades[i]) then [false] else [])
  {
    assert trades[..i + 1][..i] == trades[..i];
  }

  method CalculateMaxConsecutive(trades: seq<Trade>) returns (maxWins: int, maxLosses: int)
    ensures (maxWins, maxLosses) == MaxConsecutive(trades)
  {
    maxWins, maxLosses := 0, 0;
    var currentWins, currentLosses := 0, 0;
    for i := 0 to |trades|
      invariant currentWins == TrailingRun(Outcomes(trades[..i]), true)
      invariant currentLosses == TrailingRun(Outcomes(trades[..i]), false)
      invariant maxWins == LongestRun(Outcomes(trades[..i]), true)
      invariant maxLosses == LongestRun(Outcomes(trades[..i]), false)
    {
      OutcomesPrefix(trades, i);
      var ds := Outcomes(trades[..i]);
      var t := trades[i];
      if t.pnl > Epsilon || t.pnl < -Epsilon {
        if t.pnl > Epsilon {
          OutcomeStep(ds, true);
          currentLosses := 0;
          currentWins := currentWins + 1;
          maxWins := if maxWins > currentWins then maxWins else currentWins;
        } else if t.pnl < -Epsilon {
          OutcomeStep(ds, false);
          currentWins := 0;
          currentLosses := currentLosses + 1;
          maxLosses := if maxLosses > currentLosses then maxLosses else currentLosses;
        }
      } else {
        assert ds + [] == ds;
      }
    }
    assert trades[..|trades|] == trades;
  }

  /** A closed trade with the given P&L. */
  function ClosedAt(pnl: real): Trade
  {
    Trade(0, "BTC/USDT", Sell, 100.0, 1.0, pnl)
  }

  /** P&L +5, +3, −2, −1, −1, +4: at most two wins and three losses in a row. */
  lemma StreakExample()
    ensures MaxConsecutive([ClosedAt(5.0), ClosedAt(3.0), ClosedAt(-2.0), ClosedAt(-1.0), ClosedAt(-1.0), ClosedAt(4.0)]) == (2, 3)
  {
    var trades := [ClosedAt(5.0), ClosedAt(3.0), ClosedAt(-2.0), ClosedAt(-1.0), ClosedAt(-1.0), ClosedAt(4.0)];
    var ds := [true, true, false, false, false, true];
    assert Outcomes(trades[..1]) == ds[..1];
    assert trades[..2][..1] == trades[..1];
    assert Outcomes(trades[..2]) == ds[..2];
    assert trades[..3][..2] == trades[..2];
    assert Outcomes(trades[..3]) == ds[..3];
    assert trades[..4][..3] == trades[..3];
    assert Outcomes(trades[..4]) == ds[..4];
    assert trades[..5][..4] == trades[..4];
    assert Outcomes(trades[..5]) == ds[..5];
    assert trades[..5] == trades[..|trades| - 1];
    assert Outcomes(trades) == ds;
    assert ds[..2][..1] == ds[..1] && ds[..3][..2] == ds[..2];
    assert ds[..4][..3] == ds[..3] && ds[..5][..4] == ds[..4];
    assert ds[..|ds| - 1] == ds[..5];
    assert LongestRun(ds[..1], true) == 1 && LongestRun(ds[..1], false) == 0;
    assert LongestRun(ds[..2], true) == 2 && LongestRun(ds[..2], false) == 0;
    assert TrailingRun(ds[..3], false) == 1;
    assert LongestRun(ds[..3], true) == 2 && LongestRun(ds[..3], false) == 1;
    assert TrailingRun(ds[..4], false) == 2;
    assert LongestRun(ds[..4], true) == 2 && LongestRun(ds[..4], false) == 2;
    assert TrailingRun(ds[..5], false) == 3;
    assert LongestRun(ds[..5], true) == 2 && LongestRun(ds[..5], false) == 3;
    assert TrailingRun(ds, true) == 1;
  }

  /** `trades[j]` is a SELL of the symbol bought at `trades[i]`. */
  predicate ClosesBuy(trades: seq<Trade>, i: nat, j: nat)
    requires i < |trades| && j < |trades|
  {
    trades[j].signal == Sell && trades[j].symbol == trades[i].symbol
  }

  /** The first index at or after `j` that closes the BUY at `i`, or `|trades|`
      when there is none. */
  function MatchingSell(trades: seq<Trade>, i: nat, j: nat): (k: nat)
    requires i < |trades| && j <= |trades|
    ensures j <= k <= |trades|
    ensures k < |trades| ==> ClosesBuy(trades, i, k)
    ensures forall m :: j <= m < k ==> !ClosesBuy(trades, i, m)
    decreases |trades| - j
  {
    if j == |trades| then |trades|
    else if ClosesBuy(trades, i, j) then j
    else MatchingSell(trades, i, j + 1)
  }

  /** The holding period, in days, that the trade at `i` contributes: a BUY
      paired with its first matching SELL after it, when that SELL comes
      strictly later in time; nothing otherwise. */
  function PeriodOf(trades: seq<Trade>, i: nat): (p: seq<real>)
    requires i < |trades|
    ensures |p| <= 1
    ensures forall k :: 0 <= k < |p| ==> p[k] > 0.0
    ensures trades[i].signal != Buy ==> p == []
  {
    if trades[i].signal != Buy then []
    else
      var k := MatchingSell(trades, i, i + 1);
      if k < |trades| && trades[k].timestamp - trades[i].timestamp > 0 then
        [(trades[k].timestamp - trades[i].timestamp) as real / MillisecondsPerDay]
      else []
  }

  /** The holding periods of the BUYs among the first `n` trades, in order. */
  function HoldingPeriods(trades: seq<Trade>, n: nat): (hp: seq<real>)
    requires n <= |trades|
    ensures |hp| <= n
    ensures forall k :: 0 <= k < |hp| ==> hp[k] > 0.0
  {
    if n == 0 then [] else HoldingPeriods(trades, n - 1) + PeriodOf(trades, n - 1)
  }

  /** The mean holding period in days; 0 for fewer than two trades or when no
      BUY was closed later in time. */
  function AvgHoldingPeriod(trades: seq<Trade>): (r: real)
    ensures |trades| < 2 ==> r == 0.0
    ensures |trades| >= 2 && |HoldingPeriods(trades, |trades|)| == 0 ==> r == 0.0
    ensures |trades| >= 2 && |HoldingPeriods(trades, |trades|)| > 0 ==>
      r == Indicators.Mean(HoldingPeriods(trades, |trades|)) && r > 0.0
  {
    if |trades| < 2 then 0.0
    else
      var hp := HoldingPeriods(trades, |trades|);
      if |hp| == 0 then 0.0
      else
        MeanAbove(hp, 0.0);
        Indicators.Mean(hp)
  }

  /** One SELL can close several BUYs: BUYs on days 0 and 1 and a SELL on day 3
      give holding periods of 3 and 2 days. */
  lemma SharedSellExample()
    ensures AvgHoldingPeriod([
      Trade(0, "BTC/USDT", Buy, 100.0, 1.0, 0.0),
      Trade(86400000, "BTC/USDT", Buy, 100.0, 1.0, 0.0),
      Trade(259200000, "BTC/USDT", Sell, 100.0, 1.0, 0.0)]) == 2.5
  {
    var trades := [
      Trade(0, "BTC/USDT", Buy, 100.0, 1.0, 0.0),
      Trade(86400000, "BTC/USDT", Buy, 100.0, 1.0, 0.0),
      Trade(259200000, "BTC/USDT", Sell, 100.0, 1.0, 0.0)];
    assert MatchingSell(trades, 0, 1) == 2;
    assert PeriodOf(trades, 0) == [3.0];
    assert MatchingSell(trades, 1, 2) == 2;
    assert PeriodOf(trades, 1) == [2.0];
    assert PeriodOf(trades, 2) == [];
    assert HoldingPeriods(trades, 3) == [3.0, 2.0];
    assert Indicators.Sum([3.0, 2.0]) == 5.0 by {
      assert [3.0, 2.0][..1] == [3.0];
      assert [3.0][..0] == [];
    }
  }

  /** The inner loop: the first SELL closing the BUY at `i`. */
  method FindSell(trades: seq<Trade>, i: nat) returns (k: nat)
    requires i < |trades|
    ensures k == MatchingSell(trades, i, i + 1)
  {
    k := |trades|;
    var j := i + 1;
    while j < |trades|
      invariant i + 1 <= j <= |trades|
      invariant MatchingSell(trades, i, j) == MatchingSell(trades, i, i + 1)
      decreases |trades| - j
    {
      if trades[j].signal == Sell && trades[j].symbol == trades[i].symbol {
        k := j;
        break;
      }
      j := j + 1;
    }
  }

  method CalculateAvgHoldingPeriod(trades: seq<Trade>) returns (r: real)
    ensures r == AvgHoldingPeriod(trades)
  {
    if |trades| < 2 {
      return 0.0;
    }
    var periods: seq<real> := [];
    for i := 0 to |trades|
      invariant periods == HoldingPeriods(trades, i)
    {
      if trades[i].signal == Buy {
        var k := FindSell(trades, i);
        if k < |trades| {
          var holding := trades[k].timestamp - trades[i].timestamp;
          if holding > 0 {
            periods := periods + [holding as real / MillisecondsPerDay];
          } else {
            assert periods + [] == periods;
          }
        } else {
          assert periods + [] == periods;
        }
      } else {
        assert periods + [] == periods;
      }
    }
    if |periods| == 0 {
      return 0.0;
    }
    var total := Accumulate(periods);
    r := total / (|periods| as real);
  }

  /** Closed trades per year: `total` over the span in years; 0 for no trades
      or a span that is not positive. */
  function TradeFrequency(total: int, start: int, end: int): (r: real)
    ensures total <= 0 || end <= start ==> r == 0.0
    ensures r >= 0.0
  {
    if total <= 0 then 0.0
    else
      var span := end - start;
      if span <= 0 then 0.0
      else
        var years := span as real / SecondsPerYear;
        if years < Epsilon then 0.0 else total as real / years
  }

  /** Timestamps are whole numbers, so a positive span is at least
      `1 / SecondsPerYear` years, above `Epsilon`: that guard never fires and
      the frequency is `total · SecondsPerYear / span`. */
  lemma TradeFrequencyOfPositiveSpan(total: int, start: int, end: int)
    requires total > 0 && end > start
    ensures TradeFrequency(total, start, end) * ((end - start) as real) == (total as real) * SecondsPerYear
    ensures TradeFrequency(total, start, end) > 0.0
  {
    var span := (end - start) as real;
    var years := span / SecondsPerYear;
    assert years * SecondsPerYear == span;
    assert years >= 1.0 / SecondsPerYear;
    var r := (total as real) / years;
    assert r * years == total as real;
  }

  /** The number of SELL trades. */
  function CountSells(trades: seq<Trade>): (n: nat)
    ensures n <= |trades|
    ensures (forall i :: 0 <= i < |trades| ==> trades[i].signal == Sell) ==> n == |trades|
  {
    if |trades| == 0 then 0
    else CountSells(trades[..|trades| - 1]) + (if trades[|trades| - 1].signal == Sell then 1 else 0)
  }

  // --------------------------------------------------------------- analyze

  /** What the analyzer accepts: a non-empty equity curve with exactly one
      timestamp per point. Anything else yields the zero metrics. */
  predicate Analyzable(curve: seq<real>, timestamps: seq<int>)
  {
    |curve| > 0 && |timestamps| > 0 && |curve| == |timestamps|
  }

  /** Every metric of one run. The returns are taken between consecutive curve
      points; the annualised return and the trade frequency use the first and
      last timestamps; the trade frequency counts SELL trades only. */
  function AnalyzeSpec(sqrt: real -> real, pow: (real, real) -> real, curve: seq<real>,
                       timestamps: seq<int>, trades: seq<Trade>, initial: real): (m: Metrics)
    ensures !Analyzable(curve, timestamps) ==> m == ZeroMetrics()
    ensures Analyzable(curve, timestamps) ==> m.equityCurve == curve && m.drawdownCurve == DrawdownCurve(curve)
  {
    if !Analyzable(curve, timestamps) then ZeroMetrics()
    else
      var rs := Returns(curve);
      var final := curve[|curve| - 1];
      var start := timestamps[0];
      var end := timestamps[|timestamps| - 1];
      var annualized := AnnualizedReturn(pow, initial, final, start, end);
      var maxDd := MaxDrawdown(curve);
      var streaks := MaxConsecutive(trades);
      Metrics(annualized, CumulativeReturn(initial, final), curve, maxDd,
              SharpeRatio(sqrt, rs), SortinoRatio(sqrt, rs), CalmarRatio(annualized, maxDd),
              Volatility(sqrt, rs), DownsideDeviation(sqrt, rs), ProfitLossRatio(trades),
              streaks.0, streaks.1, AvgHoldingPeriod(trades),
              TradeFrequency(CountSells(trades), start, end), DrawdownCurve(curve))
  }

  /** The maximum drawdown of an accepted run bounds its drawdown curve. */
  lemma AnalyzedDrawdownBoundsCurve(sqrt: real -> real, pow: (real, real) -> real, curve: seq<real>,
                                    timestamps: seq<int>, trades: seq<Trade>, initial: real, i: int)
    requires Analyzable(curve, timestamps) && 0 <= i < |curve|
    ensures AnalyzeSpec(sqrt, pow, curve, timestamps, trades, initial).drawdownCurve[i]
         <= AnalyzeSpec(sqrt, pow, curve, timestamps, trades, initial).maxDrawdown
  {
    var m := AnalyzeSpec(sqrt, pow, curve, timestamps, trades, initial);
    assert m.maxDrawdown == MaxDrawdown(curve);
    assert DrawdownCurve(curve)[i] <= MaxDrawdown(curve);
  }

  /** The trade statistics of an accepted run: both streaks fit in the trade
      log, and the holding period and the trade frequency are not negative. */
  lemma AnalyzedTradeStatisticsBounds(sqrt: real -> real, pow: (real, real) -> real, curve: seq<real>,
                                      timestamps: seq<int>, trades: seq<Trade>, initial: real)
    requires Analyzable(curve, timestamps)
    ensures var m := AnalyzeSpec(sqrt, pow, curve, timestamps, trades, initial);
      0 <= m.maxConsecutiveWins <= |trades| && 0 <= m.maxConsecutiveLosses <= |trades| &&
      m.avgHoldingPeriod >= 0.0 && m.tradeFrequencyPerYear >= 0.0
  {
    var m := AnalyzeSpec(sqrt, pow, curve, timestamps, trades, initial);
    assert m.maxConsecutiveWins == MaxConsecutive(trades).0 && m.maxConsecutiveLosses == MaxConsecutive(trades).1;
    assert m.avgHoldingPeriod == AvgHoldingPeriod(trades);
    assert m.tradeFrequencyPerYear == TradeFrequency(CountSells(trades), timestamps[0], timestamps[|timestamps| - 1]);
  }

  /** Along a positive equity curve the reported maximum drawdown lies in [0, 1). */
  lemma AnalyzedDrawdownBounds(sqrt: real -> real, pow: (real, real) -> real, curve: seq<real>,
                               timestamps: seq<int>, trades: seq<Trade>, initial: real)
    requires Analyzable(curve, timestamps)
    requires forall i :: 0 <= i < |curve| ==> curve[i] > 0.0
    ensures 0.0 <= AnalyzeSpec(sqrt, pow, curve, timestamps, trades, initial).maxDrawdown < 1.0
  {
    MaxDrawdownBounds(curve);
  }

  /** The loop that counts SELL trades. */
  method CountSellTrades(trades: seq<Trade>) returns (n: int)
    ensures n == CountSells(trades)
  {
    n := 0;
    for i := 0 to |trades|
      invariant n == CountSells(trades[..i])
    {
      assert trades[..i + 1][..i] == trades[..i];
      if trades[i].signal == Sell {
        n := n + 1;
      }
    }
    assert trades[..|trades|] == trades;
  }

  method Analyze(sqrt: real -> real, pow: (real, real) -> real, curve: seq<real>,
                 timestamps: seq<int>, trades: seq<Trade>, initial: real) returns (m: Metrics)
    ensures m == AnalyzeSpec(sqrt, pow, curve, timestamps, trades, initial)
  {
    if |curve| == 0 || |timestamps| == 0 || |curve| != |timestamps| {
      return ZeroMetrics();
    }
    var rs := CalculateReturns(curve);
    var final := curve[|curve| - 1];
    var cumulative := CumulativeReturn(initial, final);
    var annualized := AnnualizedReturn(pow, initial, final, timestamps[0], timestamps[|timestamps| - 1]);
    var maxDd := CalculateMaxDrawdown(curve);
    var volatility := CalculateVolatility(sqrt, rs);
    var downside := CalculateDownsideDeviation(sqrt, rs);
    var sharpe := CalculateSharpeRatio(sqrt, rs);
    var sortino := CalculateSortinoRatio(sqrt, rs);
    var calmar := CalmarRatio(annualized, maxDd);
    var drawdowns := CalculateDrawdownCurve(curve);
    var profitLoss := CalculateProfitLossRatio(trades);
    var maxWins, maxLosses := CalculateMaxConsecutive(trades);
    var holding := CalculateAvgHoldingPeriod(trades);
    var sellCount := CountSellTrades(trades);
    var frequency := TradeFrequency(sellCount, timestamps[0], timestamps[|timestamps| - 1]);
    m := Metrics(annualized, cumulative, curve, maxDd, sharpe, sortino, calmar, volatility, downside,
                 profitLoss, maxWins, maxLosses, holding, frequency, drawdowns);
  }

  /** A run over no bars leaves the engine's zero result, whose empty equity
      curve the analyzer answers with the zero metrics. */
  lemma EmptyRunAnalyzesToZero(sqrt: real -> real, pow: (real, real) -> real, cfg: Backtest.BacktestConfig,
                               mcfg: MaCross.MaConfig, s: Backtest.Sim)
    requires MaCross.WellFormed(mcfg) && s.result == Backtest.ZeroResult()
    ensures AnalyzeSpec(sqrt, pow, Backtest.RunSpec(cfg, mcfg, s, []).result.equityCurve,
                        Backtest.RunSpec(cfg, mcfg, s, []).result.timestamps,
                        Backtest.RunSpec(cfg, mcfg, s, []).result.trades, cfg.initialCapital) == ZeroMetrics()
  {
  }
}
