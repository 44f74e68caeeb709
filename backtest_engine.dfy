/** The back-test engine: one pass over the bars, feeding each to the strategy,
    filling its BUY and SELL signals with slippage and commission, and
    recording the equity after every bar. `Step`, `Loop` and `RunSpec` say what
    a bar and a whole run do; `BacktestEngine` is proved against them. */
module Backtest {
  import T = Types
  import opened Strategy
  import opened MaCross
  import N = Numeric

  datatype BacktestConfig = BacktestConfig(initialCapital: real, commissionRate: real, slippageRate: real)

  function DefaultBacktestConfig(): (c: BacktestConfig)
    ensures c.initialCapital == 10000.0 && c.commissionRate == 0.001 && c.slippageRate == 0.001
  {
    BacktestConfig(10000.0, 0.001, 0.001)
  }

  datatype BacktestResult = BacktestResult(
    initialCapital: real,
    finalCapital: real,
    finalEquity: real,
    totalReturn: real,
    totalTrades: int,
    winningTrades: int,
    losingTrades: int,
    trades: seq<Trade>,
    equityCurve: seq<real>,
    timestamps: seq<int>)

  /** The default-constructed result: every number zero, every list empty. */
  function ZeroResult(): (r: BacktestResult)
    ensures r.initialCapital == 0.0 && r.finalCapital == 0.0 && r.finalEquity == 0.0 && r.totalReturn == 0.0
    ensures r.totalTrades == 0 && r.winningTrades == 0 && r.losingTrades == 0
    ensures r.trades == [] && r.equityCurve == [] && r.timestamps == []
  {
    BacktestResult(0.0, 0.0, 0.0, 0.0, 0, 0, 0, [], [], [])
  }

  /** The commission on `amount`: a fixed fraction of it. */
  function Commission(cfg: BacktestConfig, amount: real): real
  {
    amount * cfg.commissionRate
  }

  /** The slippage on `price`: a fixed fraction of it. */
  function Slippage(cfg: BacktestConfig, price: real): real
  {
    price * cfg.slippageRate
  }

  lemma ScaledBounds(x: real, rate: real)
    requires 0.0 <= x && 0.0 <= rate <= 1.0
    ensures 0.0 <= x * rate <= x
  {
    assert x * rate <= x * 1.0;
  }

  /** At a rate in [0, 1] the commission is between nothing and the whole amount. */
  lemma CommissionBounds(cfg: BacktestConfig, amount: real)
    requires 0.0 <= cfg.commissionRate <= 1.0 && 0.0 <= amount
    ensures 0.0 <= Commission(cfg, amount) <= amount
  {
    ScaledBounds(amount, cfg.commissionRate);
    assert Commission(cfg, amount) == amount * cfg.commissionRate;
  }

  /** At a rate in [0, 1] the slippage is between nothing and the whole price. */
  lemma SlippageBounds(cfg: BacktestConfig, price: real)
    requires 0.0 <= cfg.slippageRate <= 1.0 && 0.0 <= price
    ensures 0.0 <= Slippage(cfg, price) <= price
  {
    ScaledBounds(price, cfg.slippageRate);
    assert Slippage(cfg, price) == price * cfg.slippageRate;
  }

  /** The quantity a BUY fills: half the cash, less its commission, at the slipped-up price. */
  function BuyQuantity(cfg: BacktestConfig, capital: real, close: real): real
  {
    var amount := capital * 0.5;
    N.Div(amount - Commission(cfg, amount), close + Slippage(cfg, close))
  }

  /** A BUY's quantity costs, at the slipped-up price, exactly what is left of
      half the cash after the commission; it is 0 at a zero price and never
      negative under non-negative rates, cash and price. */
  lemma BuyQuantityCost(cfg: BacktestConfig, capital: real, close: real)
    ensures var price := close + Slippage(cfg, close);
      price != 0.0 ==> BuyQuantity(cfg, capital, close) * price == capital * 0.5 - Commission(cfg, capital * 0.5)
    ensures close + Slippage(cfg, close) == 0.0 ==> BuyQuantity(cfg, capital, close) == 0.0
    ensures (0.0 <= capital && 0.0 < close && 0.0 <= cfg.slippageRate &&
             0.0 <= cfg.commissionRate <= 1.0) ==> 0.0 <= BuyQuantity(cfg, capital, close)
  {
    var amount := capital * 0.5;
    var price := close + Slippage(cfg, close);
    if 0.0 <= capital && 0.0 < close && 0.0 <= cfg.slippageRate && 0.0 <= cfg.commissionRate <= 1.0 {
      CommissionBounds(cfg, amount);
      assert 0.0 <= Slippage(cfg, close);
      assert 0.0 < price;
      assert 0.0 <= amount - Commission(cfg, amount);
    }
  }

  /** A BUY fill: open at `close + slippage` with `BuyQuantity`, record the
      trade with P&L 0 in the ledger and in the result, count it. */
  function BuyFill(cfg: BacktestConfig, bar: T.Ohlcv, l: Ledger, res: BacktestResult): (r: (Ledger, BacktestResult))
    ensures var price := bar.close + Slippage(cfg, bar.close);
      var t := Trade(bar.timestamp, bar.symbol, Buy, price, BuyQuantity(cfg, l.capital, bar.close), 0.0);
      r.0 == WithTrade(Open(l, bar.symbol, t.quantity, price), t) &&
      r.1 == res.(trades := res.trades + [t], totalTrades := res.totalTrades + 1)
    ensures Equity(r.0) == Equity(l)
    ensures !l.position.HasPosition() && bar.close + Slippage(cfg, bar.close) != 0.0 ==>
      r.0.capital == l.capital - (l.capital * 0.5 - Commission(cfg, l.capital * 0.5))
  {
    var price := bar.close + Slippage(cfg, bar.close);
    var quantity := BuyQuantity(cfg, l.capital, bar.close);
    var held := Open(l, bar.symbol, quantity, price);
    OpenPreservesEquity(l, bar.symbol, quantity, price);
    var t := Trade(bar.timestamp, bar.symbol, Buy, price, quantity, 0.0);
    (WithTrade(held, t), res.(trades := res.trades + [t], totalTrades := res.totalTrades + 1))
  }

  /** A SELL fill: close at `close − slippage`; the recorded P&L is the close's
      P&L less the commission on the proceeds, the recorded quantity is 0, and
      the trade counts as won or lost by the sign of that P&L. */
  function SellFill(cfg: BacktestConfig, bar: T.Ohlcv, l: Ledger, res: BacktestResult): (r: (Ledger, BacktestResult))
    ensures var price := bar.close - Slippage(cfg, bar.close);
      var closed := Close(l, price);
      var pnl := closed.1 - Commission(cfg, price * l.position.quantity);
      var t := Trade(bar.timestamp, bar.symbol, Sell, price, 0.0, pnl);
      r.0 == WithTrade(closed.0, t) &&
      r.1 == res.(trades := res.trades + [t], totalTrades := res.totalTrades + 1,
                  winningTrades := res.winningTrades + (if pnl > 0.0 then 1 else 0),
                  losingTrades := res.losingTrades + (if pnl < 0.0 then 1 else 0))
    ensures l.position.HasPosition() ==>
      r.0.capital == l.capital + (bar.close - Slippage(cfg, bar.close)) * l.position.quantity
  {
    var price := bar.close - Slippage(cfg, bar.close);
    var closed := Close(l, price);
    var pnl := closed.1 - Commission(cfg, price * l.position.quantity);
    var t := Trade(bar.timestamp, bar.symbol, Sell, price, 0.0, pnl);
    (WithTrade(closed.0, t),
     res.(trades := res.trades + [t], totalTrades := res.totalTrades + 1,
          winningTrades := res.winningTrades + (if pnl > 0.0 then 1 else 0),
          losingTrades := res.losingTrades + (if pnl < 0.0 then 1 else 0)))
  }

  /** Acting on a signal: BUY and SELL are filled, anything else changes nothing. */
  function SignalFill(cfg: BacktestConfig, signal: Signal, bar: T.Ohlcv, l: Ledger, res: BacktestResult): (r: (Ledger, BacktestResult))
    ensures signal != Buy && signal != Sell ==> r == (l, res)
    ensures signal in {Buy, Sell} ==>
      |r.1.trades| == |res.trades| + 1 && r.1.trades[..|res.trades|] == res.trades &&
      r.1.trades[|res.trades|].signal == signal && r.1.totalTrades == res.totalTrades + 1 &&
      r.0.trades == l.trades + [r.1.trades[|res.trades|]]
    ensures r.1.winningTrades + r.1.losingTrades - res.winningTrades - res.losingTrades
         <= r.1.totalTrades - res.totalTrades
    ensures res.winningTrades <= r.1.winningTrades && res.losingTrades <= r.1.losingTrades
    ensures r.1.equityCurve == res.equityCurve && r.1.timestamps == res.timestamps
    ensures r.1.initialCapital == res.initialCapital
  {
    if signal == Buy then BuyFill(cfg, bar, l, res)
    else if signal == Sell then SellFill(cfg, bar, l, res)
    else (l, res)
  }

  /** Everything the engine and its strategy keep between bars. */
  datatype Sim = Sim(ma: MaState, ledger: Ledger, result: BacktestResult)

  /** One bar of the loop: the strategy sees the bar, its signal is filled
      unless it is HOLD or NONE, a long position is marked to the close, and
      the equity and the bar's timestamp are appended to the curves. */
  function Step(cfg: BacktestConfig, mcfg: MaConfig, s: Sim, bar: T.Ohlcv): (r: Sim)
    requires WellFormed(mcfg)
    ensures r.result.equityCurve == s.result.equityCurve + [Equity(r.ledger)]
    ensures r.result.timestamps == s.result.timestamps + [bar.timestamp]
    ensures Bounded(mcfg, s.ma) ==> Bounded(mcfg, r.ma)
  {
    var a := Act(cfg, mcfg, s, bar);
    var l3 := if a.ledger.position.quantity > 0.0 then MarkPrice(a.ledger, bar.close) else a.ledger;
    Sim(a.ma, l3, a.result.(equityCurve := a.result.equityCurve + [Equity(l3)],
                            timestamps := a.result.timestamps + [bar.timestamp]))
  }

  /** The first half of a bar: the strategy sees it, and its signal is filled
      unless it is HOLD or NONE; the curves are not touched yet. */
  function Act(cfg: BacktestConfig, mcfg: MaConfig, s: Sim, bar: T.Ohlcv): (r: Sim)
    requires WellFormed(mcfg)
    ensures r.result.equityCurve == s.result.equityCurve && r.result.timestamps == s.result.timestamps
    ensures Bounded(mcfg, s.ma) ==> Bounded(mcfg, r.ma)
  {
    var (ma1, l1) := BarStep(mcfg, s.ma, s.ledger, bar);
    var (signal, ma2) := SignalStep(mcfg, ma1, l1.position.HasPosition());
    var (l2, r2) := if signal != Hold && signal != None then SignalFill(cfg, signal, bar, l1, s.result)
                    else (l1, s.result);
    Sim(ma2, l2, r2)
  }

  /** The bar loop over `bars`, in order: each bar adds one equity and one timestamp. */
  function Loop(cfg: BacktestConfig, mcfg: MaConfig, s: Sim, bars: seq<T.Ohlcv>): (r: Sim)
    requires WellFormed(mcfg)
    ensures |r.result.equityCurve| == |s.result.equityCurve| + |bars|
    ensures |r.result.timestamps| == |s.result.timestamps| + |bars|
  {
    if |bars| == 0 then s else Step(cfg, mcfg, Loop(cfg, mcfg, s, bars[..|bars| - 1]), bars[|bars| - 1])
  }

  /** The loop over one more bar is one more step. */
  lemma LoopSnoc(cfg: BacktestConfig, mcfg: MaConfig, s: Sim, bars: seq<T.Ohlcv>, i: int)
    requires WellFormed(mcfg) && 0 <= i < |bars|
    ensures Loop(cfg, mcfg, s, bars[..i + 1]) == Step(cfg, mcfg, Loop(cfg, mcfg, s, bars[..i]), bars[i])
  {
    assert bars[..i + 1][..i] == bars[..i];
  }

  /** The state the loop starts from: capitals set, curves restarted at the
      initial capital and the first bar's timestamp; trades and counters kept. */
  function StartRun(cfg: BacktestConfig, s: Sim, first: T.Ohlcv): (r: Sim)
    ensures r.ma == s.ma && r.ledger == Initialized(s.ledger, cfg.initialCapital)
    ensures r.result == s.result.(equityCurve := [cfg.initialCapital], timestamps := [first.timestamp])
  {
    Sim(s.ma, Initialized(s.ledger, cfg.initialCapital),
        s.result.(equityCurve := [cfg.initialCapital], timestamps := [first.timestamp]))
  }

  /** The summary written after the loop: the final cash, equity and return
      are read from the ledger; nothing else changes. */
  function Summarize(s: Sim): (r: Sim)
    ensures r.ma == s.ma && r.ledger == s.ledger
    ensures r.result.finalCapital == r.ledger.capital && r.result.finalEquity == Equity(r.ledger)
    ensures r.result.totalReturn == TotalReturn(r.ledger)
    ensures r.result.initialCapital == s.result.initialCapital && r.result.trades == s.result.trades
    ensures r.result.totalTrades == s.result.totalTrades && r.result.winningTrades == s.result.winningTrades
    ensures r.result.losingTrades == s.result.losingTrades
    ensures r.result.equityCurve == s.result.equityCurve && r.result.timestamps == s.result.timestamps
  {
    s.(result := s.result.(finalCapital := s.ledger.capital, finalEquity := Equity(s.ledger),
                           totalReturn := TotalReturn(s.ledger)))
  }

  /** A whole run; without data the run changes nothing. */
  function RunSpec(cfg: BacktestConfig, mcfg: MaConfig, s: Sim, data: seq<T.Ohlcv>): (r: Sim)
    requires WellFormed(mcfg)
    ensures |data| == 0 ==> r == s
    ensures |data| > 0 ==>
      r.result.finalCapital == r.ledger.capital && r.result.finalEquity == Equity(r.ledger) &&
      r.result.totalReturn == TotalReturn(r.ledger)
  {
    if |data| == 0 then s else Summarize(Loop(cfg, mcfg, StartRun(cfg, s, data[0]), data))
  }

  /** The bars' timestamps, in order. */
  function Timestamps(bars: seq<T.Ohlcv>): (ts: seq<int>)
    ensures |ts| == |bars|
  {
    if |bars| == 0 then [] else Timestamps(bars[..|bars| - 1]) + [bars[|bars| - 1].timestamp]
  }

  lemma {:induction false} TimestampsAt(bars: seq<T.Ohlcv>, k: nat)
    requires k < |bars|
    ensures Timestamps(bars)[k] == bars[k].timestamp
  {
    if k < |bars| - 1 {
      TimestampsAt(bars[..|bars| - 1], k);
    }
  }

  /** The equity once the loop has run over `bars`. */
  function EquityAfter(cfg: BacktestConfig, mcfg: MaConfig, s: Sim, bars: seq<T.Ohlcv>): real
    requires WellFormed(mcfg)
  {
    Equity(Loop(cfg, mcfg, s, bars).ledger)
  }

  /** The equity after each bar of a loop over `bars`, in bar order: entry k
      is the equity once bar k is done. */
  function EquitiesAlong(cfg: BacktestConfig, mcfg: MaConfig, s: Sim, bars: seq<T.Ohlcv>): (e: seq<real>)
    requires WellFormed(mcfg)
    ensures |e| == |bars|
  {
    seq(|bars|, k requires 0 <= k < |bars| => EquityAfter(cfg, mcfg, s, bars[..k + 1]))
  }

  /** One more bar adds the equity once it is done. */
  lemma EquitiesAlongSnoc(cfg: BacktestConfig, mcfg: MaConfig, s: Sim, bars: seq<T.Ohlcv>)
    requires WellFormed(mcfg) && |bars| > 0
    ensures EquitiesAlong(cfg, mcfg, s, bars)
         == EquitiesAlong(cfg, mcfg, s, bars[..|bars| - 1]) + [EquityAfter(cfg, mcfg, s, bars)]
  {
    var init := bars[..|bars| - 1];
    forall k | 0 <= k < |init|
      ensures EquitiesAlong(cfg, mcfg, s, init)[k] == EquitiesAlong(cfg, mcfg, s, bars)[k]
    {
      assert init[..k + 1] == bars[..k + 1];
    }
    assert bars[..|bars|] == bars;
  }

  /** The loop appends exactly one equity value and one timestamp per bar: the
      equity once that bar is done, and the bar's timestamp. */
  lemma LoopCurves(cfg: BacktestConfig, mcfg: MaConfig, s: Sim, bars: seq<T.Ohlcv>)
    requires WellFormed(mcfg)
    ensures Loop(cfg, mcfg, s, bars).result.equityCurve == s.result.equityCurve + EquitiesAlong(cfg, mcfg, s, bars)
    ensures Loop(cfg, mcfg, s, bars).result.timestamps == s.result.timestamps + Timestamps(bars)
  {
    LoopEquityCurve(cfg, mcfg, s, bars);
    LoopTimestamps(cfg, mcfg, s, bars);
  }

  lemma {:induction false} LoopEquityCurve(cfg: BacktestConfig, mcfg: MaConfig, s: Sim, bars: seq<T.Ohlcv>)
    requires WellFormed(mcfg)
    ensures Loop(cfg, mcfg, s, bars).result.equityCurve == s.result.equityCurve + EquitiesAlong(cfg, mcfg, s, bars)
  {
    if |bars| > 0 {
      var init := bars[..|bars| - 1];
      LoopEquityCurve(cfg, mcfg, s, init);
      var prev := Loop(cfg, mcfg, s, init);
      var r := Step(cfg, mcfg, prev, bars[|bars| - 1]);
      assert Loop(cfg, mcfg, s, bars) == r;
      assert r.result.equityCurve == prev.result.equityCurve + [Equity(r.ledger)];
      EquitiesAlongSnoc(cfg, mcfg, s, bars);
    }
  }

  lemma {:induction false} LoopTimestamps(cfg: BacktestConfig, mcfg: MaConfig, s: Sim, bars: seq<T.Ohlcv>)
    requires WellFormed(mcfg)
    ensures Loop(cfg, mcfg, s, bars).result.timestamps == s.result.timestamps + Timestamps(bars)
  {
    if |bars| > 0 {
      var init := bars[..|bars| - 1];
      LoopTimestamps(cfg, mcfg, s, init);
      var prev := Loop(cfg, mcfg, s, init);
      var r := Step(cfg, mcfg, prev, bars[|bars| - 1]);
      assert Loop(cfg, mcfg, s, bars) == r;
      assert r.result.timestamps == prev.result.timestamps + [bars[|bars| - 1].timestamp];
    }
  }

  /** After a run over n ≥ 1 bars both curves have n + 1 entries; the equity
      curve is the initial capital followed by the equity after each bar, and
      the timestamps are the first bar's timestamp followed by every bar's, so
      the first timestamp appears twice. */
  lemma RunCurves(cfg: BacktestConfig, mcfg: MaConfig, s: Sim, data: seq<T.Ohlcv>)
    requires WellFormed(mcfg) && |data| > 0
    ensures |RunSpec(cfg, mcfg, s, data).result.equityCurve| == |data| + 1
    ensures |RunSpec(cfg, mcfg, s, data).result.timestamps| == |data| + 1
    ensures RunSpec(cfg, mcfg, s, data).result.equityCurve
         == [cfg.initialCapital] + EquitiesAlong(cfg, mcfg, StartRun(cfg, s, data[0]), data)
    ensures RunSpec(cfg, mcfg, s, data).result.timestamps == [data[0].timestamp] + Timestamps(data)
    ensures RunSpec(cfg, mcfg, s, data).result.timestamps[0] == RunSpec(cfg, mcfg, s, data).result.timestamps[1]
  {
    LoopCurves(cfg, mcfg, StartRun(cfg, s, data[0]), data);
  }

  /** The loop's trade list only grows, `totalTrades` grows with it, and the
      initial capital recorded in the result stays put. */
  lemma {:induction false} LoopTrades(cfg: BacktestConfig, mcfg: MaConfig, s: Sim, bars: seq<T.Ohlcv>)
    requires WellFormed(mcfg)
    ensures var r := Loop(cfg, mcfg, s, bars).result;
      |s.result.trades| <= |r.trades| && r.trades[..|s.result.trades|] == s.result.trades &&
      r.totalTrades - s.result.totalTrades == |r.trades| - |s.result.trades| &&
      r.initialCapital == s.result.initialCapital
  {
    if |bars| > 0 {
      var init := bars[..|bars| - 1];
      LoopTrades(cfg, mcfg, s, init);
      var prev := Loop(cfg, mcfg, s, init);
      StepTrades(cfg, mcfg, prev, bars[|bars| - 1]);
      assert Loop(cfg, mcfg, s, bars) == Step(cfg, mcfg, prev, bars[|bars| - 1]);
    }
  }

  /** The strategy's own trade log gains exactly the trades the result gains. */
  lemma {:induction false} LoopLedgerTrades(cfg: BacktestConfig, mcfg: MaConfig, s: Sim, bars: seq<T.Ohlcv>)
    requires WellFormed(mcfg)
    ensures |s.result.trades| <= |Loop(cfg, mcfg, s, bars).result.trades|
    ensures Loop(cfg, mcfg, s, bars).ledger.trades
         == s.ledger.trades + Loop(cfg, mcfg, s, bars).result.trades[|s.result.trades|..]
  {
    if |bars| > 0 {
      var init := bars[..|bars| - 1];
      LoopLedgerTrades(cfg, mcfg, s, init);
      var prev := Loop(cfg, mcfg, s, init);
      var bar := bars[|bars| - 1];
      StepTrades(cfg, mcfg, prev, bar);
      var r := Step(cfg, mcfg, prev, bar);
      assert Loop(cfg, mcfg, s, bars) == r;
      if |r.result.trades| != |prev.result.trades| {
        SuffixSnoc(prev.result.trades, r.result.trades, |s.result.trades|);
      }
    }
  }

  /** Growing a sequence by one element grows each of its suffixes by it. */
  lemma SuffixSnoc(prev: seq<Trade>, cur: seq<Trade>, n: int)
    requires 0 <= n <= |prev| && |cur| == |prev| + 1 && cur[..|prev|] == prev
    ensures cur[n..] == prev[n..] + [cur[|prev|]]
  {
    assert cur == prev + [cur[|prev|]];
  }

  /** No win or loss counter decreases, and together they grow by at most the
      number of trades recorded. */
  lemma {:induction false} LoopCounters(cfg: BacktestConfig, mcfg: MaConfig, s: Sim, bars: seq<T.Ohlcv>)
    requires WellFormed(mcfg)
    ensures var r := Loop(cfg, mcfg, s, bars).result;
      s.result.winningTrades <= r.winningTrades && s.result.losingTrades <= r.losingTrades &&
      r.winningTrades + r.losingTrades - s.result.winningTrades - s.result.losingTrades
        <= r.totalTrades - s.result.totalTrades
  {
    if |bars| > 0 {
      var init := bars[..|bars| - 1];
      LoopCounters(cfg, mcfg, s, init);
      var prev := Loop(cfg, mcfg, s, init);
      StepTrades(cfg, mcfg, prev, bars[|bars| - 1]);
      assert Loop(cfg, mcfg, s, bars) == Step(cfg, mcfg, prev, bars[|bars| - 1]);
    }
  }

  /** One bar adds at most one trade, the same one to both logs, and counts it. */
  lemma StepTrades(cfg: BacktestConfig, mcfg: MaConfig, s: Sim, bar: T.Ohlcv)
    requires WellFormed(mcfg)
    ensures var r := Step(cfg, mcfg, s, bar);
      (r.result.trades == s.result.trades && r.ledger.trades == s.ledger.trades &&
       r.result.totalTrades == s.result.totalTrades &&
       r.result.winningTrades == s.result.winningTrades && r.result.losingTrades == s.result.losingTrades) ||
      (|r.result.trades| == |s.result.trades| + 1 && r.result.trades[..|s.result.trades|] == s.result.trades &&
       r.ledger.trades == s.ledger.trades + [r.result.trades[|s.result.trades|]] &&
       r.result.totalTrades == s.result.totalTrades + 1 &&
       s.result.winningTrades <= r.result.winningTrades && s.result.losingTrades <= r.result.losingTrades &&
       r.result.winningTrades + r.result.losingTrades <= s.result.winningTrades + s.result.losingTrades + 1)
    ensures Step(cfg, mcfg, s, bar).result.initialCapital == s.result.initialCapital
  {
  }

  /** Every trade one bar adds is a BUY or a SELL, differs from the strategy's
      last signal before the bar, and becomes its last signal. */
  lemma StepSignals(cfg: BacktestConfig, mcfg: MaConfig, s: Sim, bar: T.Ohlcv)
    requires WellFormed(mcfg)
    ensures var r := Step(cfg, mcfg, s, bar);
      |r.result.trades| == |s.result.trades| ==> r.ma.lastSignal == s.ma.lastSignal
    ensures var r := Step(cfg, mcfg, s, bar);
      |r.result.trades| != |s.result.trades| ==>
        |r.result.trades| == |s.result.trades| + 1 &&
        r.result.trades[|s.result.trades|].signal in {Buy, Sell} &&
        r.result.trades[|s.result.trades|].signal != s.ma.lastSignal &&
        r.ma.lastSignal == r.result.trades[|s.result.trades|].signal
  {
    var (ma1, l1) := BarStep(mcfg, s.ma, s.ledger, bar);
    assert ma1.lastSignal == s.ma.lastSignal;
  }

  /** From index `n0` on, the trades are BUYs and SELLs in strict
      alternation; the first differs from `before` and the last is `after`;
      with no such trades `after` is `before`. */
  predicate AlternatesFrom(ts: seq<Trade>, n0: int, before: Signal, after: Signal)
    requires 0 <= n0 <= |ts|
  {
    (forall i :: n0 <= i < |ts| ==> ts[i].signal in {Buy, Sell}) &&
    (forall i :: n0 <= i < |ts| - 1 ==> ts[i].signal != ts[i + 1].signal) &&
    (n0 < |ts| ==> ts[n0].signal != before && ts[|ts| - 1].signal == after) &&
    (n0 == |ts| ==> after == before)
  }

  /** A BUY or SELL that differs from the last one keeps the alternation. */
  lemma AlternatesSnoc(ts: seq<Trade>, n0: int, before: Signal, after: Signal, t: Trade)
    requires 0 <= n0 <= |ts| && AlternatesFrom(ts, n0, before, after)
    requires t.signal in {Buy, Sell} && t.signal != after
    ensures AlternatesFrom(ts + [t], n0, before, t.signal)
  {
    var r := ts + [t];
    assert forall i :: 0 <= i < |ts| ==> r[i] == ts[i];
  }

  /** The trades a loop records strictly alternate between BUY and SELL; the
      first differs from the strategy's last signal beforehand and the last is
      its last signal afterwards. */
  lemma {:induction false} LoopSignalsAlternate(cfg: BacktestConfig, mcfg: MaConfig, s: Sim, bars: seq<T.Ohlcv>)
    requires WellFormed(mcfg)
    ensures |s.result.trades| <= |Loop(cfg, mcfg, s, bars).result.trades|
    ensures AlternatesFrom(Loop(cfg, mcfg, s, bars).result.trades, |s.result.trades|,
                           s.ma.lastSignal, Loop(cfg, mcfg, s, bars).ma.lastSignal)
  {
    if |bars| > 0 {
      var init := bars[..|bars| - 1];
      LoopSignalsAlternate(cfg, mcfg, s, init);
      var prev := Loop(cfg, mcfg, s, init);
      var bar := bars[|bars| - 1];
      StepSignals(cfg, mcfg, prev, bar);
      StepTrades(cfg, mcfg, prev, bar);
      var r := Step(cfg, mcfg, prev, bar);
      assert Loop(cfg, mcfg, s, bars) == r;
      var n := |prev.result.trades|;
      if |r.result.trades| != n {
        assert r.result.trades == prev.result.trades + [r.result.trades[n]];
        AlternatesSnoc(prev.result.trades, |s.result.trades|, s.ma.lastSignal, prev.ma.lastSignal, r.result.trades[n]);
      }
    }
  }

  /** A BUY fill while flat spends half the cash less the commission: the
      commission itself never leaves the cash. */
  lemma BuyKeepsCommissionInCash(cfg: BacktestConfig, bar: T.Ohlcv, l: Ledger, res: BacktestResult)
    requires !l.position.HasPosition() && bar.close + Slippage(cfg, bar.close) != 0.0
    ensures BuyFill(cfg, bar, l, res).0.capital == l.capital * 0.5 + Commission(cfg, l.capital * 0.5)
  {
  }

  /** A BUY then a SELL from a flat ledger: the cash changes by the price move
      times the quantity, which is the recorded P&L plus the sell commission;
      no commission is ever taken from the cash. */
  lemma BuySellCash(cfg: BacktestConfig, buyBar: T.Ohlcv, sellBar: T.Ohlcv, l: Ledger, res: BacktestResult)
    requires !l.position.HasPosition()
    requires BuyQuantity(cfg, l.capital, buyBar.close) != 0.0
    ensures var b := BuyFill(cfg, buyBar, l, res);
      var s := SellFill(cfg, sellBar, b.0, b.1);
      var q := BuyQuantity(cfg, l.capital, buyBar.close);
      var buy := buyBar.close + Slippage(cfg, buyBar.close);
      var sell := sellBar.close - Slippage(cfg, sellBar.close);
      s.0.capital == l.capital + (sell - buy) * q &&
      s.1.trades[|s.1.trades| - 1].pnl == (sell - buy) * q - Commission(cfg, sell * q) &&
      s.0.capital == l.capital + s.1.trades[|s.1.trades| - 1].pnl + Commission(cfg, sell * q)
  {
    var q := BuyQuantity(cfg, l.capital, buyBar.close);
    var buy := buyBar.close + Slippage(cfg, buyBar.close);
    var sell := sellBar.close - Slippage(cfg, sellBar.close);
    var b := BuyFill(cfg, buyBar, l, res);
    assert b.0.position == Position(buyBar.symbol, q, buy, buy, 0.0);
    assert b.0.capital == l.capital - q * buy;
    OpenCloseRoundTrip(l, buyBar.symbol, q, buy, sell);
  }

  /** The worked example: 10000 of capital, commission 0.001, no slippage, a BUY
      at 100 and then a SELL at 110. The SELL records a P&L of 10·q − 0.11·q
      with q = (5000 − 5)/100. */
  lemma WorkedExample(buyBar: T.Ohlcv, sellBar: T.Ohlcv, l: Ledger, res: BacktestResult)
    requires !l.position.HasPosition() && l.capital == 10000.0
    requires buyBar.close == 100.0 && sellBar.close == 110.0
    ensures var cfg := BacktestConfig(10000.0, 0.001, 0.0);
      var b := BuyFill(cfg, buyBar, l, res);
      var s := SellFill(cfg, sellBar, b.0, b.1);
      var q := (5000.0 - 5.0) / 100.0;
      b.1.trades[|b.1.trades| - 1].quantity == q &&
      s.1.trades[|s.1.trades| - 1].pnl == 10.0 * q - 0.11 * q
  {
    var cfg := BacktestConfig(10000.0, 0.001, 0.0);
    assert Commission(cfg, 5000.0) == 5.0;
    assert BuyQuantity(cfg, 10000.0, 100.0) == (5000.0 - 5.0) / 100.0;
    BuySellCash(cfg, buyBar, sellBar, l, res);
  }

  class BacktestEngine {
    const config: BacktestConfig
    var strategy: MaCrossStrategy?
    var data: seq<T.Ohlcv>
    var result: BacktestResult

    /** What the engine and its strategy hold, as a value. */
    function SimOf(): Sim
      reads this, strategy, if strategy == null then {} else {strategy.base}
      requires strategy != null
    {
      Sim(strategy.MaStateOf(), strategy.base.State(), result)
    }

    function StrategyObjects(): set<object>
      reads this
    {
      if strategy == null then {} else {strategy, strategy.base}
    }

    /** No strategy and no data yet; the result is zero but for its initial capital. */
    constructor (cfg: BacktestConfig)
      ensures config == cfg && strategy == null && data == []
      ensures result == ZeroResult().(initialCapital := cfg.initialCapital)
    {
      config := cfg;
      strategy := null;
      data := [];
      result := ZeroResult().(initialCapital := cfg.initialCapital);
    }

    method SetStrategy(s: MaCrossStrategy?)
      modifies this
      ensures strategy == s && data == old(data) && result == old(result)
    {
      strategy := s;
    }

    method SetData(d: seq<T.Ohlcv>)
      modifies this
      ensures data == d && strategy == old(strategy) && result == old(result)
    {
      data := d;
    }

    method GetResult() returns (r: BacktestResult)
      ensures r == result
    {
      r := result;
    }

    method CalculateCommission(amount: real) returns (c: real)
      ensures c == Commission(config, amount)
    {
      c := amount * config.commissionRate;
    }

    method CalculateSlippage(price: real) returns (s: real)
      ensures s == Slippage(config, price)
    {
      s := price * config.slippageRate;
    }

    /** Without a strategy or without data nothing changes; otherwise the engine
        and its strategy end in the state `RunSpec` gives. */
    method Run()
      requires strategy != null ==> strategy.Valid()
      modifies this, StrategyObjects()
      ensures strategy == old(strategy) && data == old(data)
      ensures strategy == null ==> result == old(result)
      ensures strategy != null ==> (strategy.Valid() &&
        SimOf() == RunSpec(config, strategy.config, old(SimOf()), data))
    {
      if strategy == null || |data| == 0 {
        return;
      }
      var st := strategy;
      var base := st.base;
      base.OnInit(config.initialCapital);
      result := result.(equityCurve := [config.initialCapital], timestamps := [data[0].timestamp]);
      assert SimOf() == StartRun(config, old(SimOf()), data[0]);
      RunBars();
      var equity := base.GetTotalEquity();
      var totalReturn := base.GetTotalReturn();
      result := result.(finalCapital := base.capital, finalEquity := equity, totalReturn := totalReturn);
    }

    /** The bar loop of a run. */
    method RunBars()
      requires strategy != null && strategy.Valid()
      modifies this, strategy, strategy.base
      ensures strategy == old(strategy) && data == old(data) && strategy.Valid()
      ensures SimOf() == Loop(config, strategy.config, old(SimOf()), data)
    {
      var st := strategy;
      ghost var start := SimOf();
      var i := 0;
      while i < |data|
        invariant 0 <= i <= |data|
        invariant strategy == st && data == old(data)
        invariant st.Valid()
        invariant SimOf() == Loop(config, st.config, start, data[..i])
        modifies this, st, st.base
      {
        LoopSnoc(config, st.config, start, data, i);
        RunBar(data[i]);
        i := i + 1;
      }
      assert data[..i] == data;
    }

    /** One iteration of the bar loop. */
    method RunBar(bar: T.Ohlcv)
      requires strategy != null && strategy.Valid()
      modifies this, strategy, strategy.base
      ensures strategy == old(strategy) && data == old(data) && strategy.Valid()
      ensures SimOf() == Step(config, strategy.config, old(SimOf()), bar)
    {
      var st := strategy;
      var base := st.base;
      ActOnBar(bar);
      if base.position.quantity > 0.0 {
        base.UpdatePositionPrice(bar.close);
      }
      var equity := base.GetTotalEquity();
      result := result.(equityCurve := result.equityCurve + [equity],
                        timestamps := result.timestamps + [bar.timestamp]);
    }

    /** The strategy sees the bar and its signal is filled unless it is HOLD or NONE. */
    method ActOnBar(bar: T.Ohlcv)
      requires strategy != null && strategy.Valid()
      modifies this, strategy, strategy.base
      ensures strategy == old(strategy) && data == old(data) && strategy.Valid()
      ensures SimOf() == Act(config, strategy.config, old(SimOf()), bar)
    {
      var st := strategy;
      st.OnBar(bar);
      var signal := st.GenerateSignal();
      if signal != Hold && signal != None {
        ProcessSignal(signal, bar);
      }
    }

    /** Fills a BUY or a SELL through the strategy's ledger. */
    method ProcessSignal(signal: Signal, bar: T.Ohlcv)
      requires strategy != null
      modifies this, strategy.base
      ensures strategy == old(strategy) && data == old(data)
      ensures (strategy.base.State(), result)
           == SignalFill(config, signal, bar, old(strategy.base.State()), old(result))
    {
      if signal == Buy {
        FillBuy(bar);
      } else if signal == Sell {
        FillSell(bar);
      }
    }

    /** A BUY: half the capital, less commission, at the close plus slippage. */
    method FillBuy(bar: T.Ohlcv)
      requires strategy != null
      modifies this, strategy.base
      ensures strategy == old(strategy) && data == old(data)
      ensures (strategy.base.State(), result) == BuyFill(config, bar, old(strategy.base.State()), old(result))
    {
      var base := strategy.base;
      var capital := base.capital;
      var amount := capital * 0.5;
      var slippage := CalculateSlippage(bar.close);
      var price := bar.close + slippage;
      var commission := CalculateCommission(amount);
      var quantity := N.Div(amount - commission, price);
      base.OpenPosition(bar.symbol, quantity, price);
      var t := Trade(bar.timestamp, bar.symbol, Buy, price, quantity, 0.0);
      base.AddTrade(t);
      result := result.(trades := result.trades + [t], totalTrades := result.totalTrades + 1);
    }

    /** A SELL: close at the close less slippage, net of commission on the proceeds. */
    method FillSell(bar: T.Ohlcv)
      requires strategy != null
      modifies this, strategy.base
      ensures strategy == old(strategy) && data == old(data)
      ensures (strategy.base.State(), result) == SellFill(config, bar, old(strategy.base.State()), old(result))
    {
      var base := strategy.base;
      ghost var l0 := base.State();
      var slippage := CalculateSlippage(bar.close);
      var price := bar.close - slippage;
      var quantity := base.position.quantity;
      var pnl := base.ClosePosition(price);
      ghost var closed := Close(l0, price);
      assert base.State() == closed.0 && pnl == closed.1;
      var commission := CalculateCommission(price * quantity);
      pnl := pnl - commission;
      var t := Trade(bar.timestamp, bar.symbol, Sell, price, 0.0, pnl);
      base.AddTrade(t);
      assert base.State() == WithTrade(closed.0, t);
      var won := if pnl > 0.0 then 1 else 0;
      var lost := if pnl < 0.0 then 1 else 0;
      result := result.(trades := result.trades + [t], totalTrades := result.totalTrades + 1,
                        winningTrades := result.winningTrades + won, losingTrades := result.losingTrades + lost);
    }
  }
}
