/** The moving-average cross strategy: a bounded history of closes, two-slot
    buffers holding the latest fast and slow averages, cross detection and a
    signal filter that remembers the last BUY or SELL it emitted. */
module MaCross {
  import T = Types
  import opened Strategy
  import Indicators

  datatype MaConfig = MaConfig(fastPeriod: int, slowPeriod: int, positionSize: real)

  /** MA5 over MA20; the position size (50%) is carried but never read. */
  function DefaultMaConfig(): (c: MaConfig)
    ensures c.fastPeriod == 5 && c.slowPeriod == 20 && c.positionSize == 0.5
  {
    MaConfig(5, 20, 0.5)
  }

  /** Both periods must be positive: a non-positive one makes the average throw. */
  predicate WellFormed(cfg: MaConfig)
  {
    cfg.fastPeriod >= 1 && cfg.slowPeriod >= 1
  }

  /** How many closes the history keeps. */
  function Capacity(cfg: MaConfig): int
  {
    cfg.slowPeriod + 10
  }

  datatype MaState = MaState(
    history: seq<real>,
    fastMa: seq<real>,
    slowMa: seq<real>,
    lastSignal: Signal,
    currentBar: T.Ohlcv)

  /** The state of a freshly constructed strategy. */
  function InitialMaState(): (st: MaState)
    ensures st.history == [] && st.fastMa == [] && st.slowMa == []
    ensures st.lastSignal == None && st.currentBar == T.DefaultOhlcv()
  {
    MaState([], [], [], None, T.DefaultOhlcv())
  }

  /** The bounds the strategy keeps: at most `Capacity` closes, at most two averages per buffer. */
  predicate Bounded(cfg: MaConfig, st: MaState)
  {
    |st.history| <= Capacity(cfg) && |st.fastMa| <= 2 && |st.slowMa| <= 2
  }

  /** The last `cap` elements of `s` (all of them when there are fewer). */
  function Newest(s: seq<real>, cap: nat): (r: seq<real>)
    ensures |r| <= cap && |r| <= |s|
  {
    if |s| <= cap then s else s[|s| - cap..]
  }

  /** Appending a close, then dropping the oldest if the history grew past `cap`. */
  function PushHistory(h: seq<real>, x: real, cap: int): (r: seq<real>)
    requires cap >= 1
    ensures |h| <= cap ==> |r| <= cap
    ensures |r| > 0 && r[|r| - 1] == x
  {
    if |h + [x]| > cap then (h + [x])[1..] else h + [x]
  }

  /** Appending an average to a buffer that keeps only its two newest entries. */
  function Keep2(buf: seq<real>, x: real): (r: seq<real>)
    ensures |buf| <= 2 ==> |r| <= 2
    ensures |r| > 0 && r[|r| - 1] == x
    ensures |buf| >= 1 && |buf| <= 2 ==> |r| == 2 && r[0] == buf[|buf| - 1]
  {
    if |buf + [x]| > 2 then (buf + [x])[1..] else buf + [x]
  }

  /** The MA of the latest `period` closes, i.e. the last value of the MA series. */
  function LatestMean(prices: seq<real>, period: int): real
    requires 1 <= period <= |prices|
  {
    Indicators.Mean(prices[|prices| - period..])
  }

  /** Recomputing the averages: each buffer gets the MA of its period over the
      latest closes once the history holds at least that many, and is left
      alone otherwise. */
  function UpdatedAverages(cfg: MaConfig, st: MaState): (r: MaState)
    requires WellFormed(cfg)
    ensures r.history == st.history && r.lastSignal == st.lastSignal && r.currentBar == st.currentBar
    ensures |st.history| < cfg.fastPeriod ==> r.fastMa == st.fastMa
    ensures |st.history| >= cfg.fastPeriod ==>
      |r.fastMa| > 0 && r.fastMa[|r.fastMa| - 1] == LatestMean(st.history, cfg.fastPeriod)
    ensures |st.history| < cfg.slowPeriod ==> r.slowMa == st.slowMa
    ensures |st.history| >= cfg.slowPeriod ==>
      |r.slowMa| > 0 && r.slowMa[|r.slowMa| - 1] == LatestMean(st.history, cfg.slowPeriod)
    ensures |st.fastMa| <= 2 && |st.slowMa| <= 2 ==> |r.fastMa| <= 2 && |r.slowMa| <= 2
  {
    var h := st.history;
    st.(fastMa := if |h| >= cfg.fastPeriod then Keep2(st.fastMa, LatestMean(h, cfg.fastPeriod)) else st.fastMa,
        slowMa := if |h| >= cfg.slowPeriod then Keep2(st.slowMa, LatestMean(h, cfg.slowPeriod)) else st.slowMa)
  }

  /** One bar: remember it, push its close into the bounded history, update the
      averages and, while a position is held, mark it to the close. The last
      emitted signal is untouched. */
  function BarStep(cfg: MaConfig, st: MaState, l: Ledger, bar: T.Ohlcv): (r: (MaState, Ledger))
    requires WellFormed(cfg)
    ensures r.0.currentBar == bar && r.0.lastSignal == st.lastSignal
    ensures r.0.history == PushHistory(st.history, bar.close, Capacity(cfg))
    ensures Bounded(cfg, st) ==> Bounded(cfg, r.0)
    ensures l.position.HasPosition() ==> r.1 == MarkPrice(l, bar.close)
    ensures !l.position.HasPosition() ==> r.1 == l
  {
    var pushed := st.(currentBar := bar, history := PushHistory(st.history, bar.close, Capacity(cfg)));
    (UpdatedAverages(cfg, pushed), if l.position.HasPosition() then MarkPrice(l, bar.close) else l)
  }

  /** Golden cross (BUY), death cross (SELL), or nothing until both buffers hold two averages. */
  function Cross(fastMa: seq<real>, slowMa: seq<real>): (s: Signal)
    ensures s != Hold
    ensures (|fastMa| < 2 || |slowMa| < 2) ==> s == None
    ensures s == Buy <==> (|fastMa| >= 2 && |slowMa| >= 2 && fastMa[0] <= slowMa[0] && fastMa[1] > slowMa[1])
    ensures s == Sell <==> (|fastMa| >= 2 && |slowMa| >= 2 &&
      !(fastMa[0] <= slowMa[0] && fastMa[1] > slowMa[1]) && fastMa[0] >= slowMa[0] && fastMa[1] < slowMa[1])
  {
    if |fastMa| < 2 || |slowMa| < 2 then None
    else if fastMa[0] <= slowMa[0] && fastMa[1] > slowMa[1] then Buy
    else if fastMa[0] >= slowMa[0] && fastMa[1] < slowMa[1] then Sell
    else None
  }

  /** Signal generation. Too little history gives NONE. Otherwise the cross is
      filtered: BUY while holding and SELL while flat become HOLD, and a repeat
      of the last signal becomes HOLD. Only an emitted BUY or SELL is remembered. */
  function SignalStep(cfg: MaConfig, st: MaState, holding: bool): (r: (Signal, MaState))
    ensures |st.history| < cfg.slowPeriod ==> r == (None, st)
    ensures r.0 == Buy ==> !holding
    ensures r.0 == Sell ==> holding
    ensures (r.0 == Buy || r.0 == Sell) ==> r.0 != st.lastSignal && r.1 == st.(lastSignal := r.0)
    ensures !(r.0 == Buy || r.0 == Sell) ==> r.1 == st
    ensures r.0 != Hold && |st.history| >= cfg.slowPeriod ==> r.0 == Cross(st.fastMa, st.slowMa)
  {
    if |st.history| < cfg.slowPeriod then (None, st)
    else
      var signal := Cross(st.fastMa, st.slowMa);
      if signal == Buy && holding then (Hold, st)
      else if signal == Sell && !holding then (Hold, st)
      else if signal == st.lastSignal then (Hold, st)
      else (signal, if signal != None then st.(lastSignal := signal) else st)
  }

  /** Until the first BUY or SELL is emitted, "no cross" is reported as HOLD;
      afterwards it is reported as NONE. */
  lemma NoCrossReporting(cfg: MaConfig, st: MaState, holding: bool)
    requires |st.history| >= cfg.slowPeriod && Cross(st.fastMa, st.slowMa) == None
    ensures st.lastSignal == None ==> SignalStep(cfg, st, holding).0 == Hold
    ensures st.lastSignal != None ==> SignalStep(cfg, st, holding).0 == None
  {
  }

  /** Replaying bars through `OnBar` alone. */
  function Replay(cfg: MaConfig, st: MaState, l: Ledger, bars: seq<T.Ohlcv>): (MaState, Ledger)
    requires WellFormed(cfg)
  {
    if |bars| == 0 then (st, l)
    else
      var prev := Replay(cfg, st, l, bars[..|bars| - 1]);
      BarStep(cfg, prev.0, prev.1, bars[|bars| - 1])
  }

  function Closes(bars: seq<T.Ohlcv>): (c: seq<real>)
    ensures |c| == |bars| && forall i :: 0 <= i < |bars| ==> c[i] == bars[i].close
  {
    seq(|bars|, i requires 0 <= i < |bars| => bars[i].close)
  }

  /** Pushing into the newest `cap` closes keeps the newest `cap` closes. */
  lemma PushNewest(s: seq<real>, x: real, cap: nat)
    requires cap >= 1
    ensures PushHistory(Newest(s, cap), x, cap) == Newest(s + [x], cap)
  {
  }

  /** From an empty history, the history is always the newest `slow + 10` closes
      seen, in arrival order. */
  lemma {:induction false} HistoryIsNewestCloses(cfg: MaConfig, st: MaState, l: Ledger, bars: seq<T.Ohlcv>)
    requires WellFormed(cfg) && st.history == []
    ensures Replay(cfg, st, l, bars).0.history == Newest(Closes(bars), Capacity(cfg))
  {
    if |bars| > 0 {
      var init, last := bars[..|bars| - 1], bars[|bars| - 1];
      HistoryIsNewestCloses(cfg, st, l, init);
      ReplayHistory(cfg, st, l, bars);
      PushNewest(Closes(init), last.close, Capacity(cfg));
      ClosesSnoc(bars);
    }
  }

  /** Replaying one more bar pushes its close into the history. */
  lemma ReplayHistory(cfg: MaConfig, st: MaState, l: Ledger, bars: seq<T.Ohlcv>)
    requires WellFormed(cfg) && |bars| > 0
    ensures Replay(cfg, st, l, bars).0.history
         == PushHistory(Replay(cfg, st, l, bars[..|bars| - 1]).0.history, bars[|bars| - 1].close, Capacity(cfg))
  {
  }

  lemma ClosesSnoc(bars: seq<T.Ohlcv>)
    requires |bars| > 0
    ensures Closes(bars[..|bars| - 1]) + [bars[|bars| - 1].close] == Closes(bars)
  {
  }

  /** The last element of a buffer, or 0 when it is empty. */
  function LastOrZero(buf: seq<real>): (v: real)
    ensures |buf| == 0 ==> v == 0.0
    ensures |buf| > 0 ==> v == buf[|buf| - 1]
  {
    if |buf| == 0 then 0.0 else buf[|buf| - 1]
  }

  class MaCrossStrategy {
    const base: StrategyBase
    const config: MaConfig
    var history: seq<real>
    var fastMa: seq<real>
    var slowMa: seq<real>
    var lastSignal: Signal
    var currentBar: T.Ohlcv

    function MaStateOf(): MaState
      reads this
    {
      MaState(history, fastMa, slowMa, lastSignal, currentBar)
    }

    predicate Valid()
      reads this
    {
      WellFormed(config) && Bounded(config, MaStateOf())
    }

    /** A fast period not below the slow one only draws a warning. */
    constructor (cfg: MaConfig)
      requires WellFormed(cfg)
      ensures config == cfg && MaStateOf() == InitialMaState() && Valid()
      ensures fresh(base) && base.position == DefaultPosition() && base.trades == []
    {
      base := new StrategyBase();
      config := cfg;
      history := [];
      fastMa := [];
      slowMa := [];
      lastSignal := None;
      currentBar := T.DefaultOhlcv();
    }

    function GetName(): (name: string)
      ensures name == "MA Cross Strategy"
    {
      "MA Cross Strategy"
    }

    method GetFastMa() returns (v: real)
      ensures v == LastOrZero(fastMa)
    {
      v := if |fastMa| == 0 then 0.0 else fastMa[|fastMa| - 1];
    }

    method GetSlowMa() returns (v: real)
      ensures v == LastOrZero(slowMa)
    {
      v := if |slowMa| == 0 then 0.0 else slowMa[|slowMa| - 1];
    }

    method OnBar(bar: T.Ohlcv)
      requires Valid()
      modifies this, base
      ensures Valid()
      ensures (MaStateOf(), base.State()) == BarStep(config, old(MaStateOf()), old(base.State()), bar)
    {
      currentBar := bar;
      history := history + [bar.close];
      if |history| > config.slowPeriod + 10 {
        history := history[1..];
      }
      UpdateMa();
      if base.position.HasPosition() {
        base.UpdatePositionPrice(bar.close);
      }
    }

    /** Appends the newest value of each MA series, keeping two per buffer. */
    method UpdateMa()
      requires WellFormed(config)
      modifies this
      ensures MaStateOf() == UpdatedAverages(config, old(MaStateOf()))
    {
      var prices := history;
      fastMa := PushAverage(fastMa, prices, config.fastPeriod);
      slowMa := PushAverage(slowMa, prices, config.slowPeriod);
    }

    /** One buffer's update: once `prices` holds `period` closes, the last value
        of their MA series goes in; the buffer keeps its two newest entries. */
    static method PushAverage(buf: seq<real>, prices: seq<real>, period: int) returns (r: seq<real>)
      requires period >= 1
      ensures r == if |prices| >= period then Keep2(buf, LatestMean(prices, period)) else buf
    {
      r := buf;
      if |prices| >= period {
        var ma := Indicators.CalculateMa(prices, period);
        if ma.Done? && |ma.value| > 0 {
          assert prices[|prices| - period..|prices|] == prices[|prices| - period..];
          r := r + [ma.value[|ma.value| - 1]];
          if |r| > 2 {
            r := r[1..];
          }
        }
      }
    }

    method DetectCross() returns (s: Signal)
      ensures s == Cross(fastMa, slowMa)
    {
      if |fastMa| < 2 || |slowMa| < 2 {
        return None;
      }
      var fastCurr, fastPrev := fastMa[1], fastMa[0];
      var slowCurr, slowPrev := slowMa[1], slowMa[0];
      if fastPrev <= slowPrev && fastCurr > slowCurr {
        return Buy;
      }
      if fastPrev >= slowPrev && fastCurr < slowCurr {
        return Sell;
      }
      return None;
    }

    method GenerateSignal() returns (s: Signal)
      modifies this
      ensures (s, MaStateOf()) == SignalStep(config, old(MaStateOf()), base.position.HasPosition())
    {
      if |history| < config.slowPeriod {
        return None;
      }
      s := DetectCross();
      if s == Buy && base.position.HasPosition() {
        return Hold;
      }
      if s == Sell && !base.position.HasPosition() {
        return Hold;
      }
      if s == lastSignal {
        return Hold;
      }
      if s != None {
        lastSignal := s;
      }
    }
  }
}
