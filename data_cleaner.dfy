/** The data cleaner: an ordered list of cleaning rules applied to each bar,
    static detectors for price jumps, volume spikes and timestamp gaps, and
    de-duplication. A rule is a value here; the two stateful rules carry their
    state (the last close, the recent volumes) in the value, and cleaning a
    bar returns the rules with their new state. */
module Cleaners {
  import opened Types
  import Indicators

  /** Defaults of the static detectors and of `fill_missing`. */
  const DefaultJumpThreshold: real := 0.5
  const DefaultVolumeThreshold: real := 10.0
  const DefaultTolerance: int := 1000
  const DefaultFillMethod: string := "forward"

  /** The capacity of a volume-anomaly rule's history. */
  const HistorySize: nat := 100

  /** The fewest volumes a volume-anomaly rule needs before it judges a bar. */
  const MinHistory: nat := 10

  datatype Rule =
    | PriceValidity
    | OhlcRelation
    | PriceJump(threshold: real, lastClose: real)
    | VolumeAnomaly(threshold: real, history: seq<real>)

  /** The rules as their constructors build them. */
  function NewPriceJump(): (r: Rule)
    ensures r.PriceJump? && r.threshold == 0.5 && r.lastClose == 0.0
  {
    PriceJump(DefaultJumpThreshold, 0.0)
  }

  function NewVolumeAnomaly(): (r: Rule)
    ensures r.VolumeAnomaly? && r.threshold == 10.0 && r.history == []
  {
    VolumeAnomaly(DefaultVolumeThreshold, [])
  }

  function Abs(x: real): (a: real)
    ensures a >= 0.0 && (a == x || a == -x)
  {
    if x < 0.0 then -x else x
  }

  // ------------------------------------------------------------ detectors

  /** A relative move from `previous` to `current` larger than `threshold`;
      never when the previous price is not positive. */
  function DetectPriceJump(current: real, previous: real, threshold: real): (jump: bool)
    ensures previous <= 0.0 ==> !jump
    ensures previous > 0.0 ==> (jump <==> Abs(current - previous) > threshold * previous)
  {
    if previous <= 0.0 then false
    else
      var change := Abs((current - previous) / previous);
      RelativeChange(current - previous, previous);
      change > threshold
  }

  lemma RelativeChange(d: real, p: real)
    requires p > 0.0
    ensures Abs(d / p) * p == Abs(d)
  {
    assert (d / p) * p == d;
    if d < 0.0 {
      assert (-(d / p)) * p == -d;
    }
  }

  /** With the default threshold, 100 → 151 is a jump and 100 → 150 is not;
      a fall counts as well as a rise. */
  lemma PriceJumpExamples()
    ensures DetectPriceJump(151.0, 100.0, DefaultJumpThreshold)
    ensures !DetectPriceJump(150.0, 100.0, DefaultJumpThreshold)
    ensures DetectPriceJump(49.0, 100.0, DefaultJumpThreshold)
  {
  }

  /** A volume above `threshold` times the average; never when the average is
      not positive. */
  function DetectVolumeAnomaly(volume: real, avgVolume: real, threshold: real): (anomaly: bool)
    ensures avgVolume <= 0.0 ==> !anomaly
    ensures avgVolume > 0.0 ==> (anomaly <==> volume > avgVolume * threshold)
  {
    if avgVolume <= 0.0 then false else volume > avgVolume * threshold
  }

  /** A larger volume against the same average is at least as anomalous. */
  lemma VolumeAnomalyMonotone(v: real, w: real, avg: real, threshold: real)
    requires v <= w && DetectVolumeAnomaly(v, avg, threshold)
    ensures DetectVolumeAnomaly(w, avg, threshold)
  {
  }

  /** The gap `current − previous` is within `tolerance` of `expected`. */
  function IsTimestampContinuous(current: int, previous: int, expected: int, tolerance: int): (ok: bool)
    ensures ok <==> previous + expected - tolerance <= current <= previous + expected + tolerance
  {
    var diff := current - previous - expected;
    (if diff < 0 then -diff else diff) <= tolerance
  }

  // ---------------------------------------------------------------- rules

  predicate PricesPositive(b: Ohlcv)
  {
    b.open > 0.0 && b.high > 0.0 && b.low > 0.0 && b.close > 0.0
  }

  /** The high is the largest and the low the smallest of the four prices. */
  predicate OhlcConsistent(b: Ohlcv)
  {
    b.high >= b.low && b.high >= b.open && b.high >= b.close && b.low <= b.open && b.low <= b.close
  }

  /** Whether a rule keeps a bar. Only the two validity rules can drop one; the
      price-jump and volume rules always keep it. */
  predicate Accepts(r: Rule, b: Ohlcv)
  {
    match r
    case PriceValidity => PricesPositive(b)
    case OhlcRelation => OhlcConsistent(b)
    case PriceJump(_, _) => true
    case VolumeAnomaly(_, _) => true
  }

  /** Same constructor and threshold: the part of a rule no bar changes. */
  predicate SameKind(a: Rule, b: Rule)
  {
    match a
    case PriceValidity => b.PriceValidity?
    case OhlcRelation => b.OhlcRelation?
    case PriceJump(t, _) => b.PriceJump? && b.threshold == t
    case VolumeAnomaly(t, _) => b.VolumeAnomaly? && b.threshold == t
  }

  /** `b` is `a` with at most its quality flag changed: to SUSPICIOUS or not at all. */
  predicate Flagged(a: Ohlcv, b: Ohlcv)
  {
    b == a.(quality := b.quality) && (b.quality == a.quality || b.quality == Suspicious)
  }

  /** The volume history after recording `v`: appended, then the oldest entry
      dropped when that makes it longer than `HistorySize`. */
  function Recorded(h: seq<real>, v: real): (r: seq<real>)
    ensures |h| <= HistorySize ==> |r| <= HistorySize
    ensures |r| > 0 && r[|r| - 1] == v
    ensures |h| < HistorySize ==> r == h + [v]
  {
    if |h + [v]| > HistorySize then (h + [v])[1..] else h + [v]
  }

  /** Applying one rule to one bar: whether the bar is kept, the bar as the
      rule leaves it, and the rule with its new state. */
  function ApplyRule(r: Rule, b: Ohlcv): (res: (bool, Ohlcv, Rule))
    ensures res.0 == Accepts(r, b)
    ensures Flagged(b, res.1)
    ensures SameKind(r, res.2)
    ensures r.PriceJump? ==> res.2.lastClose == b.close
    ensures r.PriceJump? && r.lastClose <= 0.0 ==> res.1 == b
    ensures r.VolumeAnomaly? ==> res.2.history == Recorded(r.history, b.volume)
    ensures r.VolumeAnomaly? && |res.2.history| < MinHistory ==> res.1 == b
    ensures !r.PriceJump? && !r.VolumeAnomaly? ==> res.1 == b && res.2 == r
  {
    match r
    case PriceValidity => (PricesPositive(b), b, r)
    case OhlcRelation => (OhlcConsistent(b), b, r)
    case PriceJump(t, last) =>
      var flagged := last > 0.0 && DetectPriceJump(b.close, last, t);
      (true, if flagged then b.(quality := Suspicious) else b, PriceJump(t, b.close))
    case VolumeAnomaly(t, h) =>
      var h' := Recorded(h, b.volume);
      var flagged := |h'| >= MinHistory && DetectVolumeAnomaly(b.volume, Indicators.Mean(h'), t);
      (true, if flagged then b.(quality := Suspicious) else b, VolumeAnomaly(t, h'))
  }

  /** The average the volume rule compares against includes the bar itself.
      With the default threshold and exactly ten non-negative volumes, a bar
      would have to exceed the sum of all ten, its own volume included: the
      tenth bar is never flagged. */
  lemma TenthVolumeNeverFlagged(h: seq<real>, b: Ohlcv)
    requires |h| == 9 && forall i :: 0 <= i < 9 ==> h[i] >= 0.0
    requires b.volume >= 0.0
    ensures ApplyRule(VolumeAnomaly(DefaultVolumeThreshold, h), b).1 == b
  {
    var h' := h + [b.volume];
    assert Recorded(h, b.volume) == h';
    assert h'[..9] == h;
    Indicators.SumNonNegative(h);
    assert Indicators.Sum(h') == Indicators.Sum(h) + b.volume;
  }

  /** With a full history of 99 unit volumes, a volume of 1000 is more than ten
      times the average 10.99 and is flagged. */
  lemma VolumeSpikeFlagged(h: seq<real>, b: Ohlcv)
    requires |h| == 99 && forall i :: 0 <= i < 99 ==> h[i] == 1.0
    requires b.volume == 1000.0
    ensures ApplyRule(VolumeAnomaly(DefaultVolumeThreshold, h), b).1 == b.(quality := Suspicious)
  {
    var h' := h + [1000.0];
    assert Recorded(h, 1000.0) == h';
    assert h'[..99] == h;
    Indicators.SumConstant(h, 1.0);
    assert Indicators.Sum(h') == 1099.0;
  }

  /** Every rule sees the bar the previous rule left; cleaning stops at the
      first rule that drops it. */
  datatype Pass = Pass(kept: bool, bar: Ohlcv, rules: seq<Rule>)

  predicate SameKinds(a: seq<Rule>, b: seq<Rule>)
  {
    |a| == |b| && forall i :: 0 <= i < |a| ==> SameKind(a[i], b[i])
  }

  /** The first `n` rules applied to `b`, in order. Rules not reached keep
      their state. */
  function CleanUpTo(rules: seq<Rule>, b: Ohlcv, n: nat): (p: Pass)
    requires n <= |rules|
    ensures SameKinds(rules, p.rules)
    ensures forall j :: n <= j < |rules| ==> p.rules[j] == rules[j]
    ensures Flagged(b, p.bar)
    ensures p.kept <==> forall i :: 0 <= i < n ==> Accepts(rules[i], b)
  {
    if n == 0 then Pass(true, b, rules)
    else
      var prev := CleanUpTo(rules, b, n - 1);
      if !prev.kept then prev
      else
        var res := ApplyRule(prev.rules[n - 1], prev.bar);
        Pass(res.0, res.1, prev.rules[n - 1 := res.2])
  }

  /** Once a rule has dropped the bar, the later rules change nothing. */
  lemma {:induction false} StoppedStaysStopped(rules: seq<Rule>, b: Ohlcv, i: nat, n: nat)
    requires i <= n <= |rules| && !CleanUpTo(rules, b, i).kept
    ensures CleanUpTo(rules, b, n) == CleanUpTo(rules, b, i)
    decreases n - i
  {
    if n > i {
      StoppedStaysStopped(rules, b, i, n - 1);
    }
  }

  /** Cleaning one bar: BAD exactly when some rule drops it, GOOD otherwise,
      even when a rule flagged the bar SUSPICIOUS. */
  function CleanSpec(rules: seq<Rule>, b: Ohlcv): (res: (DataQuality, Ohlcv, seq<Rule>))
    ensures res.0 == Bad <==> exists i :: 0 <= i < |rules| && !Accepts(rules[i], b)
    ensures res.0 == Good || res.0 == Bad
    ensures Flagged(b, res.1) && SameKinds(rules, res.2)
  {
    var p := CleanUpTo(rules, b, |rules|);
    (if p.kept then Good else Bad, p.bar, p.rules)
  }

  /** A bar passes every rule. */
  predicate PassesAll(rules: seq<Rule>, b: Ohlcv)
  {
    forall i :: 0 <= i < |rules| ==> Accepts(rules[i], b)
  }

  /** Rules of the same kinds accept the same bars, and a quality flag does not
      change what they accept. */
  lemma PassesAllInvariant(a: seq<Rule>, b: seq<Rule>, x: Ohlcv, y: Ohlcv)
    requires SameKinds(a, b) && Flagged(x, y)
    ensures PassesAll(a, x) <==> PassesAll(b, y)
  {
    assert forall i :: 0 <= i < |a| ==> (Accepts(a[i], x) <==> Accepts(b[i], y));
  }

  /** The input bars that pass every rule, in order. */
  function Passing(rules: seq<Rule>, bars: seq<Ohlcv>): (r: seq<Ohlcv>)
    ensures |r| <= |bars|
    ensures forall k :: 0 <= k < |r| ==> PassesAll(rules, r[k])
  {
    if |bars| == 0 then []
    else
      var b := bars[|bars| - 1];
      Passing(rules, bars[..|bars| - 1]) + (if PassesAll(rules, b) then [b] else [])
  }

  /** Cleaning a batch: each bar is cleaned by the rules as the previous bars
      left them; the bars rated GOOD are kept, as the rules left them. */
  function BatchSpec(rules: seq<Rule>, bars: seq<Ohlcv>): (res: (seq<Ohlcv>, seq<Rule>))
    ensures SameKinds(rules, res.1)
    ensures |res.0| == |Passing(rules, bars)|
    ensures forall k :: 0 <= k < |res.0| ==> Flagged(Passing(rules, bars)[k], res.0[k])
  {
    if |bars| == 0 then ([], rules)
    else
      var prev := BatchSpec(rules, bars[..|bars| - 1]);
      var b := bars[|bars| - 1];
      var c := CleanSpec(prev.1, b);
      PassesAllInvariant(rules, prev.1, b, b);
      assert c.0 == Good <==> PassesAll(rules, b);
      (prev.0 + (if c.0 == Good then [c.1] else []), c.2)
  }

  /** The batch over one more bar, as the cleaner's loop takes it. */
  lemma BatchStep(rules: seq<Rule>, bars: seq<Ohlcv>, i: int)
    requires 0 <= i < |bars|
    ensures var prev := BatchSpec(rules, bars[..i]);
      var c := CleanSpec(prev.1, bars[i]);
      BatchSpec(rules, bars[..i + 1]) == (prev.0 + (if c.0 == Good then [c.1] else []), c.2)
  {
    assert bars[..i + 1][..i] == bars[..i];
  }

  /** Without rules every bar is kept unchanged. */
  lemma {:induction false} NoRulesKeepEverything(bars: seq<Ohlcv>)
    ensures BatchSpec([], bars).0 == bars
  {
    if |bars| > 0 {
      NoRulesKeepEverything(bars[..|bars| - 1]);
      assert bars[..|bars| - 1] + [bars[|bars| - 1]] == bars;
    }
  }

  class DataCleaner {
    var rules: seq<Rule>

    /** A new cleaner checks price validity, then the OHLC relation. */
    constructor ()
      ensures rules == [PriceValidity, OhlcRelation]
    {
      rules := [PriceValidity, OhlcRelation];
    }

    method AddRule(r: Rule)
      modifies this
      ensures rules == old(rules) + [r]
    {
      rules := rules + [r];
    }

    method CleanOhlcv(b: Ohlcv) returns (q: DataQuality, out: Ohlcv)
      modifies this
      ensures (q, out, rules) == CleanSpec(old(rules), b)
    {
      var start := rules;
      out := b;
      var i := 0;
      while i < |rules|
        invariant 0 <= i <= |rules| == |start|
        invariant CleanUpTo(start, b, i) == Pass(true, out, rules)
      {
        var res := ApplyRule(rules[i], out);
        rules := rules[i := res.2];
        out := res.1;
        if !res.0 {
          StoppedStaysStopped(start, b, i + 1, |start|);
          return Bad, out;
        }
        i := i + 1;
      }
      q := Good;
    }

    method CleanOhlcvBatch(bars: seq<Ohlcv>) returns (kept: seq<Ohlcv>)
      modifies this
      ensures (kept, rules) == BatchSpec(old(rules), bars)
    {
      kept := [];
      ghost var start := rules;
      for i := 0 to |bars|
        invariant (kept, rules) == BatchSpec(start, bars[..i])
      {
        BatchStep(start, bars, i);
        var q, cleaned := CleanOhlcv(bars[i]);
        if q == Good {
          kept := kept + [cleaned];
        } else {
          assert kept + [] == kept;
        }
      }
      assert bars[..|bars|] == bars;
    }
  }

  // ------------------------------------------------------ ticks, order books

  /** A tick is BAD iff its timestamp or price is not positive or its volume is negative. */
  function CleanTick(t: Tick): (q: DataQuality)
    ensures q == Bad <==> t.timestamp <= 0 || t.price <= 0.0 || t.volume < 0.0
    ensures q == Good || q == Bad
  {
    if t.timestamp <= 0 || t.price <= 0.0 || t.volume < 0.0 then Bad else Good
  }

  /** An order book is BAD iff its timestamp is not positive or a side is empty. */
  function CleanOrderbook(ob: OrderBook): (q: DataQuality)
    ensures q == Bad <==> ob.timestamp <= 0 || |ob.bids| == 0 || |ob.asks| == 0
    ensures q == Good || q == Bad
  {
    if ob.timestamp <= 0 then Bad
    else if |ob.bids| == 0 || |ob.asks| == 0 then Bad
    else Good
  }

  // -------------------------------------------------------- de-duplication

  function DigitChar(d: int): (c: char)
    requires 0 <= d < 10
    ensures '0' <= c <= '9'
  {
    "0123456789"[d]
  }

  /** Decimal digits of a natural number, most significant first. */
  function NatToString(n: nat): (s: string)
    ensures |s| > 0 && forall i :: 0 <= i < |s| ==> '0' <= s[i] <= '9'
    decreases n
  {
    if n < 10 then [DigitChar(n)] else NatToString(n / 10) + [DigitChar(n % 10)]
  }

  /** `std::to_string` of an integer. */
  function IntToString(i: int): (s: string)
    ensures |s| > 0 && forall k :: 0 <= k < |s| ==> s[k] != '_'
  {
    if i < 0 then "-" + NatToString(-i) else NatToString(i)
  }

  /** The de-duplication key "timestamp_symbol_exchange". */
  function Key(b: Ohlcv): string
  {
    IntToString(b.timestamp) + "_" + b.symbol + "_" + b.exchange
  }

  /** The keys of some bars. */
  function Keys(bars: seq<Ohlcv>): set<string>
  {
    set i | 0 <= i < |bars| :: Key(bars[i])
  }

  lemma KeysSnoc(bars: seq<Ohlcv>, b: Ohlcv)
    ensures Keys(bars + [b]) == Keys(bars) + {Key(b)}
  {
    var s := bars + [b];
    assert forall i :: 0 <= i < |bars| ==> s[i] == bars[i];
    assert s[|bars|] == b;
  }

  /** The first bar of each key, in input order. */
  function Deduplicated(bars: seq<Ohlcv>): (r: seq<Ohlcv>)
    ensures |r| <= |bars|
  {
    if |bars| == 0 then []
    else
      var p := bars[..|bars| - 1];
      var b := bars[|bars| - 1];
      if Key(b) in Keys(p) then Deduplicated(p) else Deduplicated(p) + [b]
  }

  /** The de-duplicated bars have the same keys as the input. */
  lemma {:induction false} DeduplicatedKeys(bars: seq<Ohlcv>)
    ensures Keys(Deduplicated(bars)) == Keys(bars)
  {
    if |bars| > 0 {
      var p := bars[..|bars| - 1];
      var b := bars[|bars| - 1];
      assert bars == p + [b];
      DeduplicatedKeys(p);
      KeysSnoc(p, b);
      if Key(b) !in Keys(p) {
        KeysSnoc(Deduplicated(p), b);
      }
    }
  }

  /** No two de-duplicated bars share a key. */
  lemma {:induction false} DeduplicatedDistinct(bars: seq<Ohlcv>)
    ensures forall a, b :: 0 <= a < b < |Deduplicated(bars)| ==> Key(Deduplicated(bars)[a]) != Key(Deduplicated(bars)[b])
  {
    if |bars| > 0 {
      var p := bars[..|bars| - 1];
      var b := bars[|bars| - 1];
      DeduplicatedDistinct(p);
      var prev := Deduplicated(p);
      if Key(b) !in Keys(p) {
        DeduplicatedKeys(p);
        var r := prev + [b];
        assert forall k :: 0 <= k < |prev| ==> r[k] == prev[k];
        assert forall k :: 0 <= k < |prev| ==> Key(r[k]) in Keys(prev);
      }
    }
  }

  /** Every de-duplicated bar is an input bar. */
  lemma {:induction false} DeduplicatedFromInput(bars: seq<Ohlcv>)
    ensures forall k :: 0 <= k < |Deduplicated(bars)| ==> Deduplicated(bars)[k] in bars
  {
    if |bars| > 0 {
      var p := bars[..|bars| - 1];
      var b := bars[|bars| - 1];
      assert bars == p + [b];
      DeduplicatedFromInput(p);
      assert forall x :: x in p ==> x in bars;
    }
  }

  /** The input positions of the bars `Deduplicated` keeps. */
  function KeptIndices(bars: seq<Ohlcv>): (idx: seq<nat>)
    ensures |idx| == |Deduplicated(bars)|
    ensures forall k :: 0 <= k < |idx| ==> idx[k] < |bars|
  {
    if |bars| == 0 then []
    else
      var p := bars[..|bars| - 1];
      if Key(bars[|bars| - 1]) in Keys(p) then KeptIndices(p) else KeptIndices(p) + [|bars| - 1]
  }

  /** The kept positions increase, so the de-duplicated bars keep input order. */
  lemma {:induction false} KeptIndicesIncreasing(bars: seq<Ohlcv>)
    ensures forall a, b :: 0 <= a < b < |KeptIndices(bars)| ==> KeptIndices(bars)[a] < KeptIndices(bars)[b]
  {
    if |bars| > 0 {
      var p := bars[..|bars| - 1];
      KeptIndicesIncreasing(p);
      if Key(bars[|bars| - 1]) !in Keys(p) {
        assert KeptIndices(bars) == KeptIndices(p) + [|bars| - 1];
      } else {
        assert KeptIndices(bars) == KeptIndices(p);
      }
    }
  }

  /** The k-th de-duplicated bar is the input bar at the k-th kept position. */
  lemma {:induction false} DeduplicatedAtKept(bars: seq<Ohlcv>)
    ensures forall k :: 0 <= k < |KeptIndices(bars)| ==> Deduplicated(bars)[k] == bars[KeptIndices(bars)[k]]
  {
    if |bars| > 0 {
      var p := bars[..|bars| - 1];
      var b := bars[|bars| - 1];
      DeduplicatedAtKept(p);
      var ip := KeptIndices(p);
      assert forall k :: 0 <= k < |ip| ==> bars[ip[k]] == p[ip[k]];
      if Key(b) !in Keys(p) {
        assert KeptIndices(bars) == ip + [|bars| - 1];
        assert Deduplicated(bars) == Deduplicated(p) + [b];
      } else {
        assert KeptIndices(bars) == ip;
        assert Deduplicated(bars) == Deduplicated(p);
      }
    }
  }

  /** No bar before a kept position has the kept bar's key. */
  lemma {:induction false} KeptIsFirstOfKey(bars: seq<Ohlcv>)
    ensures forall k :: 0 <= k < |KeptIndices(bars)| ==>
      Key(bars[KeptIndices(bars)[k]]) !in Keys(bars[..KeptIndices(bars)[k]])
  {
    if |bars| > 0 {
      var p := bars[..|bars| - 1];
      var b := bars[|bars| - 1];
      KeptIsFirstOfKey(p);
      var ip := KeptIndices(p);
      var idx := KeptIndices(bars);
      if Key(b) !in Keys(p) {
        assert idx == ip + [|bars| - 1];
      } else {
        assert idx == ip;
      }
      forall k | 0 <= k < |idx|
        ensures Key(bars[idx[k]]) !in Keys(bars[..idx[k]])
      {
        if k < |ip| {
          assert idx[k] == ip[k] && bars[ip[k]] == p[ip[k]] && bars[..ip[k]] == p[..ip[k]];
        } else {
          assert idx[k] == |bars| - 1 && bars[..idx[k]] == p;
        }
      }
    }
  }

  /** Of two bars with one key, the later one is dropped. */
  lemma DeduplicatedKeepsFirst(bars: seq<Ohlcv>, i: nat, j: nat)
    requires i < j < |bars| && Key(bars[i]) == Key(bars[j])
    ensures Deduplicated(bars[..j + 1]) == Deduplicated(bars[..j])
  {
    var q := bars[..j + 1];
    var p := q[..|q| - 1];
    assert p == bars[..j];
    assert q[|q| - 1] == bars[j];
    assert Key(p[i]) in Keys(p);
  }

  /** The key cannot tell where the symbol ends: "BTC_USDT" on exchange "x"
      and "BTC" on exchange "USDT_x" at the same time share a key, so the
      second bar is dropped although it is a different market. */
  lemma KeyCollision(b: Ohlcv)
    requires b.symbol == "BTC_USDT" && b.exchange == "x"
    ensures Key(b.(symbol := "BTC", exchange := "USDT_x")) == Key(b)
    ensures Deduplicated([b, b.(symbol := "BTC", exchange := "USDT_x")]) == [b]
  {
    var c := b.(symbol := "BTC", exchange := "USDT_x");
    var ts := IntToString(b.timestamp);
    assert Key(c) == ts + "_" + "BTC" + "_" + "USDT_x";
    assert Key(b) == ts + "_" + "BTC_USDT" + "_" + "x";
    assert "_" + "BTC" + "_" + "USDT_x" == "_" + "BTC_USDT" + "_" + "x";
    var bars := [b, c];
    DeduplicatedKeepsFirst(bars, 0, 1);
    assert bars[..2] == bars;
    assert bars[..1] == [b];
  }

  method Deduplicate(bars: seq<Ohlcv>) returns (r: seq<Ohlcv>)
    ensures r == Deduplicated(bars)
  {
    r := [];
    var seen: set<string> := {};
    for i := 0 to |bars|
      invariant seen == Keys(bars[..i]) && r == Deduplicated(bars[..i])
    {
      assert bars[..i + 1] == bars[..i] + [bars[i]];
      KeysSnoc(bars[..i], bars[i]);
      var key := IntToString(bars[i].timestamp) + "_" + bars[i].symbol + "_" + bars[i].exchange;
      assert key == Key(bars[i]);
      if key !in seen {
        seen := seen + {key};
        r := r + [bars[i]];
      }
    }
    assert bars[..|bars|] == bars;
  }

  /** Gap filling is not implemented: every method returns the input as is. */
  function FillMissing(bars: seq<Ohlcv>, tf: Timeframe, fillMethod: string): (r: seq<Ohlcv>)
    ensures r == bars
  {
    bars
  }
}
