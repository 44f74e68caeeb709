/** The data normalizer: exchange symbols to one "BASE/QUOTE" spelling and
    back, timestamps to milliseconds, side and time-frame names to their
    enumerations, and validity checks for bars, ticks and order books. Only
    ASCII letters change case (the "C" locale). */
module Normalizer {
  import opened Types
  import Cleaners

  // ------------------------------------------------------------- characters

  predicate IsLower(c: char)
  {
    'a' <= c <= 'z'
  }

  predicate IsUpper(c: char)
  {
    'A' <= c <= 'Z'
  }

  function UpperChar(c: char): (u: char)
    ensures !IsLower(u)
    ensures IsLower(c) ==> IsUpper(u)
    ensures !IsLower(c) ==> u == c
  {
    if IsLower(c) then (c as int - 32) as char else c
  }

  function LowerChar(c: char): (l: char)
    ensures !IsUpper(l)
    ensures IsUpper(c) ==> IsLower(l)
    ensures !IsUpper(c) ==> l == c
  {
    if IsUpper(c) then (c as int + 32) as char else c
  }

  /** Lower-casing cannot tell a letter from its upper-case form. */
  lemma LowerOfUpper(c: char)
    ensures LowerChar(UpperChar(c)) == LowerChar(c)
  {
  }

  /** `std::replace` of `a` by `b`. */
  function Replaced(s: string, a: char, b: char): (r: string)
    ensures |r| == |s|
    ensures forall i :: 0 <= i < |s| ==> r[i] == if s[i] == a then b else s[i]
  {
    seq(|s|, i requires 0 <= i < |s| => if s[i] == a then b else s[i])
  }

  /** `std::transform` with `toupper`. */
  function Uppercased(s: string): (r: string)
    ensures |r| == |s|
    ensures forall i :: 0 <= i < |s| ==> r[i] == UpperChar(s[i])
  {
    seq(|s|, i requires 0 <= i < |s| => UpperChar(s[i]))
  }

  /** `std::transform` with `tolower`. */
  function Lowercased(s: string): (r: string)
    ensures |r| == |s|
    ensures forall i :: 0 <= i < |s| ==> r[i] == LowerChar(s[i])
  {
    seq(|s|, i requires 0 <= i < |s| => LowerChar(s[i]))
  }

  // ---------------------------------------------------------------- symbols

  /** The normalized symbol: '_' and '-' become '/', then ASCII letters are
      upper-cased. */
  function NormalizedSymbol(s: string): string
  {
    Uppercased(Replaced(Replaced(s, '_', '/'), '-', '/'))
  }

  /** Normalizing keeps the length, leaves no separator but '/', no lower-case
      letter, and puts a '/' exactly where the input had '_', '-' or '/'. */
  lemma NormalizedSymbolShape(s: string)
    ensures |NormalizedSymbol(s)| == |s|
    ensures forall i :: 0 <= i < |s| ==>
      var c := NormalizedSymbol(s)[i];
      c != '_' && c != '-' && !IsLower(c) && (c == '/' <==> s[i] in "_-/")
  {
  }

  /** Normalizing twice is normalizing once. */
  lemma NormalizeIdempotent(s: string)
    ensures NormalizedSymbol(NormalizedSymbol(s)) == NormalizedSymbol(s)
  {
    var n := NormalizedSymbol(s);
    NormalizedSymbolShape(s);
    assert forall i :: 0 <= i < |n| ==> NormalizedSymbol(n)[i] == n[i];
  }

  lemma NormalizeExample()
    ensures NormalizedSymbol("btc_usdt") == "BTC/USDT"
    ensures NormalizedSymbol("eth-btc") == "ETH/BTC"
  {
    assert NormalizedSymbol("btc_usdt") == "BTC/USDT" by {
      var n := NormalizedSymbol("btc_usdt");
      assert |n| == 8;
      assert forall i :: 0 <= i < 8 ==> n[i] == "BTC/USDT"[i];
    }
    assert NormalizedSymbol("eth-btc") == "ETH/BTC" by {
      var n := NormalizedSymbol("eth-btc");
      assert |n| == 7;
      assert forall i :: 0 <= i < 7 ==> n[i] == "ETH/BTC"[i];
    }
  }

  /** One in-place pass of `std::replace`. */
  method ReplaceAll(s: string, a: char, b: char) returns (r: string)
    ensures r == Replaced(s, a, b)
  {
    r := s;
    for i := 0 to |r|
      invariant |r| == |s|
      invariant forall k :: 0 <= k < i ==> r[k] == if s[k] == a then b else s[k]
      invariant forall k :: i <= k < |s| ==> r[k] == s[k]
    {
      if r[i] == a {
        r := r[i := b];
      }
    }
  }

  /** One in-place pass of `std::transform` with `toupper`. */
  method ToUpper(s: string) returns (r: string)
    ensures r == Uppercased(s)
  {
    r := s;
    for i := 0 to |r|
      invariant |r| == |s|
      invariant forall k :: 0 <= k < i ==> r[k] == UpperChar(s[k])
      invariant forall k :: i <= k < |s| ==> r[k] == s[k]
    {
      r := r[i := UpperChar(r[i])];
    }
  }

  /** The exchange plays no part. */
  method NormalizeSymbol(symbol: string, exchange: string) returns (r: string)
    ensures r == NormalizedSymbol(symbol)
  {
    r := ReplaceAll(symbol, '_', '/');
    r := ReplaceAll(r, '-', '/');
    r := ToUpper(r);
  }

  /** `s` with every '/' removed, order kept. */
  function WithoutSlashes(s: string): (r: string)
    ensures |r| <= |s|
    ensures forall i :: 0 <= i < |r| ==> r[i] != '/'
    ensures (forall i :: 0 <= i < |s| ==> s[i] != '/') ==> r == s
  {
    if |s| == 0 then []
    else
      var p := s[..|s| - 1];
      assert forall i :: 0 <= i < |p| ==> p[i] == s[i];
      assert p + [s[|s| - 1]] == s;
      WithoutSlashes(p) + (if s[|s| - 1] == '/' then [] else [s[|s| - 1]])
  }

  /** Binance spells symbols without a separator; every other exchange gets the
      normalized form back unchanged. */
  function DenormalizedSymbol(s: string, exchange: string): (r: string)
    ensures exchange != "binance" ==> r == s
    ensures exchange == "binance" ==> r == WithoutSlashes(s)
  {
    if exchange == "binance" then WithoutSlashes(s) else s
  }

  lemma DenormalizeExample()
    ensures DenormalizedSymbol("BTC/USDT", "binance") == "BTCUSDT"
    ensures DenormalizedSymbol("BTC/USDT", "okx") == "BTC/USDT"
  {
    var s := "BTC/USDT";
    assert s[..7][..6] == s[..6] && s[..6][..5] == s[..5] && s[..5][..4] == s[..4];
    assert s[..4][..3] == s[..3] && s[..3][..2] == s[..2] && s[..2][..1] == s[..1];
    assert WithoutSlashes(s[..1]) == "B";
    assert WithoutSlashes(s[..2]) == "BT";
    assert WithoutSlashes(s[..3]) == "BTC";
    assert WithoutSlashes(s[..4]) == "BTC";
    assert WithoutSlashes(s[..5]) == "BTCU";
    assert WithoutSlashes(s[..6]) == "BTCUS";
    assert WithoutSlashes(s[..7]) == "BTCUSD";
    assert s[..|s| - 1] == s[..7];
  }

  /** `erase(remove(...))` of '/', as one in-place compaction pass. */
  method RemoveSlashes(s: string) returns (r: string)
    ensures r == WithoutSlashes(s)
  {
    r := [];
    for i := 0 to |s|
      invariant r == WithoutSlashes(s[..i])
    {
      assert s[..i + 1][..i] == s[..i];
      if s[i] != '/' {
        r := r + [s[i]];
      }
    }
    assert s[..|s|] == s;
  }

  method DenormalizeSymbol(normalized: string, exchange: string) returns (r: string)
    ensures r == DenormalizedSymbol(normalized, exchange)
  {
    r := normalized;
    if exchange == "binance" {
      r := RemoveSlashes(r);
    }
  }

  // ------------------------------------------------------------- timestamps

  /** C++ integer division, which truncates toward zero (`d > 0`). */
  function TruncDiv(a: int, d: int): (q: int)
    requires d > 0
    ensures a >= 0 ==> q * d <= a < q * d + d
    ensures a < 0 ==> q * d - d < a <= q * d
  {
    if a >= 0 then a / d else -((-a) / d)
  }

  /** Milliseconds from seconds ("s"), microseconds ("us") or nanoseconds
      ("ns"); any other unit is taken to be milliseconds already. */
  function NormalizeTimestamp(ts: int, unit: string): (ms: int)
    ensures unit == "s" ==> ms == ts * 1000
    ensures unit == "us" ==> ms == TruncDiv(ts, 1000)
    ensures unit == "ns" ==> ms == TruncDiv(ts, 1000000)
    ensures unit != "s" && unit != "us" && unit != "ns" ==> ms == ts
  {
    if unit == "s" then ts * 1000
    else if unit == "us" then TruncDiv(ts, 1000)
    else if unit == "ns" then TruncDiv(ts, 1000000)
    else ts
  }

  /** A whole number of milliseconds survives the trip to a finer unit and back. */
  lemma TimestampRoundTrip(ms: int)
    ensures NormalizeTimestamp(ms * 1000, "us") == ms
    ensures NormalizeTimestamp(ms * 1000000, "ns") == ms
  {
    if ms < 0 {
      assert -(ms * 1000) == (-ms) * 1000;
      assert -(ms * 1000000) == (-ms) * 1000000;
    }
  }

  /** Division truncates toward zero: −1500 µs is −1 ms, not −2. */
  lemma NegativeTimestampTruncates()
    ensures NormalizeTimestamp(-1500, "us") == -1
  {
  }

  // ------------------------------------------------------------ side, frame

  /** Case-insensitive: "buy" or "bid" is a buy, "sell" or "ask" a sell. */
  function NormalizeSide(s: string): (side: Side)
    ensures side == Buy <==> Lowercased(s) == "buy" || Lowercased(s) == "bid"
    ensures side == Sell <==> Lowercased(s) == "sell" || Lowercased(s) == "ask"
  {
    var lower := Lowercased(s);
    if lower == "buy" || lower == "bid" then Buy
    else if lower == "sell" || lower == "ask" then Sell
    else Unknown
  }

  /** Upper-casing the input does not change the side it names. */
  lemma NormalizeSideIgnoresCase(s: string)
    ensures NormalizeSide(Uppercased(s)) == NormalizeSide(s)
  {
    forall i | 0 <= i < |s|
      ensures Lowercased(Uppercased(s))[i] == Lowercased(s)[i]
    {
      LowerOfUpper(s[i]);
    }
    assert Lowercased(Uppercased(s)) == Lowercased(s);
  }

  lemma NormalizeSideExamples()
    ensures NormalizeSide("BUY") == Buy && NormalizeSide("Ask") == Sell
    ensures NormalizeSide("long") == Unknown
  {
    assert Lowercased("BUY") == "buy";
    assert Lowercased("Ask") == "ask";
    assert Lowercased("long")[0] == 'l';
  }

  /** The exchange plays no part: the time-frame table decides. */
  function NormalizeTimeframe(s: string, exchange: string): (tf: Timeframe)
    ensures IsTimeframeName(s) ==> TimeframeToString(tf) == s
    ensures !IsTimeframeName(s) ==> tf == Minute1
  {
    NameParsesToItselfWhenNamed(s);
    StringToTimeframe(s)
  }

  lemma NameParsesToItselfWhenNamed(s: string)
    ensures IsTimeframeName(s) ==> TimeframeToString(StringToTimeframe(s)) == s
  {
    if IsTimeframeName(s) {
      NameParsesToItself(s);
    }
  }

  // ------------------------------------------------------------- validation

  /** A bar is valid iff its timestamp is positive, its prices are positive,
      its volume is not negative and its OHLC prices are consistent. */
  function ValidateOhlcv(b: Ohlcv): (ok: bool)
    ensures ok <==> b.timestamp > 0 && Cleaners.PricesPositive(b) && b.volume >= 0.0 && Cleaners.OhlcConsistent(b)
  {
    if b.timestamp <= 0 then false
    else if b.open <= 0.0 || b.high <= 0.0 || b.low <= 0.0 || b.close <= 0.0 then false
    else if b.volume < 0.0 then false
    else if b.high < b.low then false
    else if b.high < b.open || b.high < b.close then false
    else if b.low > b.open || b.low > b.close then false
    else true
  }

  /** A valid bar passes the rules a new cleaner starts with. */
  lemma ValidBarIsClean(b: Ohlcv)
    requires ValidateOhlcv(b)
    ensures Cleaners.CleanSpec([Cleaners.PriceValidity, Cleaners.OhlcRelation], b).0 == Good
  {
  }

  /** A tick is valid iff the cleaner rates it GOOD. */
  function ValidateTick(t: Tick): (ok: bool)
    ensures ok <==> Cleaners.CleanTick(t) == Good
  {
    if t.timestamp <= 0 then false
    else if t.price <= 0.0 then false
    else if t.volume < 0.0 then false
    else true
  }

  predicate BidsDescending(levels: seq<OrderBookLevel>)
  {
    forall i :: 1 <= i < |levels| ==> levels[i].price <= levels[i - 1].price
  }

  predicate AsksAscending(levels: seq<OrderBookLevel>)
  {
    forall i :: 1 <= i < |levels| ==> levels[i].price >= levels[i - 1].price
  }

  /** Both sides present, bids non-increasing, asks non-decreasing, and the best
      bid below the best ask. */
  predicate OrderbookValid(ob: OrderBook)
  {
    ob.timestamp > 0 && |ob.bids| > 0 && |ob.asks| > 0 &&
    BidsDescending(ob.bids) && AsksAscending(ob.asks) &&
    ob.bids[0].price < ob.asks[0].price
  }

  /** Checking neighbours orders a whole side. */
  lemma {:induction false} DescendingIsSorted(levels: seq<OrderBookLevel>, i: int, j: int)
    requires BidsDescending(levels) && 0 <= i <= j < |levels|
    ensures levels[j].price <= levels[i].price
    decreases j - i
  {
    if i < j {
      DescendingIsSorted(levels, i, j - 1);
    }
  }

  lemma {:induction false} AscendingIsSorted(levels: seq<OrderBookLevel>, i: int, j: int)
    requires AsksAscending(levels) && 0 <= i <= j < |levels|
    ensures levels[i].price <= levels[j].price
    decreases j - i
  {
    if i < j {
      AscendingIsSorted(levels, i, j - 1);
    }
  }

  /** In a valid book every bid is below every ask, and the cleaner rates it GOOD. */
  lemma ValidBookIsUncrossed(ob: OrderBook, i: int, j: int)
    requires OrderbookValid(ob) && 0 <= i < |ob.bids| && 0 <= j < |ob.asks|
    ensures ob.bids[i].price < ob.asks[j].price
    ensures Cleaners.CleanOrderbook(ob) == Good
  {
    DescendingIsSorted(ob.bids, 0, i);
    AscendingIsSorted(ob.asks, 0, j);
  }

  method ValidateOrderbook(ob: OrderBook) returns (ok: bool)
    ensures ok == OrderbookValid(ob)
  {
    if ob.timestamp <= 0 {
      return false;
    }
    if |ob.bids| == 0 || |ob.asks| == 0 {
      return false;
    }
    for i := 1 to |ob.bids|
      invariant forall k :: 1 <= k < i ==> ob.bids[k].price <= ob.bids[k - 1].price
    {
      if ob.bids[i].price > ob.bids[i - 1].price {
        return false;
      }
    }
    for i := 1 to |ob.asks|
      invariant forall k :: 1 <= k < i ==> ob.asks[k].price >= ob.asks[k - 1].price
    {
      if ob.asks[i].price < ob.asks[i - 1].price {
        return false;
      }
    }
    if ob.bids[0].price >= ob.asks[0].price {
      return false;
    }
    return true;
  }
}
