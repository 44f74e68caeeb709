/** The strategy ledger shared by every strategy: one position, the cash
    balance, the capital the run started with and the trades recorded so far.
    The pure functions over `Ledger` say what each operation does; the class
    `StrategyBase` holds the same state in fields and is proved against them. */
module Strategy {
  import T = Types

  /** A strategy's recommendation for the current bar: exactly four values. */
  datatype Signal = Buy | Sell | Hold | None

  datatype Position = Position(
    symbol: string,
    quantity: real,
    avgPrice: real,
    currentPrice: real,
    unrealizedPnl: real)
  {
    /** Any non-zero quantity is a position, a negative one included. */
    predicate HasPosition()
    {
      quantity != 0.0
    }
  }

  /** The flat position the default constructor builds. */
  function DefaultPosition(): (p: Position)
    ensures p.symbol == "" && p.quantity == 0.0 && p.avgPrice == 0.0
    ensures p.currentPrice == 0.0 && p.unrealizedPnl == 0.0
    ensures !p.HasPosition()
  {
    Position("", 0.0, 0.0, 0.0, 0.0)
  }

  datatype Trade = Trade(
    timestamp: int,
    symbol: string,
    signal: Signal,
    price: real,
    quantity: real,
    pnl: real)

  /** The empty trade the default constructor builds. */
  function DefaultTrade(): (t: Trade)
    ensures t.timestamp == 0 && t.symbol == "" && t.signal == None
    ensures t.price == 0.0 && t.quantity == 0.0 && t.pnl == 0.0
  {
    Trade(0, "", None, 0.0, 0.0, 0.0)
  }

  /** A snapshot of the ledger fields of a strategy. */
  datatype Ledger = Ledger(
    position: Position,
    capital: real,
    initialCapital: real,
    trades: seq<Trade>)

  /** Cash plus the market value of the position at its last marked price. */
  function Equity(l: Ledger): (e: real)
    ensures !l.position.HasPosition() ==> e == l.capital
  {
    if l.position.HasPosition() then l.capital + l.position.quantity * l.position.currentPrice
    else l.capital
  }

  /** Percentage return on the initial capital; 0 when there is no initial capital. */
  function TotalReturn(l: Ledger): (r: real)
    ensures l.initialCapital == 0.0 ==> r == 0.0
    ensures l.initialCapital != 0.0 ==> r * l.initialCapital == (Equity(l) - l.initialCapital) * 100.0
    ensures l.initialCapital > 0.0 ==> (r > 0.0 <==> Equity(l) > l.initialCapital)
  {
    if l.initialCapital == 0.0 then 0.0
    else (Equity(l) - l.initialCapital) / l.initialCapital * 100.0
  }

  /** Starting a run: both capitals become `c`; the position and the trades are kept. */
  function Initialized(l: Ledger, c: real): (r: Ledger)
    ensures r.capital == c && r.initialCapital == c
    ensures r.position == l.position && r.trades == l.trades
    ensures !l.position.HasPosition() ==> Equity(r) == c && TotalReturn(r) == 0.0
  {
    l.(capital := c, initialCapital := c)
  }

  /** Opening a position: refused (no change) while one is held; otherwise the
      position takes the inputs and the cost `quantity·price` leaves the cash. */
  function Open(l: Ledger, symbol: string, quantity: real, price: real): (r: Ledger)
    ensures l.position.HasPosition() ==> r == l
    ensures !l.position.HasPosition() ==>
      r.position == Position(symbol, quantity, price, price, 0.0) &&
      r.capital == l.capital - quantity * price &&
      r.initialCapital == l.initialCapital && r.trades == l.trades
  {
    if l.position.HasPosition() then l
    else l.(position := Position(symbol, quantity, price, price, 0.0),
            capital := l.capital - quantity * price)
  }

  /** Closing the position at `price`: the result pairs the new ledger with the
      realised P&L. Flat: nothing changes and the P&L is 0. Otherwise the sale
      proceeds `price·quantity` return to the cash and the position is zeroed,
      keeping only its symbol. */
  function Close(l: Ledger, price: real): (r: (Ledger, real))
    ensures !l.position.HasPosition() ==> r == (l, 0.0)
    ensures l.position.HasPosition() ==>
      r.1 == (price - l.position.avgPrice) * l.position.quantity &&
      r.0.capital == l.capital + price * l.position.quantity &&
      r.0.position == DefaultPosition().(symbol := l.position.symbol) &&
      r.0.initialCapital == l.initialCapital && r.0.trades == l.trades
    ensures !r.0.position.HasPosition()
  {
    if !l.position.HasPosition() then (l, 0.0)
    else
      var p := l.position;
      (l.(capital := l.capital + price * p.quantity,
          position := p.(quantity := 0.0, avgPrice := 0.0, currentPrice := 0.0, unrealizedPnl := 0.0)),
       (price - p.avgPrice) * p.quantity)
  }

  /** Marking the position to `price`: the current price always changes, the
      unrealised P&L only while a position is held. */
  function MarkPrice(l: Ledger, price: real): (r: Ledger)
    ensures r.position.currentPrice == price
    ensures r.position.HasPosition() == l.position.HasPosition()
    ensures l.position.HasPosition() ==>
      r.position.unrealizedPnl == (price - l.position.avgPrice) * l.position.quantity
    ensures !l.position.HasPosition() ==> r.position.unrealizedPnl == l.position.unrealizedPnl
    ensures r.capital == l.capital && r.initialCapital == l.initialCapital && r.trades == l.trades
    ensures r.position.symbol == l.position.symbol && r.position.quantity == l.position.quantity
    ensures r.position.avgPrice == l.position.avgPrice
  {
    var p := l.position.(currentPrice := price);
    l.(position := if p.HasPosition() then p.(unrealizedPnl := (price - p.avgPrice) * p.quantity) else p)
  }

  /** Opening from flat holds a position exactly when the quantity is non-zero,
      a negative quantity included; a quantity of 0 leaves the ledger flat. */
  lemma OpenedIsHeld(l: Ledger, symbol: string, quantity: real, price: real)
    requires !l.position.HasPosition()
    ensures Open(l, symbol, quantity, price).position.HasPosition() <==> quantity != 0.0
    ensures quantity < 0.0 ==> Open(l, symbol, quantity, price).position.HasPosition()
  {
  }

  /** Recording a trade appends it and changes nothing else. */
  function WithTrade(l: Ledger, t: Trade): (r: Ledger)
    ensures r.trades == l.trades + [t] && |r.trades| == |l.trades| + 1
    ensures r.position == l.position && r.capital == l.capital && r.initialCapital == l.initialCapital
  {
    l.(trades := l.trades + [t])
  }

  /** Opening a position while flat does not change the equity: the cash spent
      is exactly the market value of what was bought. */
  lemma OpenPreservesEquity(l: Ledger, symbol: string, quantity: real, price: real)
    ensures Equity(Open(l, symbol, quantity, price)) == Equity(l)
  {
  }

  /** Closing at the price the position is marked at does not change the equity. */
  lemma CloseAtMarkPreservesEquity(l: Ledger, price: real)
    requires l.position.HasPosition() && l.position.currentPrice == price
    ensures Equity(Close(l, price).0) == Equity(l)
  {
  }

  /** Round trip: opening while flat and closing later changes the cash by
      exactly the P&L the close returns, which is the price move times the
      quantity; the position is flat again afterwards. */
  lemma OpenCloseRoundTrip(l: Ledger, symbol: string, quantity: real, buy: real, sell: real)
    requires !l.position.HasPosition() && quantity != 0.0
    ensures Close(Open(l, symbol, quantity, buy), sell).0.capital
         == l.capital + Close(Open(l, symbol, quantity, buy), sell).1
    ensures Close(Open(l, symbol, quantity, buy), sell).1 == (sell - buy) * quantity
    ensures !Close(Open(l, symbol, quantity, buy), sell).0.position.HasPosition()
  {
    var o := Open(l, symbol, quantity, buy);
    assert o.capital == l.capital - quantity * buy;
    var c := Close(o, sell);
    assert c.0.capital == o.capital + sell * quantity;
    assert c.1 == (sell - buy) * quantity;
  }

  /** While a position is held, the equity at its marked price is the cash it
      was opened from plus its unrealised P&L. */
  lemma MarkedEquityIsCostPlusUnrealized(l: Ledger, symbol: string, quantity: real, buy: real, mark: real)
    requires !l.position.HasPosition() && quantity != 0.0
    ensures Equity(MarkPrice(Open(l, symbol, quantity, buy), mark))
         == Equity(l) + MarkPrice(Open(l, symbol, quantity, buy), mark).position.unrealizedPnl
  {
    var o := Open(l, symbol, quantity, buy);
    var m := MarkPrice(o, mark);
    assert m.position.unrealizedPnl == (mark - buy) * quantity;
    assert Equity(m) == l.capital - quantity * buy + quantity * mark;
  }

  /** The ledger part of a strategy object. */
  class StrategyBase {
    var position: Position
    var capital: real
    var initialCapital: real
    var trades: seq<Trade>

    /** The fields as a value. */
    function State(): Ledger
      reads this
    {
      Ledger(position, capital, initialCapital, trades)
    }

    /** A new ledger is flat with no trades; its capitals stay unspecified until `OnInit`. */
    constructor ()
      ensures position == DefaultPosition() && trades == []
    {
      position := DefaultPosition();
      trades := [];
    }

    method OnInit(initial: real)
      modifies this
      ensures State() == Initialized(old(State()), initial)
    {
      capital := initial;
      initialCapital := initial;
    }

    method OpenPosition(symbol: string, quantity: real, price: real)
      modifies this
      ensures State() == Open(old(State()), symbol, quantity, price)
    {
      if position.HasPosition() {
        return;
      }
      position := Position(symbol, quantity, price, price, 0.0);
      capital := capital - quantity * price;
    }

    method ClosePosition(price: real) returns (pnl: real)
      modifies this
      ensures (State(), pnl) == Close(old(State()), price)
    {
      ghost var before := State();
      if !position.HasPosition() {
        assert Close(before, price) == (before, 0.0);
        return 0.0;
      }
      var p := position;
      pnl := (price - p.avgPrice) * p.quantity;
      capital := capital + price * p.quantity;
      position := p.(quantity := 0.0, avgPrice := 0.0, currentPrice := 0.0, unrealizedPnl := 0.0);
      ghost var closed := Close(before, price);
      assert closed.1 == pnl;
      assert closed.0 == State();
    }

    method UpdatePositionPrice(price: real)
      modifies this
      ensures State() == MarkPrice(old(State()), price)
    {
      position := position.(currentPrice := price);
      if position.HasPosition() {
        position := position.(unrealizedPnl := (price - position.avgPrice) * position.quantity);
      }
    }

    method AddTrade(t: Trade)
      modifies this
      ensures State() == WithTrade(old(State()), t)
    {
      trades := trades + [t];
    }

    method GetTotalEquity() returns (e: real)
      ensures e == Equity(State())
    {
      e := capital;
      if position.HasPosition() {
        e := e + position.quantity * position.currentPrice;
      }
    }

    method GetTotalReturn() returns (r: real)
      ensures r == TotalReturn(State())
    {
      if initialCapital == 0.0 {
        return 0.0;
      }
      var e := GetTotalEquity();
      r := (e - initialCapital) / initialCapital * 100.0;
    }
  }
}
