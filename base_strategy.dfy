/** The position ledger of a strategy: cash, open positions keyed by symbol and
    the append-only trade log, with the trade-execution rule, the valuation and
    the performance metrics. The functions here are the specification of the
    strategy object's methods (see SmaCrossover.SmaCrossoverStrategy); they are
    generic in the sizing rule, which enters as the `quantity` argument. */
module BaseStrategy {
  import opened Wrappers

  datatype Signal = Buy | Sell | Hold {
    /** The enumeration's string value. */
    function Value(): string {
      match this
      case Buy => "buy"
      case Sell => "sell"
      case Hold => "hold"
    }
  }

  /** A recorded trade; `timestamp` is the bar's timestamp. */
  datatype Trade = Trade(timestamp: int, signal: Signal, price: real, quantity: real, reason: string)

  /** An open holding in one symbol, with average cost basis `entryPrice`. */
  datatype Position = Position(symbol: string, quantity: real, entryPrice: real, entryTime: int,
                               currentPrice: real, unrealizedPnl: real)

  /** `Position.update_price`: records a fresh market price and the mark-to-market profit. */
  function UpdatePrice(p: Position, price: real): (r: Position)
    ensures r.currentPrice == price
    ensures r.unrealizedPnl == (price - p.entryPrice) * p.quantity
    ensures r.symbol == p.symbol && r.quantity == p.quantity
    ensures r.entryPrice == p.entryPrice && r.entryTime == p.entryTime
  {
    p.(currentPrice := price, unrealizedPnl := (price - p.entryPrice) * p.quantity)
  }

  /** Every stored position is keyed by its own symbol and holds a positive quantity. */
  ghost predicate PositionsValid(m: map<string, Position>) {
    forall s :: s in m ==> m[s].quantity > 0.0 && m[s].symbol == s
  }

  /** The state `execute_trade` reads and writes: cash, positions and trade log. */
  datatype Book = Book(balance: real, positions: map<string, Position>, trades: seq<Trade>)

  /** What `execute_trade` leaves behind and what it returns. */
  datatype Execution = Execution(book: Book, trade: Option<Trade>)

  function Min(a: real, b: real): real {
    if a <= b then a else b
  }

  /** The trade's `reason` text. */
  const BuyReason: string := "Signal: buy"
  const SellReason: string := "Signal: sell"
  const HoldReason: string := "Signal: hold"

  /** The reason recorded with a trade, the f-string "Signal: {signal.value}". */
  function Reason(signal: Signal): (r: string)
    ensures r == "Signal: " + signal.Value()
  {
    match signal
    case Buy => BuyReason
    case Sell => SellReason
    case Hold => HoldReason
  }

  /** The cost-basis average after buying `quantity` more at `price`. */
  function AverageEntry(existing: Position, quantity: real, price: real): (avg: real)
    requires existing.quantity > 0.0 && quantity > 0.0
    ensures avg * (existing.quantity + quantity) == existing.entryPrice * existing.quantity + price * quantity
  {
    (existing.entryPrice * existing.quantity + price * quantity) / (existing.quantity + quantity)
  }

  /** `execute_trade` for a sizing result `quantity`. A HOLD or a quantity <= 0 does
      nothing. A BUY that costs more than the balance is still logged. A SELL is
      clamped to the held quantity, and a SELL with no position is logged with the
      requested quantity. */
  function Execute(b: Book, signal: Signal, quantity: real, price: real, timestamp: int, symbol: string): (r: Execution)
    requires PositionsValid(b.positions)
    ensures PositionsValid(r.book.positions)
  {
    if signal == Hold || quantity <= 0.0 then Execution(b, None)
    else
      var trade := Trade(timestamp, signal, price, quantity, Reason(signal));
      if signal == Buy then
        var cost := price * quantity;
        if cost <= b.balance then
          var pos :=
            if symbol in b.positions then
              var existing := b.positions[symbol];
              Position(symbol, existing.quantity + quantity, AverageEntry(existing, quantity, price),
                       existing.entryTime, price, 0.0)
            else
              Position(symbol, quantity, price, timestamp, price, 0.0);
          Execution(Book(b.balance - cost, b.positions[symbol := pos], b.trades + [trade]), Some(trade))
        else
          Execution(b.(trades := b.trades + [trade]), Some(trade))
      else if symbol in b.positions then
        var position := b.positions[symbol];
        var sellQuantity := Min(quantity, position.quantity);
        var left := position.quantity - sellQuantity;
        var positions := if left <= 0.0 then b.positions - {symbol}
                         else b.positions[symbol := position.(quantity := left)];
        var filled := trade.(quantity := sellQuantity);
        Execution(Book(b.balance + price * sellQuantity, positions, b.trades + [filled]), Some(filled))
      else
        Execution(b.(trades := b.trades + [trade]), Some(trade))
  }

  // ---------------------------------------------------------------------------
  // Properties of the execution rule, for every sizing result.

  /** A HOLD, or a sizing result <= 0, returns None and changes nothing. */
  lemma ExecuteNoTrade(b: Book, signal: Signal, quantity: real, price: real, timestamp: int, symbol: string)
    requires PositionsValid(b.positions)
    requires signal == Hold || quantity <= 0.0
    ensures Execute(b, signal, quantity, price, timestamp, symbol) == Execution(b, None)
  {
  }

  /** Every call either changes nothing and returns None, or appends exactly the
      returned trade to the log. */
  lemma ExecuteAppendsReturnedTrade(b: Book, signal: Signal, quantity: real, price: real, timestamp: int, symbol: string)
    requires PositionsValid(b.positions)
    ensures var r := Execute(b, signal, quantity, price, timestamp, symbol);
            (r.trade.None? <==> signal == Hold || quantity <= 0.0) &&
            (r.trade.None? ==> r.book == b) &&
            (r.trade.Some? ==> r.book.trades == b.trades + [r.trade.value] &&
                               r.trade.value.signal == signal && r.trade.value.price == price &&
                               r.trade.value.timestamp == timestamp)
  {
  }

  /** An affordable BUY debits exactly its cost, adds the quantity to the symbol's
      position, averages the entry price, keeps the first entry time, resets the
      unrealized P&L to 0 and leaves every other symbol alone. */
  lemma AffordableBuy(b: Book, quantity: real, price: real, timestamp: int, symbol: string)
    requires PositionsValid(b.positions)
    requires quantity > 0.0 && price * quantity <= b.balance
    ensures var r := Execute(b, Buy, quantity, price, timestamp, symbol);
            var p := r.book.positions[symbol];
            && symbol in r.book.positions
            && r.book.balance == b.balance - price * quantity
            && r.trade == Some(Trade(timestamp, Buy, price, quantity, Reason(Buy)))
            && r.book.positions.Keys == b.positions.Keys + {symbol}
            && (forall s :: s in b.positions && s != symbol ==> r.book.positions[s] == b.positions[s])
            && p.currentPrice == price
            && p.unrealizedPnl == 0.0
            && (symbol !in b.positions ==>
                  p.quantity == quantity && p.entryPrice == price && p.entryTime == timestamp)
            && (symbol in b.positions ==>
                  var prior := b.positions[symbol];
                  && p.quantity == prior.quantity + quantity
                  && p.entryPrice * (prior.quantity + quantity) == prior.entryPrice * prior.quantity + price * quantity
                  && p.entryTime == prior.entryTime)
  {
    var r := Execute(b, Buy, quantity, price, timestamp, symbol);
    if symbol in b.positions {
      assert r.book.positions[symbol].entryPrice == AverageEntry(b.positions[symbol], quantity, price);
    }
  }

  /** An unaffordable BUY changes neither cash nor positions, yet is logged with
      the requested quantity. */
  lemma UnaffordableBuy(b: Book, quantity: real, price: real, timestamp: int, symbol: string)
    requires PositionsValid(b.positions)
    requires quantity > 0.0 && price * quantity > b.balance
    ensures var r := Execute(b, Buy, quantity, price, timestamp, symbol);
            && r.trade == Some(Trade(timestamp, Buy, price, quantity, Reason(Buy)))
            && r.book == b.(trades := b.trades + [r.trade.value])
  {
  }

  /** A SELL against a position sells min(requested, held): cash rises by the
      proceeds, the holding falls by the same amount and disappears at zero, and
      the logged quantity is the clamped one. */
  lemma SellFromPosition(b: Book, quantity: real, price: real, timestamp: int, symbol: string)
    requires PositionsValid(b.positions)
    requires quantity > 0.0 && symbol in b.positions
    ensures var r := Execute(b, Sell, quantity, price, timestamp, symbol);
            var held := b.positions[symbol].quantity;
            var sold := if quantity <= held then quantity else held;
            && r.trade == Some(Trade(timestamp, Sell, price, sold, Reason(Sell)))
            && r.book.balance == b.balance + price * sold
            && r.book.trades == b.trades + [r.trade.value]
            && (quantity >= held <==> symbol !in r.book.positions)
            && (quantity < held ==> r.book.positions[symbol] == b.positions[symbol].(quantity := held - quantity))
            && (forall s :: s != symbol ==> (s in r.book.positions <==> s in b.positions))
            && (forall s :: s in b.positions && s != symbol ==> r.book.positions[s] == b.positions[s])
  {
  }

  /** A SELL with no position is logged with the un-clamped requested quantity and
      changes neither cash nor positions. */
  lemma SellWithoutPosition(b: Book, quantity: real, price: real, timestamp: int, symbol: string)
    requires PositionsValid(b.positions)
    requires quantity > 0.0 && symbol !in b.positions
    ensures var r := Execute(b, Sell, quantity, price, timestamp, symbol);
            && r.trade == Some(Trade(timestamp, Sell, price, quantity, Reason(Sell)))
            && r.book == b.(trades := b.trades + [r.trade.value])
  {
  }

  // ---------------------------------------------------------------------------
  // Sums over the positions map, independent of iteration order.

  /** The sum of `f` over the positions whose symbols are in `keys`. */
  ghost function SumKeys(keys: set<string>, m: map<string, Position>, f: (string, Position) -> real): real
    requires keys <= m.Keys
    decreases keys
  {
    if keys == {} then 0.0
    else
      var k :| k in keys;
      f(k, m[k]) + SumKeys(keys - {k}, m, f)
  }

  /** Any symbol can be taken out of the sum first: the order of the dictionary's
      iteration does not matter. */
  lemma {:induction false} SumKeysRemove(keys: set<string>, m: map<string, Position>, f: (string, Position) -> real, k: string)
    requires keys <= m.Keys && k in keys
    ensures SumKeys(keys, m, f) == f(k, m[k]) + SumKeys(keys - {k}, m, f)
    decreases keys
  {
    var j :| j in keys && SumKeys(keys, m, f) == f(j, m[j]) + SumKeys(keys - {j}, m, f);
    if j != k {
      SumKeysRemove(keys - {j}, m, f, k);
      SumKeysRemove(keys - {k}, m, f, j);
      assert keys - {j} - {k} == keys - {k} - {j};
    }
  }

  /** Sums of pointwise equal terms are equal, even over different maps. */
  lemma {:induction false} SumKeysCongruent(keys: set<string>, m: map<string, Position>, f: (string, Position) -> real,
                                            m': map<string, Position>, g: (string, Position) -> real)
    requires keys <= m.Keys && keys <= m'.Keys
    requires forall s :: s in keys ==> f(s, m[s]) == g(s, m'[s])
    ensures SumKeys(keys, m, f) == SumKeys(keys, m', g)
    decreases keys
  {
    if keys != {} {
      var k :| k in keys;
      SumKeysRemove(keys, m, f, k);
      SumKeysRemove(keys, m', g, k);
      SumKeysCongruent(keys - {k}, m, f, m', g);
    }
  }

  /** What one position adds to the portfolio value: quantity times price when
      its symbol is priced, nothing otherwise. */
  function Priced(prices: map<string, real>, s: string, p: Position): real {
    if s in prices then p.quantity * prices[s] else 0.0
  }

  lemma PricedWhenPriced(prices: map<string, real>, s: string, p: Position)
    requires s in prices
    ensures Priced(prices, s, p) == p.quantity * prices[s]
  {
  }

  function PricedTerm(prices: map<string, real>): (string, Position) -> real {
    (s: string, p: Position) => Priced(prices, s, p)
  }

  /** The market value of the priced positions. */
  ghost function PricedValue(m: map<string, Position>, prices: map<string, real>): real {
    SumKeys(m.Keys, m, PricedTerm(prices))
  }

  /** The positions after `update_price` on every priced one. */
  function Refresh(m: map<string, Position>, prices: map<string, real>): (r: map<string, Position>)
    ensures r.Keys == m.Keys
    ensures forall s :: s in m ==> r[s] == if s in prices then UpdatePrice(m[s], prices[s]) else m[s]
    ensures PositionsValid(m) ==> PositionsValid(r)
  {
    map s | s in m :: if s in prices then UpdatePrice(m[s], prices[s]) else m[s]
  }

  /** The positions part-way through the valuation loop: those still `pending`
      keep their old price. */
  ghost function PartialRefresh(m: map<string, Position>, prices: map<string, real>, pending: set<string>): map<string, Position> {
    map s | s in m :: if s in pending || s !in prices then m[s] else UpdatePrice(m[s], prices[s])
  }

  /** Visiting one pending symbol refreshes just that entry. */
  lemma PartialRefreshStep(m: map<string, Position>, prices: map<string, real>, pending: set<string>, k: string)
    requires k in pending && pending <= m.Keys
    ensures PartialRefresh(m, prices, pending - {k}) ==
            if k in prices then PartialRefresh(m, prices, pending)[k := UpdatePrice(m[k], prices[k])]
            else PartialRefresh(m, prices, pending)
  {
    var after := PartialRefresh(m, prices, pending - {k});
    var before := PartialRefresh(m, prices, pending);
    var expected := if k in prices then before[k := UpdatePrice(m[k], prices[k])] else before;
    assert after.Keys == expected.Keys;
    forall s | s in after ensures after[s] == expected[s] {
    }
  }

  /** With nothing pending, the partial refresh is the full one. */
  lemma PartialRefreshDone(m: map<string, Position>, prices: map<string, real>)
    ensures PartialRefresh(m, prices, {}) == Refresh(m, prices)
  {
    assert PartialRefresh(m, prices, {}).Keys == Refresh(m, prices).Keys;
  }

  /** An unpriced position leaves the portfolio value as it would be without it. */
  lemma UnpricedAddsNothing(m: map<string, Position>, prices: map<string, real>, s: string)
    requires s in m && s !in prices
    ensures PricedValue(m, prices) == PricedValue(m - {s}, prices)
  {
    SumKeysRemove(m.Keys, m, PricedTerm(prices), s);
    assert (m - {s}).Keys == m.Keys - {s};
    SumKeysCongruent(m.Keys - {s}, m, PricedTerm(prices), m - {s}, PricedTerm(prices));
  }

  /** A ledger holding one symbol at most is worth cash plus that holding at its price. */
  lemma PricedValueSingle(m: map<string, Position>, symbol: string, price: real)
    requires m.Keys <= {symbol}
    ensures PricedValue(m, map[symbol := price]) ==
            if symbol in m then m[symbol].quantity * price else 0.0
  {
    if symbol in m {
      SumKeysRemove(m.Keys, m, PricedTerm(map[symbol := price]), symbol);
      assert m.Keys - {symbol} == {};
    } else {
      assert m.Keys == {};
    }
  }

  /** Refreshing prices does not change the valuation at those prices. */
  lemma RefreshKeepsValue(m: map<string, Position>, prices: map<string, real>)
    ensures PricedValue(Refresh(m, prices), prices) == PricedValue(m, prices)
  {
    SumKeysCongruent(m.Keys, m, PricedTerm(prices), Refresh(m, prices), PricedTerm(prices));
  }

  /** Refreshing twice at the same prices is refreshing once. */
  lemma RefreshIdempotent(m: map<string, Position>, prices: map<string, real>)
    ensures Refresh(Refresh(m, prices), prices) == Refresh(m, prices)
  {
    var once := Refresh(m, prices);
    var twice := Refresh(once, prices);
    assert twice.Keys == once.Keys;
    forall s | s in once ensures twice[s] == once[s] {
    }
  }

  /** What one position adds to the unrealized profit. */
  function UnrealizedTerm(): (string, Position) -> real {
    (s: string, p: Position) => p.unrealizedPnl
  }

  /** The sum of the positions' stored unrealized profit. */
  ghost function TotalUnrealizedPnl(m: map<string, Position>): real {
    SumKeys(m.Keys, m, UnrealizedTerm())
  }

  /** After a refresh, the unrealized profit is (price - entry) * quantity for each
      priced position, plus the stale figure of every unpriced one. */
  lemma UnrealizedAfterRefresh(m: map<string, Position>, prices: map<string, real>)
    ensures TotalUnrealizedPnl(Refresh(m, prices)) ==
            SumKeys(m.Keys, m, (s: string, p: Position) =>
                      if s in prices then (prices[s] - p.entryPrice) * p.quantity else p.unrealizedPnl)
  {
    SumKeysCongruent(m.Keys, Refresh(m, prices), UnrealizedTerm(),
                     m, (s: string, p: Position) =>
                          if s in prices then (prices[s] - p.entryPrice) * p.quantity else p.unrealizedPnl);
  }

  // ---------------------------------------------------------------------------
  // Performance metrics.

  /** `_is_winning_trade`: a placeholder that classifies every trade as a win. */
  predicate IsWinningTrade(t: Trade, prices: map<string, real>) {
    true
  }

  /** The number of trades the classifier calls winning. */
  function CountWinning(trades: seq<Trade>, prices: map<string, real>): (r: nat)
    ensures r <= |trades|
  {
    if trades == [] then 0
    else (if IsWinningTrade(trades[0], prices) then 1 else 0) + CountWinning(trades[1..], prices)
  }

  /** With the placeholder classifier every trade counts as winning. */
  lemma {:induction false} EveryTradeWins(trades: seq<Trade>, prices: map<string, real>)
    ensures CountWinning(trades, prices) == |trades|
  {
    if trades != [] {
      EveryTradeWins(trades[1..], prices);
    }
  }

  /** winning / total, or 0 with no trades. */
  function WinRate(trades: seq<Trade>, prices: map<string, real>): (r: real)
    ensures r == if trades == [] then 0.0 else 1.0
  {
    EveryTradeWins(trades, prices);
    assert |trades| > 0 ==> |trades| as real / |trades| as real == 1.0;
    if |trades| > 0 then CountWinning(trades, prices) as real / |trades| as real else 0.0
  }

  datatype Metrics = Metrics(initialBalance: real, currentBalance: real, portfolioValue: real,
                             totalReturn: real, totalTrades: nat, winRate: real, unrealizedPnl: real)

  /** Python raises ZeroDivisionError for a zero initial balance. */
  datatype MetricsError = ZeroInitialBalance

  /** `get_performance_metrics` on the book before the call; the valuation's
      refresh happens first, so the unrealized profit is summed over refreshed
      positions. */
  ghost function PerformanceMetrics(initialBalance: real, b: Book, prices: map<string, real>): (r: Result<Metrics, MetricsError>)
    ensures r.Failure? <==> initialBalance == 0.0
    ensures r.Success? ==>
              && r.value.portfolioValue == b.balance + PricedValue(b.positions, prices)
              && r.value.totalReturn * initialBalance == r.value.portfolioValue - initialBalance
              && r.value.totalTrades == |b.trades|
              && r.value.winRate == (if b.trades == [] then 0.0 else 1.0)
              && r.value.unrealizedPnl == TotalUnrealizedPnl(Refresh(b.positions, prices))
              && r.value.initialBalance == initialBalance && r.value.currentBalance == b.balance
  {
    var value := b.balance + PricedValue(b.positions, prices);
    if initialBalance == 0.0 then Failure(ZeroInitialBalance)
    else
      Success(Metrics(initialBalance, b.balance, value, (value - initialBalance) / initialBalance,
                      |b.trades|, WinRate(b.trades, prices), TotalUnrealizedPnl(Refresh(b.positions, prices))))
  }
}
