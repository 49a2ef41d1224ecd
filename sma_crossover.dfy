/** The SMA-crossover reference strategy: a short and a long simple moving
    average of the closes are compared one bar back and at the latest bar; an
    upward cross buys a fraction of the cash, a downward cross sells the whole
    "BTC/USDT" holding. The strategy object also carries the ledger it inherits
    from the base strategy (cash, positions, trades, indicators). */
module SmaCrossover {
  import opened Wrappers
  import opened MarketData
  import opened BaseStrategy

  // ---------------------------------------------------------------------------
  // Moving averages on the close series.

  function Closes(bars: seq<Bar>): (r: seq<real>)
    ensures |r| == |bars| && forall i :: 0 <= i < |bars| ==> r[i] == bars[i].close
  {
    seq(|bars|, i requires 0 <= i < |bars| => bars[i].close)
  }

  function Sum(xs: seq<real>): real {
    if xs == [] then 0.0 else xs[0] + Sum(xs[1..])
  }

  function Mean(xs: seq<real>): real
    requires |xs| > 0
  {
    Sum(xs) / |xs| as real
  }

  /** `rolling(window).mean()` at index `t`: the mean of the `window` closes ending
      at `t`, or None (NaN) while fewer than `window` closes exist. A window of 0
      averages nothing and is NaN everywhere. */
  function Sma(closes: seq<real>, window: nat, t: nat): (r: Option<real>)
    requires t < |closes|
    ensures r.None? <==> window == 0 || t + 1 < window
  {
    if window == 0 || t + 1 < window then None else Some(Mean(closes[t + 1 - window..t + 1]))
  }

  /** The whole rolling-mean series, one entry per close. */
  function SmaSeries(closes: seq<real>, window: nat): (r: seq<Option<real>>)
    ensures |r| == |closes|
    ensures forall t :: 0 <= t < |closes| ==> r[t] == Sma(closes, window, t)
  {
    seq(|closes|, t requires 0 <= t < |closes| => Sma(closes, window, t))
  }

  lemma {:induction false} SumConstant(xs: seq<real>, c: real)
    requires forall i :: 0 <= i < |xs| ==> xs[i] == c
    ensures Sum(xs) == |xs| as real * c
  {
    if xs != [] {
      SumConstant(xs[1..], c);
    }
  }

  /** The moving average is a mean: over a window of equal closes it is that close. */
  lemma SmaOfFlatWindow(closes: seq<real>, window: nat, t: nat, c: real)
    requires window >= 1 && window <= t + 1 < |closes| + 1
    requires forall i :: t + 1 - window <= i <= t ==> closes[i] == c
    ensures Sma(closes, window, t) == Some(c)
  {
    var w := closes[t + 1 - window..t + 1];
    SumConstant(w, c);
    assert Sum(w) / window as real == c;
  }

  /** The moving average at `t` depends only on the closes up to `t`. */
  lemma SmaNoLookahead(closes: seq<real>, window: nat, t: nat, n: nat)
    requires t < n <= |closes|
    ensures Sma(closes[..n], window, t) == Sma(closes, window, t)
  {
    if t + 1 >= window {
      assert closes[..n][t + 1 - window..t + 1] == closes[t + 1 - window..t + 1];
    }
  }

  // ---------------------------------------------------------------------------
  // The crossover rule.

  /** Comparisons with NaN are false. */
  predicate Le(a: Option<real>, b: Option<real>) {
    a.Some? && b.Some? && a.value <= b.value
  }

  predicate Lt(a: Option<real>, b: Option<real>) {
    a.Some? && b.Some? && a.value < b.value
  }

  /** The four averages the rule compares: short and long, one bar back and latest.
      With a single close the previous values are the latest ones. */
  datatype Averages = Averages(prevShort: Option<real>, prevLong: Option<real>,
                               curShort: Option<real>, curLong: Option<real>)

  function LatestAverages(closes: seq<real>, shortWindow: nat, longWindow: nat): (r: Averages)
    requires |closes| > 0
    ensures |closes| == 1 ==> r.prevShort == r.curShort && r.prevLong == r.curLong
  {
    var n := |closes|;
    var curShort := Sma(closes, shortWindow, n - 1);
    var curLong := Sma(closes, longWindow, n - 1);
    Averages(if n > 1 then Sma(closes, shortWindow, n - 2) else curShort,
             if n > 1 then Sma(closes, longWindow, n - 2) else curLong,
             curShort, curLong)
  }

  /** Golden cross: short was at or below long and is now above it. */
  predicate UpwardCross(a: Averages) {
    Le(a.prevShort, a.prevLong) && Lt(a.curLong, a.curShort)
  }

  /** Death cross: short was at or above long and is now below it. */
  predicate DownwardCross(a: Averages) {
    Le(a.prevLong, a.prevShort) && Lt(a.curShort, a.curLong)
  }

  /** A cross needs all four averages (a NaN blocks it); a golden cross strictly
      widens the spread short - long, a death cross strictly narrows it. */
  lemma CrossesMoveTheSpread(a: Averages)
    ensures UpwardCross(a) ==> a.prevShort.Some? && a.prevLong.Some? && a.curShort.Some? && a.curLong.Some? &&
                               a.prevShort.value - a.prevLong.value < a.curShort.value - a.curLong.value
    ensures DownwardCross(a) ==> a.prevShort.Some? && a.prevLong.Some? && a.curShort.Some? && a.curLong.Some? &&
                                 a.curShort.value - a.curLong.value < a.prevShort.value - a.prevLong.value
  {
  }

  /** `generate_signal` on the visible closes. With a long window of 0 an empty
      series is not handled (`iloc[-1]` raises). */
  function CrossoverSignal(closes: seq<real>, shortWindow: nat, longWindow: nat): (sig: Signal)
    requires |closes| > 0 || longWindow > 0
    ensures |closes| < longWindow ==> sig == Hold
  {
    if |closes| < longWindow then Hold
    else
      var a := LatestAverages(closes, shortWindow, longWindow);
      if UpwardCross(a) then Buy
      else if DownwardCross(a) then Sell
      else Hold
  }

  /** BUY exactly on an upward cross, once the long window is full. */
  lemma BuyExactlyOnUpwardCross(closes: seq<real>, shortWindow: nat, longWindow: nat)
    requires |closes| > 0 || longWindow > 0
    ensures CrossoverSignal(closes, shortWindow, longWindow) == Buy <==>
            |closes| >= longWindow && UpwardCross(LatestAverages(closes, shortWindow, longWindow))
  {
  }

  /** A single bar never signals: its previous averages are its current ones,
      so neither cross can be seen. */
  lemma SingleCloseHolds(closes: seq<real>, shortWindow: nat, longWindow: nat)
    requires |closes| == 1
    ensures CrossoverSignal(closes, shortWindow, longWindow) == Hold
  {
    if |closes| >= longWindow {
      var a := LatestAverages(closes, shortWindow, longWindow);
      assert a.prevShort == a.curShort && a.prevLong == a.curLong;
      assert !UpwardCross(a) && !DownwardCross(a);
    }
  }

  /** Either window at 0 makes every average NaN, so every signal is HOLD. */
  lemma ZeroWindowHolds(closes: seq<real>, shortWindow: nat, longWindow: nat)
    requires |closes| > 0 && (shortWindow == 0 || longWindow == 0)
    ensures CrossoverSignal(closes, shortWindow, longWindow) == Hold
  {
    var n := |closes|;
    if n >= longWindow {
      var a := LatestAverages(closes, shortWindow, longWindow);
      if shortWindow == 0 {
        assert Sma(closes, 0, n - 1).None?;
        assert n > 1 ==> Sma(closes, 0, n - 2).None?;
        assert a.prevShort.None? && a.curShort.None?;
      } else {
        assert Sma(closes, 0, n - 1).None?;
        assert n > 1 ==> Sma(closes, 0, n - 2).None?;
        assert a.prevLong.None? && a.curLong.None?;
      }
    }
  }

  /** SELL exactly on a downward cross that is not an upward one; HOLD otherwise. */
  lemma SellExactlyOnDownwardCross(closes: seq<real>, shortWindow: nat, longWindow: nat)
    requires |closes| > 0 || longWindow > 0
    ensures var a := if |closes| >= longWindow then LatestAverages(closes, shortWindow, longWindow)
                     else Averages(None, None, None, None);
            && (CrossoverSignal(closes, shortWindow, longWindow) == Sell <==>
                  |closes| >= longWindow && !UpwardCross(a) && DownwardCross(a))
            && (CrossoverSignal(closes, shortWindow, longWindow) == Hold <==>
                  |closes| < longWindow || (!UpwardCross(a) && !DownwardCross(a)))
  {
  }

  /** The two crosses exclude each other. */
  lemma CrossesExclusive(a: Averages)
    ensures !(UpwardCross(a) && DownwardCross(a))
  {
    // the spread cannot both widen and narrow
    CrossesMoveTheSpread(a);
  }

  /** On the first bar with a full long window (longer than one bar) the previous
      long average is NaN, so no cross can be seen. */
  lemma FirstFullWindowHolds(closes: seq<real>, shortWindow: nat, longWindow: nat)
    requires longWindow > 1 && |closes| == longWindow
    ensures CrossoverSignal(closes, shortWindow, longWindow) == Hold
  {
    assert LatestAverages(closes, shortWindow, longWindow).prevLong == None;
  }

  // ---------------------------------------------------------------------------
  // Sizing.

  /** The symbol the SELL sizing looks up, whatever symbol is traded. */
  const SellSymbol: string := "BTC/USDT"

  /** `calculate_position_size`: a BUY risks `positionSizePct` of the cash, a SELL
      closes the whole "BTC/USDT" holding (0 without one), a HOLD sizes to 0. */
  function PositionSize(signal: Signal, price: real, availableBalance: real,
                        positions: map<string, Position>, positionSizePct: real): (q: real)
    requires signal == Buy ==> price != 0.0
  {
    match signal
    case Buy => availableBalance * positionSizePct / price
    case Sell => if SellSymbol in positions then positions[SellSymbol].quantity else 0.0
    case Hold => 0.0
  }

  /** What the sizing rule returns, signal by signal. */
  lemma PositionSizeCases(signal: Signal, price: real, availableBalance: real,
                          positions: map<string, Position>, positionSizePct: real)
    requires PositionsValid(positions)
    requires signal == Buy ==> price != 0.0
    ensures var q := PositionSize(signal, price, availableBalance, positions, positionSizePct);
            && (signal == Buy ==> q * price == availableBalance * positionSizePct)
            && (signal == Buy && price > 0.0 && availableBalance >= 0.0 && positionSizePct >= 0.0 ==> q >= 0.0)
            && (signal == Sell ==> (q > 0.0 <==> SellSymbol in positions))
            && (signal == Sell && SellSymbol in positions ==> q == positions[SellSymbol].quantity)
            && (signal == Hold ==> q == 0.0)
  {
    if signal == Buy {
      var q := availableBalance * positionSizePct / price;
      assert q * price == availableBalance * positionSizePct;
      if price > 0.0 && availableBalance >= 0.0 && positionSizePct >= 0.0 {
        assert availableBalance * positionSizePct >= 0.0;
      }
    }
  }

  /** With no "BTC/USDT" holding a SELL sizes to 0 and so is dropped by the
      ledger, whatever symbol it is for. */
  lemma SellIgnoredWithoutBtcUsdt(b: Book, price: real, timestamp: int, symbol: string, positionSizePct: real)
    requires PositionsValid(b.positions) && SellSymbol !in b.positions
    ensures Execute(b, Sell, PositionSize(Sell, price, b.balance, b.positions, positionSizePct),
                    price, timestamp, symbol) == Execution(b, None)
  {
  }

  // ---------------------------------------------------------------------------
  // The strategy object.

  class SmaCrossoverStrategy {
    const name: string
    const initialBalance: real
    const shortWindow: nat
    const longWindow: nat
    const positionSizePct: real
    var balance: real
    var positions: map<string, Position>
    var trades: seq<Trade>
    var indicators: map<string, seq<Option<real>>>

    ghost predicate Valid()
      reads this`positions
    {
      PositionsValid(positions)
    }

    /** The ledger part of the state. */
    function Ledger(): Book
      reads this`balance, this`positions, this`trades
    {
      Book(balance, positions, trades)
    }

    constructor (shortWindow: nat, longWindow: nat, positionSizePct: real, initialBalance: real)
      ensures Valid()
      ensures this.name == "SMA Crossover Strategy"
      ensures this.shortWindow == shortWindow && this.longWindow == longWindow
      ensures this.positionSizePct == positionSizePct && this.initialBalance == initialBalance
      ensures balance == initialBalance && positions == map[] && trades == [] && indicators == map[]
    {
      this.name := "SMA Crossover Strategy";
      this.shortWindow := shortWindow;
      this.longWindow := longWindow;
      this.positionSizePct := positionSizePct;
      this.initialBalance := initialBalance;
      balance := initialBalance;
      positions := map[];
      trades := [];
      indicators := map[];
    }

    /** `add_indicator`: stores (or replaces) a named series. */
    method AddIndicator(key: string, values: seq<Option<real>>)
      modifies this`indicators
      ensures indicators == old(indicators)[key := values]
      ensures GetIndicator(key) == Some(values)
    {
      indicators := indicators[key := values];
    }

    /** `get_indicator`: the named series, if stored. */
    function GetIndicator(key: string): (r: Option<seq<Option<real>>>)
      reads this
      ensures r.Some? <==> key in indicators
      ensures r.Some? ==> r.value == indicators[key]
    {
      if key in indicators then Some(indicators[key]) else None
    }

    /** `generate_signal`: the crossover rule on the closes of the visible bars.
        Once the long window is full it also overwrites the two SMA indicators. */
    method GenerateSignal(bars: seq<Bar>) returns (signal: Signal)
      requires |bars| > 0 || longWindow > 0
      modifies this`indicators
      ensures signal == CrossoverSignal(Closes(bars), shortWindow, longWindow)
      ensures indicators ==
              if |bars| < longWindow then old(indicators)
              else old(indicators)["short_sma" := SmaSeries(Closes(bars), shortWindow)]
                                  ["long_sma" := SmaSeries(Closes(bars), longWindow)]
    {
      if |bars| < longWindow {
        return Hold;
      }
      var closes := Closes(bars);
      AddIndicator("short_sma", SmaSeries(closes, shortWindow));
      AddIndicator("long_sma", SmaSeries(closes, longWindow));
      var a := LatestAverages(closes, shortWindow, longWindow);
      if UpwardCross(a) {
        signal := Buy;
      } else if DownwardCross(a) {
        signal := Sell;
      } else {
        signal := Hold;
      }
    }

    /** `calculate_position_size` against this strategy's positions. */
    function CalculatePositionSize(signal: Signal, currentPrice: real, availableBalance: real): (r: real)
      reads this
      requires signal == Buy ==> currentPrice != 0.0
      ensures signal == Buy ==> r * currentPrice == availableBalance * positionSizePct
      ensures signal == Sell ==> r == if SellSymbol in positions then positions[SellSymbol].quantity else 0.0
      ensures signal == Hold ==> r == 0.0
    {
      PositionSize(signal, currentPrice, availableBalance, positions, positionSizePct)
    }

    /** `execute_trade`: sizes the signal against the current cash and applies the
        ledger rule. */
    method ExecuteTrade(signal: Signal, price: real, timestamp: int, symbol: string) returns (trade: Option<Trade>)
      requires Valid()
      requires signal == Buy ==> price != 0.0
      modifies this`balance, this`positions, this`trades
      ensures Valid()
      ensures var r := Execute(old(Ledger()), signal, old(CalculatePositionSize(signal, price, balance)),
                               price, timestamp, symbol);
              Ledger() == r.book && trade == r.trade
    {
      ghost var before := Ledger();
      if signal == Hold {
        return None;
      }
      var quantity := CalculatePositionSize(signal, price, balance);
      if quantity <= 0.0 {
        return None;
      }
      ghost var r := Execute(before, signal, quantity, price, timestamp, symbol);
      var t := Trade(timestamp, signal, price, quantity, Reason(signal));
      if signal == Buy {
        var cost := price * quantity;
        if cost <= balance {
          var position;
          if symbol in positions {
            var existing := positions[symbol];
            position := Position(symbol, existing.quantity + quantity, AverageEntry(existing, quantity, price),
                                 existing.entryTime, price, 0.0);
          } else {
            position := Position(symbol, quantity, price, timestamp, price, 0.0);
          }
          assert r.book.positions == positions[symbol := position];
          balance := balance - cost;
          positions := positions[symbol := position];
        }
      } else if signal == Sell {
        if symbol in positions {
          var position := positions[symbol];
          var sellQuantity := Min(quantity, position.quantity);
          balance := balance + price * sellQuantity;
          position := position.(quantity := position.quantity - sellQuantity);
          if position.quantity <= 0.0 {
            positions := positions - {symbol};
          } else {
            positions := positions[symbol := position];
          }
          t := t.(quantity := sellQuantity);
        }
      }
      trades := trades + [t];
      trade := Some(t);
      assert Ledger() == r.book && trade == r.trade;
    }

    /** `get_portfolio_value`: cash plus quantity times price of every priced
        position; as a side effect each priced position is refreshed. */
    method GetPortfolioValue(prices: map<string, real>) returns (value: real)
      requires Valid()
      modifies this`positions
      ensures Valid()
      ensures value == balance + PricedValue(old(positions), prices)
      ensures positions == Refresh(old(positions), prices)
    {
      ghost var start := positions;
      value := balance;
      var refreshed := positions;
      var remaining := positions.Keys;
      assert refreshed == PartialRefresh(start, prices, remaining);
      while remaining != {}
        invariant remaining <= start.Keys
        invariant refreshed == PartialRefresh(start, prices, remaining)
        invariant value + SumKeys(remaining, start, PricedTerm(prices)) == balance + PricedValue(start, prices)
        decreases remaining
      {
        var symbol :| symbol in remaining;
        SumKeysRemove(remaining, start, PricedTerm(prices), symbol);
        PartialRefreshStep(start, prices, remaining, symbol);
        ghost var term := PricedTerm(prices)(symbol, start[symbol]);
        assert term == Priced(prices, symbol, start[symbol]);
        ghost var rest := SumKeys(remaining - {symbol}, start, PricedTerm(prices));
        assert value + term + rest == balance + PricedValue(start, prices);
        assert refreshed[symbol] == start[symbol];
        if symbol in prices {
          var p := refreshed[symbol];
          PricedWhenPriced(prices, symbol, p);
          assert term == p.quantity * prices[symbol];
          refreshed := refreshed[symbol := UpdatePrice(p, prices[symbol])];
          value := value + p.quantity * prices[symbol];
        } else {
          assert term == 0.0;
        }
        remaining := remaining - {symbol};
        assert value + rest == balance + PricedValue(start, prices);
      }
      PartialRefreshDone(start, prices);
      positions := refreshed;
    }

    /** The `sum(pos.unrealized_pnl ...)` of the metrics. */
    method SumUnrealizedPnl() returns (total: real)
      ensures total == TotalUnrealizedPnl(positions)
    {
      total := 0.0;
      var remaining := positions.Keys;
      while remaining != {}
        invariant remaining <= positions.Keys
        invariant total + SumKeys(remaining, positions, UnrealizedTerm()) == TotalUnrealizedPnl(positions)
        decreases remaining
      {
        var symbol :| symbol in remaining;
        SumKeysRemove(remaining, positions, UnrealizedTerm(), symbol);
        total := total + positions[symbol].unrealizedPnl;
        remaining := remaining - {symbol};
      }
    }

    /** `get_performance_metrics`: values the portfolio (refreshing the priced
        positions), then reports return, trade count, win rate and unrealized
        profit. A zero initial balance fails as a division by zero. */
    method GetPerformanceMetrics(prices: map<string, real>) returns (r: Result<Metrics, MetricsError>)
      requires Valid()
      modifies this`positions
      ensures Valid()
      ensures r == PerformanceMetrics(initialBalance, old(Ledger()), prices)
      ensures positions == Refresh(old(positions), prices)
    {
      var value := GetPortfolioValue(prices);
      if initialBalance == 0.0 {
        return Failure(ZeroInitialBalance);
      }
      var totalReturn := (value - initialBalance) / initialBalance;
      var winning := CountWinning(trades, prices);
      var totalTrades := |trades|;
      var winRate := if totalTrades > 0 then winning as real / totalTrades as real else 0.0;
      var pnl := SumUnrealizedPnl();
      r := Success(Metrics(initialBalance, balance, value, totalReturn, totalTrades, winRate, pnl));
    }
  }
}
