/** The bar-by-bar replay of a price series through the SMA-crossover strategy:
    at each bar the strategy sees the bars so far, a non-HOLD signal is executed
    at the bar's close, commission is debited on the recorded quantity and the
    portfolio value at the close is appended. After the last bar the metrics,
    the maximum drawdown and the commission total are reported. */
module Backtest {
  import opened Wrappers
  import opened MarketData
  import opened BaseStrategy
  import opened SmaCrossover

  /** The run's parameters: the strategy's windows and sizing fraction, the traded
      symbol and the commission rate (a fraction of notional). */
  datatype Config = Config(shortWindow: nat, longWindow: nat, positionSizePct: real,
                           symbol: string, commissionRate: real)

  /** No BUY among the first n signals falls on a zero close: the BUY sizing
      divides by the close. Stated bar by bar, so that a replay's prefix inherits
      it by one unfolding. */
  ghost predicate PricedBuys(bars: seq<Bar>, signals: seq<Signal>, n: nat)
    requires n <= |bars| && n <= |signals|
  {
    n == 0 || (PricedBuys(bars, signals, n - 1) && (signals[n - 1] == Buy ==> bars[n - 1].close != 0.0))
  }

  /** No BUY signal of the series falls on a zero close: what a replay of the
      whole series needs. */
  ghost predicate NoBuyAtZeroClose(bars: seq<Bar>, signals: seq<Signal>) {
    forall i :: 0 <= i < |bars| && i < |signals| && signals[i] == Buy ==> bars[i].close != 0.0
  }

  /** PricedBuys holds exactly when no BUY among the first n signals is on a zero
      close. */
  lemma {:induction false} PricedBuysAll(bars: seq<Bar>, signals: seq<Signal>, n: nat)
    requires n <= |bars| && n <= |signals|
    ensures PricedBuys(bars, signals, n) <==> forall i :: 0 <= i < n && signals[i] == Buy ==> bars[i].close != 0.0
  {
    if n > 0 {
      PricedBuysAll(bars, signals, n - 1);
    }
  }

  /** PricedBuys of n bars holds of every shorter prefix. */
  lemma {:induction false} PricedBuysMono(bars: seq<Bar>, signals: seq<Signal>, n: nat, m: nat)
    requires m <= n <= |bars| && n <= |signals| && PricedBuys(bars, signals, n)
    ensures PricedBuys(bars, signals, m)
  {
    if m < n {
      PricedBuysMono(bars, signals, n - 1, m);
    }
  }

  lemma PricedBuysPrefix(bars: seq<Bar>, signals: seq<Signal>, n: nat)
    requires 0 < n <= |bars| && n <= |signals| && PricedBuys(bars, signals, n)
    ensures PricedBuys(bars, signals, n - 1)
    ensures signals[n - 1] == Buy ==> bars[n - 1].close != 0.0
  {
  }

  /** The commission on a trade: `price * quantity * rate`. */
  function Commission(t: Trade, rate: real): real {
    t.price * t.quantity * rate
  }

  /** Debits the commission when a trade was returned, on the quantity the trade
      records (the clamped one for a SELL); nothing otherwise. */
  function ApplyCommission(ex: Execution, rate: real): (b: Book)
    ensures ex.trade.None? ==> b == ex.book
    ensures ex.trade.Some? ==>
              b == ex.book.(balance := ex.book.balance - ex.trade.value.price * ex.trade.value.quantity * rate)
  {
    match ex.trade
    case None => ex.book
    case Some(t) => ex.book.(balance := ex.book.balance - Commission(t, rate))
  }

  /** One bar of the replay: the book afterwards, the signal and the value appended. */
  datatype StepResult = StepResult(book: Book, signal: Signal, value: real)

  /** The ledger's prices at a bar: only the traded symbol, at the bar's close. */
  function BarPrices(c: Config, bar: Bar): map<string, real> {
    map[c.symbol := bar.close]
  }

  /** The signal series: at bar i the strategy sees bars 0..i only. It does not
      depend on the ledger. */
  function Signals(bars: seq<Bar>, c: Config): (r: seq<Signal>)
    ensures |r| == |bars|
    ensures forall i :: 0 <= i < |bars| ==> r[i] == SignalAt(bars, i, c)
  {
    seq(|bars|, i requires 0 <= i < |bars| => SignalAt(bars, i, c))
  }

  /** The signal at bar i, from the bars up to and including i. */
  function SignalAt(bars: seq<Bar>, i: nat, c: Config): Signal
    requires i < |bars|
  {
    CrossoverSignal(Closes(bars[..i + 1]), c.shortWindow, c.longWindow)
  }

  /** The signal series does not look ahead: the signals of a prefix are a prefix
      of the signals. */
  lemma SignalsNoLookahead(bars: seq<Bar>, n: nat, c: Config)
    requires n <= |bars|
    ensures Signals(bars[..n], c) == Signals(bars, c)[..n]
  {
    forall i | 0 <= i < n ensures Signals(bars[..n], c)[i] == Signals(bars, c)[i] {
      assert bars[..n][..i + 1] == bars[..i + 1];
    }
  }

  /** A series shorter than the long window yields only HOLD signals. */
  lemma ShortSeriesSignalsHold(bars: seq<Bar>, c: Config)
    requires |bars| < c.longWindow
    ensures forall i :: 0 <= i < |bars| ==> Signals(bars, c)[i] == Hold
  {
  }

  /** The signal sized against the book and executed at the bar's close, before
      commission. */
  ghost function Executed(b: Book, bar: Bar, signal: Signal, c: Config): Execution
    requires (signal == Buy ==> bar.close != 0.0) && PositionsValid(b.positions)
  {
    Execute(b, signal, PositionSize(signal, bar.close, b.balance, b.positions, c.positionSizePct),
            bar.close, bar.timestamp, c.symbol)
  }

  /** The book after a bar's trade: a non-HOLD signal is sized, executed at the
      close and charged commission; a HOLD leaves the book as it is. */
  ghost function Traded(b: Book, bar: Bar, signal: Signal, c: Config): (r: Book)
    requires (signal == Buy ==> bar.close != 0.0) && PositionsValid(b.positions)
    ensures PositionsValid(r.positions)
    ensures r.positions.Keys <= b.positions.Keys + {c.symbol}
    ensures signal == Hold ==> r == b
    ensures r.trades == b.trades ==> r.balance == b.balance
    ensures r.trades == b.trades ||
            (|r.trades| == |b.trades| + 1 && r.trades[..|b.trades|] == b.trades &&
             r.trades[|b.trades|].signal == signal && r.trades[|b.trades|].price == bar.close &&
             r.trades[|b.trades|].timestamp == bar.timestamp)
    ensures signal == Sell && SellSymbol !in b.positions ==> r == b
  {
    var quantity := PositionSize(signal, bar.close, b.balance, b.positions, c.positionSizePct);
    var ex := Executed(b, bar, signal, c);
    ExecuteAppendsReturnedTrade(b, signal, quantity, bar.close, bar.timestamp, c.symbol);
    if signal == Hold then b
    else if signal == Sell && SellSymbol !in b.positions then
      SellIgnoredWithoutBtcUsdt(b, bar.close, bar.timestamp, c.symbol, c.positionSizePct);
      assert ex == Execution(b, None);
      ApplyCommission(ex, c.commissionRate)
    else
      assert ex.trade.Some? ==> ApplyCommission(ex, c.commissionRate).trades == b.trades + [ex.trade.value];
      ApplyCommission(ex, c.commissionRate)
  }

  /** Values the ledger at the bar's close, refreshing the priced positions. */
  ghost function Settle(traded: Book, bar: Bar, signal: Signal, c: Config): (r: StepResult)
    requires PositionsValid(traded.positions)
    ensures r.signal == signal && r.book.balance == traded.balance && r.book.trades == traded.trades
    ensures r.book.positions == Refresh(traded.positions, BarPrices(c, bar))
    ensures Refresh(r.book.positions, BarPrices(c, bar)) == r.book.positions
    ensures r.value == r.book.balance + PricedValue(r.book.positions, BarPrices(c, bar))
  {
    var prices := BarPrices(c, bar);
    RefreshKeepsValue(traded.positions, prices);
    RefreshIdempotent(traded.positions, prices);
    StepResult(traded.(positions := Refresh(traded.positions, prices)), signal,
               traded.balance + PricedValue(traded.positions, prices))
  }

  /** The ledger and the value series after the first `n` bars. */
  datatype Replay = Replay(book: Book, values: seq<real>)

  /** One bar given its signal: trade (see Traded), then value and refresh the
      ledger at the close. */
  ghost function Step(b: Book, bar: Bar, signal: Signal, c: Config): (r: StepResult)
    requires (signal == Buy ==> bar.close != 0.0) && PositionsValid(b.positions)
    ensures r.signal == signal
    ensures PositionsValid(r.book.positions)
    ensures r.book.positions.Keys <= b.positions.Keys + {c.symbol}
    ensures signal == Hold ==> r.book == b.(positions := Refresh(b.positions, BarPrices(c, bar)))
    ensures r.book.trades == b.trades ==> r.book.balance == b.balance
    ensures r.book.trades == b.trades ||
            (|r.book.trades| == |b.trades| + 1 && r.book.trades[..|b.trades|] == b.trades &&
             r.book.trades[|b.trades|].signal == signal && r.book.trades[|b.trades|].price == bar.close &&
             r.book.trades[|b.trades|].timestamp == bar.timestamp)
    ensures signal == Sell && SellSymbol !in b.positions ==> r.book.trades == b.trades
    ensures r.value == r.book.balance + PricedValue(r.book.positions, BarPrices(c, bar))
    ensures Refresh(r.book.positions, BarPrices(c, bar)) == r.book.positions
  {
    Settle(Traded(b, bar, signal, c), bar, signal, c)
  }

  /** The replay of the first n bars: bar i is stepped from the ledger the first
      i bars left. */
  ghost function Run(b0: Book, bars: seq<Bar>, signals: seq<Signal>, n: nat, c: Config): (r: Replay)
    requires n <= |bars| && n <= |signals| && PricedBuys(bars, signals, n) && PositionsValid(b0.positions)
    ensures |r.values| == n
    ensures PositionsValid(r.book.positions)
    ensures n > 0 ==> Refresh(r.book.positions, BarPrices(c, bars[n - 1])) == r.book.positions
  {
    if n == 0 then Replay(b0, [])
    else
      var prev := Run(b0, bars, signals, n - 1, c);
      var s := Step(prev.book, bars[n - 1], signals[n - 1], c);
      Replay(s.book, prev.values + [s.value])
  }

  /** The replay of the first n bars does not look at any later bar or signal. */
  lemma {:induction false} RunNoLookahead(b0: Book, bars: seq<Bar>, signals: seq<Signal>,
                                          bars': seq<Bar>, signals': seq<Signal>, n: nat, c: Config)
    requires n <= |bars| && n <= |signals| && PricedBuys(bars, signals, n) && PositionsValid(b0.positions)
    requires n <= |bars'| && n <= |signals'| && PricedBuys(bars', signals', n)
    requires bars[..n] == bars'[..n] && signals[..n] == signals'[..n]
    ensures Run(b0, bars, signals, n, c) == Run(b0, bars', signals', n, c)
  {
    if n > 0 {
      PricedBuysPrefix(bars, signals, n);
      PricedBuysPrefix(bars', signals', n);
      assert bars[..n - 1] == bars[..n][..n - 1] && bars'[..n - 1] == bars'[..n][..n - 1];
      assert signals[..n - 1] == signals[..n][..n - 1] && signals'[..n - 1] == signals'[..n][..n - 1];
      RunNoLookahead(b0, bars, signals, bars', signals', n - 1, c);
      assert bars[n - 1] == bars[..n][n - 1] && bars'[n - 1] == bars'[..n][n - 1];
      assert signals[n - 1] == signals[..n][n - 1] && signals'[n - 1] == signals'[..n][n - 1];
      var prev := Run(b0, bars, signals, n - 1, c);
      var st := Step(prev.book, bars[n - 1], signals[n - 1], c);
      RunExtend(b0, bars, signals, n - 1, c, prev.book, prev.values, st.book, st.value);
      RunExtend(b0, bars', signals', n - 1, c, prev.book, prev.values, st.book, st.value);
    }
  }

  /** The cash the commission took at one bar: the balance after execution less
      the balance after the bar's trade. */
  ghost function Debit(b: Book, bar: Bar, signal: Signal, c: Config): real
    requires (signal == Buy ==> bar.close != 0.0) && PositionsValid(b.positions)
  {
    Executed(b, bar, signal, c).book.balance - Traded(b, bar, signal, c).balance
  }

  /** At each bar the commission debited is that of the trade appended, if any. */
  lemma TradedDebit(b: Book, bar: Bar, signal: Signal, c: Config)
    requires (signal == Buy ==> bar.close != 0.0) && PositionsValid(b.positions)
    ensures var ex := Executed(b, bar, signal, c);
            var r := Traded(b, bar, signal, c);
            (ex.trade.None? && r.trades == b.trades && Debit(b, bar, signal, c) == 0.0) ||
            (ex.trade.Some? && r.trades == b.trades + [ex.trade.value] &&
             Debit(b, bar, signal, c) == Commission(ex.trade.value, c.commissionRate))
  {
    var quantity := PositionSize(signal, bar.close, b.balance, b.positions, c.positionSizePct);
    ExecuteAppendsReturnedTrade(b, signal, quantity, bar.close, bar.timestamp, c.symbol);
  }

  /** The total commission debited over the first n bars. */
  ghost function Fees(b0: Book, bars: seq<Bar>, signals: seq<Signal>, n: nat, c: Config): real
    requires n <= |bars| && n <= |signals| && PricedBuys(bars, signals, n) && PositionsValid(b0.positions)
  {
    if n == 0 then 0.0
    else Fees(b0, bars, signals, n - 1, c) + Debit(Run(b0, bars, signals, n - 1, c).book, bars[n - 1], signals[n - 1], c)
  }

  /** The commission debited over a replay is the commission of the trades it
      appended to the log. */
  lemma {:induction false} FeesAreCommissionCharged(b0: Book, bars: seq<Bar>, signals: seq<Signal>, n: nat, c: Config)
    requires n <= |bars| && n <= |signals| && PricedBuys(bars, signals, n) && PositionsValid(b0.positions)
    ensures Fees(b0, bars, signals, n, c) ==
            CommissionCharged(Run(b0, bars, signals, n, c).book.trades, c.commissionRate) -
            CommissionCharged(b0.trades, c.commissionRate)
  {
    if n > 0 {
      assert PricedBuys(bars, signals, n - 1) by { PricedBuysPrefix(bars, signals, n); }
      FeesAreCommissionCharged(b0, bars, signals, n - 1, c);
      FeesStep(b0, bars, signals, n, c);
    }
  }

  /** The last bar of a replay adds its debit to the fees and its trade's
      commission to the charged total, so the claim for n - 1 bars carries over
      to n. */
  lemma FeesStep(b0: Book, bars: seq<Bar>, signals: seq<Signal>, n: nat, c: Config)
    requires 0 < n <= |bars| && n <= |signals| && PricedBuys(bars, signals, n) && PositionsValid(b0.positions)
    requires PricedBuys(bars, signals, n - 1)
    requires Fees(b0, bars, signals, n - 1, c) ==
             CommissionCharged(Run(b0, bars, signals, n - 1, c).book.trades, c.commissionRate) -
             CommissionCharged(b0.trades, c.commissionRate)
    ensures Fees(b0, bars, signals, n, c) ==
            CommissionCharged(Run(b0, bars, signals, n, c).book.trades, c.commissionRate) -
            CommissionCharged(b0.trades, c.commissionRate)
  {
    var prev := Run(b0, bars, signals, n - 1, c).book;
    StepCharged(prev, bars[n - 1], signals[n - 1], c);
    assert Run(b0, bars, signals, n, c).book.trades == Step(prev, bars[n - 1], signals[n - 1], c).book.trades;
  }

  /** One bar's debit is the commission of the trade it appends to the log. */
  lemma StepCharged(b: Book, bar: Bar, signal: Signal, c: Config)
    requires (signal == Buy ==> bar.close != 0.0) && PositionsValid(b.positions)
    ensures CommissionCharged(Step(b, bar, signal, c).book.trades, c.commissionRate) ==
            CommissionCharged(b.trades, c.commissionRate) + Debit(b, bar, signal, c)
  {
    TradedDebit(b, bar, signal, c);
    var ex := Executed(b, bar, signal, c);
    assert Step(b, bar, signal, c).book.trades == Traded(b, bar, signal, c).trades;
    if ex.trade.Some? {
      CommissionChargedAppend(b.trades, ex.trade.value, c.commissionRate);
    }
  }

  lemma AppendKeepsConstant(xs: seq<real>, x: real, v: real)
    requires forall j :: 0 <= j < |xs| ==> xs[j] == v
    requires x == v
    ensures forall j :: 0 <= j < |xs| + 1 ==> (xs + [x])[j] == v
  {
  }

  /** While every signal is HOLD and the ledger is flat, nothing trades and every
      value is the starting cash. */
  lemma {:induction false} AllHoldKeepsCash(b0: Book, bars: seq<Bar>, signals: seq<Signal>, n: nat, c: Config)
    requires n <= |bars| && n <= |signals| && PricedBuys(bars, signals, n)
    requires b0.positions == map[]
    requires forall j :: 0 <= j < n ==> signals[j] == Hold
    ensures Run(b0, bars, signals, n, c).book == b0
    ensures forall j :: 0 <= j < n ==> Run(b0, bars, signals, n, c).values[j] == b0.balance
  {
    if n > 0 {
      PricedBuysPrefix(bars, signals, n);
      AllHoldKeepsCash(b0, bars, signals, n - 1, c);
      var prices := BarPrices(c, bars[n - 1]);
      assert Refresh(map[], prices) == map[];
      PricedValueSingle(map[], c.symbol, bars[n - 1].close);
      var s := Step(Run(b0, bars, signals, n - 1, c).book, bars[n - 1], signals[n - 1], c);
      assert s.book == b0 && s.value == b0.balance;
      var prev := Run(b0, bars, signals, n - 1, c).values;
      var r := Run(b0, bars, signals, n, c);
      assert r.book == b0 && r.values == prev + [s.value];
      AppendKeepsConstant(prev, s.value, b0.balance);
    }
  }

  /** Later bars do not change the value recorded at the first bar. */
  lemma {:induction false} RunFirstValue(b0: Book, bars: seq<Bar>, signals: seq<Signal>, n: nat, c: Config)
    requires 1 <= n <= |bars| && n <= |signals| && PricedBuys(bars, signals, n) && PositionsValid(b0.positions)
    ensures PricedBuys(bars, signals, 1) &&
            Run(b0, bars, signals, n, c).values[0] == Run(b0, bars, signals, 1, c).values[0]
  {
    if n > 1 {
      PricedBuysPrefix(bars, signals, n);
      RunFirstValue(b0, bars, signals, n - 1, c);
      var prev := Run(b0, bars, signals, n - 1, c).values;
      assert Run(b0, bars, signals, n, c).values[0] == prev[0];
    }
  }

  /** Started flat with positive cash, a replay's maximum drawdown is a finite
      number: the first bar never trades, so the first value is the cash and
      every later peak is at least that. */
  lemma ReplayDrawdownFinite(b0: Book, bars: seq<Bar>, c: Config)
    requires bars != [] && PricedBuys(bars, Signals(bars, c), |bars|) && b0.positions == map[] && b0.balance > 0.0
    ensures MaxDrawdown(Run(b0, bars, Signals(bars, c), |bars|, c).values).Finite?
  {
    var signals := Signals(bars, c);
    SingleCloseHolds(Closes(bars[..1]), c.shortWindow, c.longWindow);
    assert signals[0] == Hold;
    PricedBuysMono(bars, signals, |bars|, 1);
    AllHoldKeepsCash(b0, bars, signals, 1, c);
    RunFirstValue(b0, bars, signals, |bars|, c);
    var v := Run(b0, bars, signals, |bars|, c).values;
    PositiveStartFinite(v);
  }

  /** A series shorter than the long window never trades: every signal is HOLD and,
      starting flat, every value is the starting cash. */
  lemma ShortSeriesHolds(b0: Book, bars: seq<Bar>, c: Config)
    requires |bars| < c.longWindow
    requires b0.positions == map[]
    ensures forall j :: 0 <= j < |bars| ==> Signals(bars, c)[j] == Hold
    ensures PricedBuys(bars, Signals(bars, c), |bars|)
    ensures Run(b0, bars, Signals(bars, c), |bars|, c).book == b0
    ensures forall j :: 0 <= j < |bars| ==> Run(b0, bars, Signals(bars, c), |bars|, c).values[j] == b0.balance
  {
    ShortSeriesSignalsHold(bars, c);
    PricedBuysAll(bars, Signals(bars, c), |bars|);
    AllHoldKeepsCash(b0, bars, Signals(bars, c), |bars|, c);
  }

  /** The ledger never holds any symbol but the traded one. */
  lemma {:induction false} RunHoldsOnlySymbol(b0: Book, bars: seq<Bar>, signals: seq<Signal>, n: nat, c: Config)
    requires n <= |bars| && n <= |signals| && PricedBuys(bars, signals, n) && PositionsValid(b0.positions)
    requires b0.positions.Keys <= {c.symbol}
    ensures Run(b0, bars, signals, n, c).book.positions.Keys <= {c.symbol}
  {
    if n > 0 {
      PricedBuysPrefix(bars, signals, n);
      RunHoldsOnlySymbol(b0, bars, signals, n - 1, c);
      var prev := Run(b0, bars, signals, n - 1, c).book;
      StepHoldsOnlySymbol(prev, bars[n - 1], signals[n - 1], c);
      assert Run(b0, bars, signals, n, c).book == Step(prev, bars[n - 1], signals[n - 1], c).book;
    }
  }

  /** One bar adds no symbol but the traded one. */
  lemma StepHoldsOnlySymbol(b: Book, bar: Bar, signal: Signal, c: Config)
    requires (signal == Buy ==> bar.close != 0.0) && PositionsValid(b.positions)
    requires b.positions.Keys <= {c.symbol}
    ensures Step(b, bar, signal, c).book.positions.Keys <= {c.symbol}
  {
  }

  lemma OtherKeyAbsent(m: map<string, Position>, k: string, x: string)
    requires m.Keys <= {k} && x != k
    ensures x !in m
  {
  }

  /** Appending a BUY to a log of BUYs leaves a log of BUYs. */
  lemma AppendKeepsAllBuys(log: seq<Trade>, log': seq<Trade>)
    requires forall t :: t in log ==> t.signal == Buy
    requires log' == log || (|log'| == |log| + 1 && log'[..|log|] == log && log'[|log|].signal == Buy)
    ensures forall t :: t in log' ==> t.signal == Buy
  {
    if log' != log {
      assert log' == log + [log'[|log|]];
    }
  }

  /** Trading any symbol but "BTC/USDT" (main.py trades "BTC/USD"), no SELL is ever
      executed: SELL sizing looks up "BTC/USDT", finds nothing and returns 0, so
      every trade in the log is a BUY. */
  lemma {:induction false} OnlyBuysUnlessBtcUsdt(b0: Book, bars: seq<Bar>, signals: seq<Signal>, n: nat, c: Config)
    requires n <= |bars| && n <= |signals| && PricedBuys(bars, signals, n) && PositionsValid(b0.positions)
    requires c.symbol != SellSymbol && b0.positions.Keys <= {c.symbol}
    requires forall t :: t in b0.trades ==> t.signal == Buy
    ensures forall t :: t in Run(b0, bars, signals, n, c).book.trades ==> t.signal == Buy
  {
    if n > 0 {
      PricedBuysPrefix(bars, signals, n);
      OnlyBuysUnlessBtcUsdt(b0, bars, signals, n - 1, c);
      RunHoldsOnlySymbol(b0, bars, signals, n - 1, c);
      var prev := Run(b0, bars, signals, n - 1, c).book;
      var s := Step(Run(b0, bars, signals, n - 1, c).book, bars[n - 1], signals[n - 1], c);
      assert Run(b0, bars, signals, n, c).book == s.book;
      OtherKeyAbsent(prev.positions, c.symbol, SellSymbol);
      assert s.book.trades != prev.trades ==> signals[n - 1] == Buy;
      AppendKeepsAllBuys(prev.trades, s.book.trades);
    }
  }

  // ---------------------------------------------------------------------------
  // Maximum drawdown and the Sharpe ratio's guard.

  /** The expanding maximum of the values up to index t. */
  function RunningMax(v: seq<real>, t: nat): (m: real)
    requires t < |v|
    ensures forall j :: 0 <= j <= t ==> v[j] <= m
    ensures exists j :: 0 <= j <= t && v[j] == m
  {
    if t == 0 then v[0]
    else
      var prior := RunningMax(v, t - 1);
      if v[t] > prior then v[t] else prior
  }

  /** The drawdown at t, as a fraction of a non-zero peak so far. */
  function Drawdown(v: seq<real>, t: nat): real
    requires t < |v| && RunningMax(v, t) != 0.0
  {
    (v[t] - RunningMax(v, t)) / RunningMax(v, t)
  }

  /** A float drawdown: a finite number, NaN (0 / 0) or minus infinity (a negative
      value over a zero peak). */
  datatype Ratio = NaN | NegativeInfinity | Finite(value: real)

  /** The drawdown at t as the float division gives it. */
  function DrawdownAt(v: seq<real>, t: nat): (r: Ratio)
    requires t < |v|
    ensures r.Finite? <==> RunningMax(v, t) != 0.0
    ensures r.Finite? ==> r.value == Drawdown(v, t)
    ensures r == NaN <==> RunningMax(v, t) == 0.0 && v[t] == 0.0
    ensures r == NegativeInfinity ==> v[t] < 0.0
  {
    if RunningMax(v, t) != 0.0 then Finite(Drawdown(v, t))
    else if v[t] == 0.0 then NaN
    else NegativeInfinity
  }

  /** The smaller of two drawdowns, skipping NaN as `Series.min` does. */
  function MinSkipNaN(a: Ratio, b: Ratio): Ratio {
    if a == NaN then b
    else if b == NaN then a
    else if a == NegativeInfinity || b == NegativeInfinity then NegativeInfinity
    else if b.value < a.value then b
    else a
  }

  /** The drawdown series `(v - rolling_max) / rolling_max`. */
  function Drawdowns(v: seq<real>): (r: seq<Ratio>)
    ensures |r| == |v| && forall t :: 0 <= t < |v| ==> r[t] == DrawdownAt(v, t)
  {
    seq(|v|, t requires 0 <= t < |v| => DrawdownAt(v, t))
  }

  /** `Series.min`: the minimum with NaN skipped; NaN when nothing is left. */
  function NanMin(ds: seq<Ratio>): (r: Ratio)
    ensures r == NaN <==> forall i :: 0 <= i < |ds| ==> ds[i] == NaN
    ensures r == NegativeInfinity <==> exists i :: 0 <= i < |ds| && ds[i] == NegativeInfinity
    ensures r.Finite? ==> exists i :: 0 <= i < |ds| && ds[i] == r
    ensures r.Finite? ==> forall i :: 0 <= i < |ds| && ds[i].Finite? ==> r.value <= ds[i].value
  {
    if ds == [] then NaN
    else
      var prior := NanMin(ds[..|ds| - 1]);
      assert forall i :: 0 <= i < |ds| - 1 ==> ds[..|ds| - 1][i] == ds[i];
      MinSkipNaN(prior, ds[|ds| - 1])
  }

  /** `_calculate_max_drawdown`: the minimum of the drawdowns, NaN skipped. It is
      NaN for an empty series or one whose every drawdown is NaN, minus infinity
      when a negative value sits under a zero peak, and otherwise the smallest
      finite drawdown. */
  function MaxDrawdown(v: seq<real>): (r: Ratio)
    ensures r == NaN <==> forall t :: 0 <= t < |v| ==> Drawdowns(v)[t] == NaN
    ensures r == NegativeInfinity <==> exists t :: 0 <= t < |v| && Drawdowns(v)[t] == NegativeInfinity
    ensures r.Finite? ==> exists t :: 0 <= t < |v| && Drawdowns(v)[t] == r
    ensures r.Finite? ==> forall t :: 0 <= t < |v| && Drawdowns(v)[t].Finite? ==> r.value <= Drawdowns(v)[t].value
  {
    NanMin(Drawdowns(v))
  }

  /** A fall from a positive peak m to a positive value x is in (-1, 0]. */
  lemma FallFraction(x: real, m: real)
    requires 0.0 < x <= m
    ensures -1.0 < (x - m) / m <= 0.0
  {
    var d := (x - m) / m;
    assert d * m == x - m;
    assert (d + 1.0) * m == x;
  }

  /** With positive values, each drawdown is finite and in (-1, 0]. */
  lemma DrawdownBounds(v: seq<real>, t: nat)
    requires t < |v| && forall j :: 0 <= j < |v| ==> v[j] > 0.0
    ensures RunningMax(v, t) > 0.0
    ensures -1.0 < Drawdown(v, t) <= 0.0
  {
    FallFraction(v[t], RunningMax(v, t));
  }

  /** For positive values the maximum drawdown is finite and lies in (-1, 0]. */
  lemma MaxDrawdownBounds(v: seq<real>)
    requires v != [] && forall t :: 0 <= t < |v| ==> v[t] > 0.0
    ensures MaxDrawdown(v).Finite?
    ensures -1.0 < MaxDrawdown(v).value <= 0.0
  {
    DrawdownBounds(v, 0);
    assert DrawdownAt(v, 0) != NaN;
    forall t | 0 <= t < |v| ensures DrawdownAt(v, t) != NegativeInfinity {
      DrawdownBounds(v, t);
    }
    var d := MaxDrawdown(v);
    var t :| 0 <= t < |v| && DrawdownAt(v, t) == d;
    DrawdownBounds(v, t);
  }

  /** With a positive first value every peak is positive, so the maximum
      drawdown is a finite number. */
  lemma PositiveStartFinite(v: seq<real>)
    requires v != [] && v[0] > 0.0
    ensures MaxDrawdown(v).Finite?
  {
    assert DrawdownAt(v, 0) != NaN;
    forall t | 0 <= t < |v| ensures DrawdownAt(v, t).Finite? {
      assert v[0] <= RunningMax(v, t);
    }
  }

  /** [100, 120, 90, 110]: the peak 120 falls to 90, a drawdown of -0.25. */
  lemma MaxDrawdownExample()
    ensures MaxDrawdown([100.0, 120.0, 90.0, 110.0]) == Finite(-0.25)
  {
    var v := [100.0, 120.0, 90.0, 110.0];
    assert RunningMax(v, 0) == 100.0;
    assert RunningMax(v, 1) == 120.0;
    assert RunningMax(v, 2) == 120.0;
    assert RunningMax(v, 3) == 120.0;
    assert DrawdownAt(v, 0) == Finite(0.0);
    assert DrawdownAt(v, 1) == Finite(0.0);
    assert DrawdownAt(v, 2) == Finite(-0.25);
    assert DrawdownAt(v, 3) == Finite(-10.0 / 120.0);
    assert Drawdowns(v) == [Finite(0.0), Finite(0.0), Finite(-0.25), Finite(-10.0 / 120.0)];
  }

  /** [0, 10, 5]: the first drawdown is 0 / 0, which is skipped, so the result is
      the fall from 10 to 5. */
  lemma ZeroPeakSkipped()
    ensures MaxDrawdown([0.0, 10.0, 5.0]) == Finite(-0.5)
  {
    var v := [0.0, 10.0, 5.0];
    assert RunningMax(v, 0) == 0.0;
    assert RunningMax(v, 1) == 10.0;
    assert RunningMax(v, 2) == 10.0;
    assert DrawdownAt(v, 0) == NaN;
    assert DrawdownAt(v, 1) == Finite(0.0);
    assert DrawdownAt(v, 2) == Finite(-0.5);
    assert Drawdowns(v) == [NaN, Finite(0.0), Finite(-0.5)];
  }

  /** [0, -5]: a negative value under a zero peak is minus infinity. */
  lemma ZeroPeakUnbounded()
    ensures MaxDrawdown([0.0, -5.0]) == NegativeInfinity
  {
    var v := [0.0, -5.0];
    assert RunningMax(v, 1) == 0.0;
    assert DrawdownAt(v, 1) == NegativeInfinity;
  }

  const TradingDaysPerYear: real := 252.0
  const AnnualRiskFreeRate: real := 0.02

  /** `_calculate_sharpe_ratio` given the returns' standard deviation `std` and the
      annualisation factor `sqrtTradingDays` (the square root of 252), which are
      computed outside the model: exactly 0.0 with no returns or zero deviation. */
  function SharpeRatio(periodReturns: seq<real>, std: real, sqrtTradingDays: real): (r: real)
    ensures |periodReturns| == 0 || std == 0.0 ==> r == 0.0
    ensures |periodReturns| > 0 && std != 0.0 ==>
              r * std == (Mean(periodReturns) - AnnualRiskFreeRate / TradingDaysPerYear) * sqrtTradingDays
  {
    if |periodReturns| == 0 || std == 0.0 then 0.0
    else
      var excess := seq(|periodReturns|, i requires 0 <= i < |periodReturns| => periodReturns[i] - AnnualRiskFreeRate / TradingDaysPerYear);
      ExcessMean(periodReturns, AnnualRiskFreeRate / TradingDaysPerYear);
      Mean(excess) / std * sqrtTradingDays
  }

  lemma {:induction false} SumShifted(xs: seq<real>, c: real)
    ensures Sum(seq(|xs|, i requires 0 <= i < |xs| => xs[i] - c)) == Sum(xs) - |xs| as real * c
  {
    if xs != [] {
      SumShifted(xs[1..], c);
      var shifted := seq(|xs|, i requires 0 <= i < |xs| => xs[i] - c);
      assert shifted[1..] == seq(|xs[1..]|, i requires 0 <= i < |xs[1..]| => xs[1..][i] - c);
    }
  }

  /** The mean of the excess returns is the mean return less the daily rate. */
  lemma ExcessMean(xs: seq<real>, c: real)
    requires |xs| > 0
    ensures Mean(seq(|xs|, i requires 0 <= i < |xs| => xs[i] - c)) == Mean(xs) - c
  {
    SumShifted(xs, c);
    var n := |xs| as real;
    assert (Sum(xs) - n * c) / n == Sum(xs) / n - c;
  }

  // ---------------------------------------------------------------------------
  // The engine.

  /** One more bar extends the replay by one step. */
  lemma RunExtend(b0: Book, bars: seq<Bar>, signals: seq<Signal>, i: nat, c: Config,
                  book: Book, values: seq<real>, book': Book, value: real)
    requires i < |bars| && i < |signals| && PricedBuys(bars, signals, i + 1) && PositionsValid(b0.positions)
    requires Run(b0, bars, signals, i, c) == Replay(book, values)
    requires Step(book, bars[i], signals[i], c) == StepResult(book', signals[i], value)
    ensures Run(b0, bars, signals, i + 1, c) == Replay(book', values + [value])
  {
  }

  lemma PrefixExtend<T>(s: seq<T>, i: nat)
    requires i < |s|
    ensures s[..i] + [s[i]] == s[..i + 1]
  {
  }

  datatype BacktestResult = BacktestResult(
    metrics: Metrics,
    maxDrawdown: Ratio,
    portfolioValues: seq<real>,
    signals: seq<Signal>,
    bars: seq<Bar>,
    /** `total_commission_paid`, as the source computes it. */
    totalCommissionPaid: real,
    /** Not a key of the source's results: the commission actually charged. */
    commissionCharged: real,
    startDate: int,
    endDate: int,
    timeframe: string,
    symbol: string)

  datatype BacktestError = NoHistoricalData | MetricsFailed(error: MetricsError)

  /** `total_commission_paid` as the source computes it: the number of trades
      times the rate, whatever their notional. */
  function CommissionPaidAsReported(trades: seq<Trade>, rate: real): (r: real)
    ensures r == 0.0 <==> trades == [] || rate == 0.0
    ensures rate >= 0.0 ==> r >= 0.0
  {
    |trades| as real * rate
  }

  /** The commission charged on the trades in the log: the sum of
      price * quantity * rate, which is what the replay debits. */
  function CommissionCharged(trades: seq<Trade>, rate: real): real {
    if trades == [] then 0.0
    else CommissionCharged(trades[..|trades| - 1], rate) + Commission(trades[|trades| - 1], rate)
  }

  /** With a non-negative rate, prices and quantities, the charged total is never
      negative. */
  lemma {:induction false} CommissionChargedNonNegative(trades: seq<Trade>, rate: real)
    requires rate >= 0.0
    requires forall i :: 0 <= i < |trades| ==> trades[i].price >= 0.0 && trades[i].quantity >= 0.0
    ensures CommissionCharged(trades, rate) >= 0.0
  {
    if trades != [] {
      var last := trades[|trades| - 1];
      CommissionChargedNonNegative(trades[..|trades| - 1], rate);
      assert last.price * last.quantity >= 0.0;
      assert Commission(last, rate) >= 0.0;
    }
  }

  lemma CommissionChargedAppend(trades: seq<Trade>, t: Trade, rate: real)
    ensures CommissionCharged(trades + [t], rate) == CommissionCharged(trades, rate) + Commission(t, rate)
  {
    assert (trades + [t])[..|trades|] == trades;
  }

  /** One affordable BUY of 1 unit at 100 with a 0.1% rate: the bar debits 0.1 of
      commission, while the reported total for the one-trade log is 0.001. */
  lemma ReportedCommissionUndercounts()
    ensures var c := Config(1, 1, 0.01, "BTC/USD", 0.001);
            var b0 := Book(10000.0, map[], []);
            var bar := Bar(0, 100.0, 100.0, 100.0, 100.0, 1.0);
            && Traded(b0, bar, Buy, c).trades == [Trade(0, Buy, 100.0, 1.0, Reason(Buy))]
            && Debit(b0, bar, Buy, c) == 0.1
            && CommissionCharged(Traded(b0, bar, Buy, c).trades, c.commissionRate) == 0.1
            && CommissionPaidAsReported(Traded(b0, bar, Buy, c).trades, c.commissionRate) == 0.001
  {
    var c := Config(1, 1, 0.01, "BTC/USD", 0.001);
    var b0 := Book(10000.0, map[], []);
    var bar := Bar(0, 100.0, 100.0, 100.0, 100.0, 1.0);
    assert PositionSize(Buy, 100.0, 10000.0, map[], 0.01) == 1.0;
    var t := Trade(0, Buy, 100.0, 1.0, Reason(Buy));
    AffordableBuy(b0, 1.0, 100.0, 0, c.symbol);
    assert Executed(b0, bar, Buy, c).trade == Some(t);
    assert Executed(b0, bar, Buy, c).book.balance == 9900.0;
    TradedDebit(b0, bar, Buy, c);
    assert Traded(b0, bar, Buy, c).trades == [t];
    CommissionChargedAppend([], t, c.commissionRate);
    assert [] + [t] == [t];
  }

  /** The indicator map after the first n bars: the SMA series are written on every
      bar with a full long window, so the last write wins. */
  ghost function IndicatorsAfter(ind0: map<string, seq<Option<real>>>, bars: seq<Bar>, n: nat, c: Config): map<string, seq<Option<real>>>
    requires n <= |bars|
  {
    if n == 0 || n < c.longWindow then ind0
    else ind0["short_sma" := SmaSeries(Closes(bars[..n]), c.shortWindow)]
             ["long_sma" := SmaSeries(Closes(bars[..n]), c.longWindow)]
  }

  /** The results assembled from the final metrics and the replay; a failure of
      the metrics propagates. */
  ghost function Report(metrics: Result<Metrics, MetricsError>, replay: Replay, signals: seq<Signal>, bars: seq<Bar>, c: Config,
                        startDate: int, endDate: int, timeframe: string): (r: Result<BacktestResult, BacktestError>)
    ensures metrics.Failure? ==> r == Failure(MetricsFailed(metrics.error))
    ensures metrics.Success? ==>
              && r.Success? && r.value.metrics == metrics.value
              && r.value.maxDrawdown == MaxDrawdown(replay.values)
              && r.value.portfolioValues == replay.values && r.value.signals == signals && r.value.bars == bars
              && r.value.totalCommissionPaid == CommissionPaidAsReported(replay.book.trades, c.commissionRate)
              && r.value.commissionCharged == CommissionCharged(replay.book.trades, c.commissionRate)
              && r.value.startDate == startDate && r.value.endDate == endDate
              && r.value.timeframe == timeframe && r.value.symbol == c.symbol
  {
    match metrics
    case Failure(e) => Failure(MetricsFailed(e))
    case Success(m) =>
      Success(BacktestResult(m, MaxDrawdown(replay.values), replay.values, signals, bars,
                             CommissionPaidAsReported(replay.book.trades, c.commissionRate),
                             CommissionCharged(replay.book.trades, c.commissionRate),
                             startDate, endDate, timeframe, c.symbol))
  }

  class BacktestEngine {
    const strategy: SmaCrossoverStrategy
    /** Kept as given; the run never reads or moves it (the strategy's own cash is what moves). */
    const initialBalance: real
    const commissionRate: real
    var results: Option<BacktestResult>

    constructor (strategy: SmaCrossoverStrategy, initialBalance: real, commissionRate: real)
      ensures this.strategy == strategy && this.initialBalance == initialBalance
      ensures this.commissionRate == commissionRate && results == None
    {
      this.strategy := strategy;
      this.initialBalance := initialBalance;
      this.commissionRate := commissionRate;
      results := None;
    }

    function RunConfig(symbol: string): Config
    {
      Config(strategy.shortWindow, strategy.longWindow, strategy.positionSizePct, symbol, commissionRate)
    }

    /** The trading part of the replay loop's body for one bar and its signal:
        execute a non-HOLD signal at the close and debit commission on the
        quantity the trade records. */
    method TradeBar(bar: Bar, signal: Signal, symbol: string)
      requires strategy.Valid() && (signal == Buy ==> bar.close != 0.0)
      modifies strategy`balance, strategy`positions, strategy`trades
      ensures strategy.Valid()
      ensures strategy.Ledger() == Traded(old(strategy.Ledger()), bar, signal, RunConfig(symbol))
    {
      var c := RunConfig(symbol);
      ghost var before := strategy.Ledger();
      if signal != Hold {
        ghost var ex := Execute(before, signal, PositionSize(signal, bar.close, before.balance, before.positions, c.positionSizePct),
                                bar.close, bar.timestamp, c.symbol);
        var trade := strategy.ExecuteTrade(signal, bar.close, bar.timestamp, symbol);
        ghost var executed := strategy.Ledger();
        assert executed == ex.book && trade == ex.trade;
        if trade.Some? {
          strategy.balance := strategy.balance - Commission(trade.value, c.commissionRate);
        }
        assert strategy.Ledger() == ApplyCommission(Execution(executed, trade), c.commissionRate);
      }
    }

    /** The ledger part of the replay loop's body for one bar and its signal:
        trade, then value the ledger at the close. */
    method ExecuteBar(bar: Bar, signal: Signal, symbol: string) returns (value: real)
      requires strategy.Valid() && (signal == Buy ==> bar.close != 0.0)
      modifies strategy`balance, strategy`positions, strategy`trades
      ensures strategy.Valid()
      ensures Step(old(strategy.Ledger()), bar, signal, RunConfig(symbol)) == StepResult(strategy.Ledger(), signal, value)
    {
      TradeBar(bar, signal, symbol);
      ghost var traded := strategy.Ledger();
      value := strategy.GetPortfolioValue(BarPrices(RunConfig(symbol), bar));
      assert StepResult(strategy.Ledger(), signal, value) == Settle(traded, bar, signal, RunConfig(symbol));
    }

    /** The signal part of the replay loop's body: `generate_signal` on the bars so
        far, which also records the SMA series once the long window is full. */
    method SignalBar(bars: seq<Bar>, i: nat, symbol: string, ghost ind0: map<string, seq<Option<real>>>)
      returns (signal: Signal)
      requires strategy.Valid() && i < |bars|
      requires strategy.indicators == IndicatorsAfter(ind0, bars, i, RunConfig(symbol))
      modifies strategy`indicators
      ensures signal == Signals(bars, RunConfig(symbol))[i]
      ensures strategy.indicators == IndicatorsAfter(ind0, bars, i + 1, RunConfig(symbol))
    {
      signal := strategy.GenerateSignal(bars[..i + 1]);
      assert bars[..i + 1] == bars[..i + 1][..i + 1];
    }

    /** One pass of the replay loop's body: signal on bars 0..i, then trade and
        value bar i, extending the replay by one bar. */
    method ReplayBar(bars: seq<Bar>, i: nat, symbol: string, ghost b0: Book,
                     ghost ind0: map<string, seq<Option<real>>>, ghost values: seq<real>)
      returns (signal: Signal, value: real)
      requires strategy.Valid() && i < |bars| && PositionsValid(b0.positions)
      requires NoBuyAtZeroClose(bars, Signals(bars, RunConfig(symbol)))
      requires PricedBuys(bars, Signals(bars, RunConfig(symbol)), i)
      requires Run(b0, bars, Signals(bars, RunConfig(symbol)), i, RunConfig(symbol)) == Replay(strategy.Ledger(), values)
      requires strategy.indicators == IndicatorsAfter(ind0, bars, i, RunConfig(symbol))
      modifies strategy`balance, strategy`positions, strategy`trades, strategy`indicators
      ensures strategy.Valid()
      ensures signal == Signals(bars, RunConfig(symbol))[i]
      ensures PricedBuys(bars, Signals(bars, RunConfig(symbol)), i + 1)
      ensures Run(b0, bars, Signals(bars, RunConfig(symbol)), i + 1, RunConfig(symbol)) ==
              Replay(strategy.Ledger(), values + [value])
      ensures strategy.indicators == IndicatorsAfter(ind0, bars, i + 1, RunConfig(symbol))
    {
      var c := RunConfig(symbol);
      ghost var all := Signals(bars, c);
      ghost var before := strategy.Ledger();
      assert all[i] == Buy ==> bars[i].close != 0.0;
      signal := SignalBar(bars, i, symbol, ind0);
      value := ExecuteBar(bars[i], signal, symbol);
      RunExtend(b0, bars, all, i, c, before, values, strategy.Ledger(), value);
    }

    /** The replay loop of `run_backtest`: bar by bar, signal, trade and value. */
    method ReplayBars(bars: seq<Bar>, symbol: string) returns (signals: seq<Signal>, portfolioValues: seq<real>)
      requires strategy.Valid() && NoBuyAtZeroClose(bars, Signals(bars, RunConfig(symbol)))
      modifies strategy`balance, strategy`positions, strategy`trades, strategy`indicators
      ensures strategy.Valid()
      ensures signals == Signals(bars, RunConfig(symbol))
      ensures PricedBuys(bars, signals, |bars|)
      ensures Run(old(strategy.Ledger()), bars, signals, |bars|, RunConfig(symbol)) ==
              Replay(strategy.Ledger(), portfolioValues)
      ensures strategy.indicators == IndicatorsAfter(old(strategy.indicators), bars, |bars|, RunConfig(symbol))
    {
      var c := RunConfig(symbol);
      ghost var b0 := strategy.Ledger();
      ghost var ind0 := strategy.indicators;
      ghost var all := Signals(bars, c);
      portfolioValues := [];
      signals := [];
      var i := 0;
      while i < |bars|
        invariant 0 <= i <= |bars|
        invariant strategy.Valid()
        invariant c == RunConfig(symbol)
        invariant signals == all[..i]
        invariant PricedBuys(bars, all, i)
        invariant Run(b0, bars, all, i, c) == Replay(strategy.Ledger(), portfolioValues)
        invariant strategy.indicators == IndicatorsAfter(ind0, bars, i, c)
      {
        var signal, value := ReplayBar(bars, i, symbol, b0, ind0, portfolioValues);
        PrefixExtend(all, i);
        signals := signals + [signal];
        portfolioValues := portfolioValues + [value];
        i := i + 1;
      }
      assert signals == all;
    }

    /** `run_backtest` on an already fetched series. */
    method RunBacktest(bars: seq<Bar>, symbol: string, startDate: int, endDate: int, timeframe: string)
      returns (r: Result<BacktestResult, BacktestError>)
      requires strategy.Valid() && NoBuyAtZeroClose(bars, Signals(bars, RunConfig(symbol)))
      modifies this, strategy
      ensures strategy.Valid()
      ensures PricedBuys(bars, Signals(bars, RunConfig(symbol)), |bars|)
      ensures bars == [] ==> r == Failure(NoHistoricalData) && unchanged(strategy) && results == old(results)
      ensures bars != [] ==>
                var signals := Signals(bars, RunConfig(symbol));
                var replay := Run(old(strategy.Ledger()), bars, signals, |bars|, RunConfig(symbol));
                var lastPrices := BarPrices(RunConfig(symbol), bars[|bars| - 1]);
                && strategy.Ledger() == replay.book
                && strategy.indicators == IndicatorsAfter(old(strategy.indicators), bars, |bars|, RunConfig(symbol))
                && r == Report(PerformanceMetrics(strategy.initialBalance, replay.book, lastPrices), replay, signals, bars,
                               RunConfig(symbol), startDate, endDate, timeframe)
                && results == (if r.Success? then Some(r.value) else old(results))
    {
      if bars == [] {
        return Failure(NoHistoricalData);
      }
      var c := RunConfig(symbol);
      var signals, portfolioValues := ReplayBars(bars, symbol);
      var lastPrices := BarPrices(c, bars[|bars| - 1]);
      ghost var final := strategy.Ledger();
      var metrics := strategy.GetPerformanceMetrics(lastPrices);
      assert strategy.positions == final.positions;
      match metrics {
        case Failure(e) =>
          r := Failure(MetricsFailed(e));
        case Success(m) =>
          var report := BacktestResult(m, MaxDrawdown(portfolioValues), portfolioValues, signals, bars,
                                       CommissionPaidAsReported(strategy.trades, commissionRate),
                                       CommissionCharged(strategy.trades, commissionRate),
                                       startDate, endDate, timeframe, symbol);
          results := Some(report);
          r := Success(report);
      }
    }
  }
}
