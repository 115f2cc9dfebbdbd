/**
  The long-only, all-in, single-market backtest (application/backtest.py). `Simulate`
  says what the engine holds after `n` candles; `Run` is the engine's own loop, proved
  to compute it.
 */
module Backtest {
  import opened Candles
  import opened Drawdown
  import opened Rounding
  import opened Sorting
  import opened Wrappers

  datatype Action = GoLong | GoFlat | Hold

  datatype Side = Buy | Sell

  datatype Signal = Signal(action: Action, candleTimestamp: int)

  /** A strategy sees a prefix of the candles and nothing else; it may raise. */
  datatype Strategy = Strategy(requiredHistory: int, evaluate: seq<Candle> -> Result<Signal, string>)

  datatype ConfigRecord = ConfigRecord(
    exchange: string, symbol: string, timeframe: Timeframe, startTime: int, endTime: int,
    initialCapital: real, feeRate: real, slippageBps: real)

  /** The bounds of the configuration model: a fee rate strictly below one, slippage up to 1000 bps. */
  type Config = c: ConfigRecord |
      c.initialCapital > 0.0 && 0.0 <= c.feeRate < 1.0 && 0.0 <= c.slippageBps <= 1000.0
    witness ConfigRecord("", "", OneMinute, 0, 0, 1.0, 0.0, 0.0)

  datatype Trade = Trade(
    sequence: int, side: Side, signalTime: int, executionTime: int,
    price: real, quantity: real, fee: real, realizedPnl: Option<real>)

  datatype Error = NoCandles | DuplicateTimestamps | WrongMarket | UnpriceableTrade | StrategyFailed(reason: string)

  /** Everything the loop carries from one candle to the next. */
  datatype Book = Book(
    cash: real, quantity: real, openCost: real, totalFees: real, pending: Option<Signal>,
    trades: seq<Trade>, realized: seq<real>, curve: seq<real>, exposed: nat)

  // ---------- input ----------

  function InPeriod(candles: seq<Candle>, cfg: Config): seq<Candle> {
    if |candles| == 0 then []
    else
      (if cfg.startTime <= candles[0].timestamp <= cfg.endTime then [candles[0]] else [])
      + InPeriod(candles[1..], cfg)
  }

  predicate OfMarket(c: Candle, cfg: Config) {
    c.exchange == cfg.exchange && c.symbol == cfg.symbol && c.timeframe == cfg.timeframe
  }

  /** The candles of the period in time order, or the validation error. */
  function Prepare(candles: seq<Candle>, cfg: Config): Result<seq<Candle>, Error> {
    var ordered := Sort(OpenTime, InPeriod(candles, cfg));
    if |ordered| == 0 then Err(NoCandles)
    else if !DistinctKeys(OpenTime, ordered) then Err(DuplicateTimestamps)
    else if exists i :: 0 <= i < |ordered| && !OfMarket(ordered[i], cfg) then Err(WrongMarket)
    else Ok(ordered)
  }

  // ---------- one candle ----------

  function ExecutionPrice(price: real, side: Side, slippageBps: real): real {
    var adjustment := slippageBps / 10000.0;
    price * (if side == Buy then 1.0 + adjustment else 1.0 - adjustment)
  }

  /** The price of a fill at this open, slippage included. */
  function FillPrice(open: real, side: Side, slippageBps: real): real {
    Quantize(ExecutionPrice(open, side, slippageBps))
  }

  /** The part of the cash that can be spent once its own fee is set aside. */
  function Spendable(cash: real, feeRate: real): real
    requires feeRate >= 0.0
  {
    Quantize(cash / (1.0 + feeRate))
  }

  function FeeOn(gross: real, feeRate: real): real {
    Quantize(gross * feeRate)
  }

  function QuantityFor(gross: real, price: real): real
    requires price > 0.0
  {
    Quantize(gross / price)
  }

  function Notional(quantity: real, price: real): real {
    Quantize(quantity * price)
  }

  /** Cash plus the position at a price. */
  function Equity(cash: real, quantity: real, price: real): real {
    Quantize(cash + quantity * price)
  }

  function Unrealized(quantity: real, openCost: real, price: real): real {
    if quantity > 0.0 then Quantize(quantity * price - openCost) else 0.0
  }

  function OpeningBook(cfg: Config): Book {
    Book(cfg.initialCapital, 0.0, 0.0, 0.0, None, [], [], [cfg.initialCapital], 0)
  }

  function BuyAllIn(cfg: Config, book: Book, candle: Candle, signal: Signal): Result<Book, Error> {
    var price := FillPrice(candle.open, Buy, cfg.slippageBps);
    var gross := Spendable(book.cash, cfg.feeRate);
    var fee := FeeOn(gross, cfg.feeRate);
    if price <= 0.0 then Err(UnpriceableTrade)
    else
      var quantity := QuantityFor(gross, price);
      if quantity <= 0.0 then Err(UnpriceableTrade)
      else
        Ok(book.(
           cash := 0.0, quantity := quantity, openCost := Quantize(gross + fee),
           totalFees := book.totalFees + fee,
           trades := book.trades +
           [Trade(|book.trades| + 1, Buy, signal.candleTimestamp, candle.timestamp, price, quantity, fee, None)]))
  }

  function SellAll(cfg: Config, book: Book, candle: Candle, signal: Signal): Result<Book, Error> {
    var price := FillPrice(candle.open, Sell, cfg.slippageBps);
    var gross := Notional(book.quantity, price);
    var fee := FeeOn(gross, cfg.feeRate);
    var proceeds := Quantize(gross - fee);
    var pnl := Quantize(proceeds - book.openCost);
    if price <= 0.0 then Err(UnpriceableTrade)
    else
      Ok(book.(
         cash := proceeds, quantity := 0.0, openCost := 0.0,
         totalFees := book.totalFees + fee,
         trades := book.trades +
         [Trade(|book.trades| + 1, Sell, signal.candleTimestamp, candle.timestamp, price, book.quantity, fee,
                Some(pnl))],
         realized := book.realized + [pnl]))
  }

  /** The pending signal acts at this candle's open, if it can. */
  function Execute(cfg: Config, book: Book, candle: Candle): Result<Book, Error> {
    match book.pending
    case None => Ok(book)
    case Some(signal) =>
      if signal.action == GoLong && book.quantity == 0.0 then BuyAllIn(cfg, book, candle, signal)
      else if signal.action == GoFlat && book.quantity > 0.0 then SellAll(cfg, book, candle, signal)
      else Ok(book)
  }

  /** The close values the book, and the strategy sees the candles up to and including this one. */
  function Observe(strategy: Strategy, book: Book, seen: seq<Candle>): Result<Book, Error>
    requires |seen| > 0
  {
    var marked := book.(
                  exposed := if book.quantity > 0.0 then book.exposed + 1 else book.exposed,
                  curve := book.curve + [Equity(book.cash, book.quantity, seen[|seen| - 1].close)],
                  pending := None);
    if |seen| < strategy.requiredHistory then Ok(marked)
    else
      match strategy.evaluate(seen)
      case Err(reason) => Err(StrategyFailed(reason))
      case Ok(signal) => Ok(marked.(pending := Some(signal)))
  }

  /** The book after the first `n` candles. */
  function Simulate(strategy: Strategy, cfg: Config, ordered: seq<Candle>, n: nat): Result<Book, Error>
    requires n <= |ordered|
  {
    if n == 0 then Ok(OpeningBook(cfg))
    else
      match Simulate(strategy, cfg, ordered, n - 1)
      case Err(e) => Err(e)
      case Ok(before) =>
        match Execute(cfg, before, ordered[n - 1])
        case Err(e) => Err(e)
        case Ok(traded) => Observe(strategy, traded, ordered[..n])
  }

  /** Once a candle raises, the run is over. */
  lemma {:induction false} ErrorsPersist(strategy: Strategy, cfg: Config, ordered: seq<Candle>, m: nat, n: nat)
    requires m <= n <= |ordered| && Simulate(strategy, cfg, ordered, m).Err?
    ensures Simulate(strategy, cfg, ordered, n) == Simulate(strategy, cfg, ordered, m)
  {
    if m < n {
      ErrorsPersist(strategy, cfg, ordered, m, n - 1);
    }
  }

  // ---------- the whole run ----------

  function CountSide(trades: seq<Trade>, side: Side): nat {
    if |trades| == 0 then 0
    else CountSide(trades[..|trades| - 1], side) + (if trades[|trades| - 1].side == side then 1 else 0)
  }

  function CountWins(results: seq<real>): nat {
    if |results| == 0 then 0
    else CountWins(results[..|results| - 1]) + (if results[|results| - 1] > 0.0 then 1 else 0)
  }

  function CountLosses(results: seq<real>): nat {
    if |results| == 0 then 0
    else CountLosses(results[..|results| - 1]) + (if results[|results| - 1] < 0.0 then 1 else 0)
  }

  function Gained(results: seq<real>): real {
    if |results| == 0 then 0.0
    else Gained(results[..|results| - 1]) + (if results[|results| - 1] > 0.0 then results[|results| - 1] else 0.0)
  }

  function Lost(results: seq<real>): real {
    if |results| == 0 then 0.0
    else Lost(results[..|results| - 1]) + (if results[|results| - 1] < 0.0 then -results[|results| - 1] else 0.0)
  }

  datatype Report = Report(
    endingEquity: real, absolutePnl: real, unrealizedPnl: real, entries: nat, exits: nat,
    completed: nat, wins: nat, losses: nat, grossProfit: real, grossLoss: real,
    totalFees: real, drawdownAmount: real, drawdownPct: real,
    trades: seq<Trade>, realized: seq<real>, curve: seq<real>, exposed: nat, candleCount: nat)

  /** The report agrees with the final book on every field the book determines. */
  ghost predicate Reports(report: Report, cfg: Config, book: Book, ordered: seq<Candle>)
    requires |ordered| > 0
  {
    var close := ordered[|ordered| - 1].close;
    && report.endingEquity == Equity(book.cash, book.quantity, close)
    && report.absolutePnl == Quantize(report.endingEquity - cfg.initialCapital)
    && report.unrealizedPnl == Quantize(Unrealized(book.quantity, book.openCost, close))
    && report.entries == CountSide(book.trades, Buy) && report.exits == CountSide(book.trades, Sell)
    && report.completed == |book.realized|
    && report.wins == CountWins(book.realized) && report.losses == CountLosses(book.realized)
    && report.grossProfit == Quantize(Gained(book.realized)) && report.grossLoss == Quantize(Lost(book.realized))
    && report.totalFees == Quantize(book.totalFees)
    && report.trades == book.trades && report.realized == book.realized && report.curve == book.curve
    && report.exposed == book.exposed && report.candleCount == |ordered|
    && (exists i, j :: WorstFall(book.curve, i, j) && report.drawdownAmount == Quantize(Fall(book.curve, i, j)))
    && (EquityLike(book.curve) ==>
          exists i, j :: WorstFallPct(book.curve, i, j) && report.drawdownPct == Quantize(FallPct(book.curve, i, j)))
  }

  /** One pass over the candles, updating the book in place. */
  method Run(strategy: Strategy, candles: seq<Candle>, cfg: Config) returns (r: Result<Report, Error>)
    ensures Prepare(candles, cfg).Err? ==> r == Err(Prepare(candles, cfg).error)
    ensures Prepare(candles, cfg).Ok? ==>
              var ordered := Prepare(candles, cfg).value;
              match Simulate(strategy, cfg, ordered, |ordered|)
              case Err(e) => r == Err(e)
              case Ok(book) => r.Ok? && |ordered| > 0 && Reports(r.value, cfg, book, ordered)
  {
    hide Quantize, FillPrice, Spendable, FeeOn, QuantityFor, Notional, Equity, Unrealized;
    var prepared := Prepare(candles, cfg);
    if prepared.Err? {
      return Err(prepared.error);
    }
    var ordered := prepared.value;
    var simulated := RunOrdered(strategy, ordered, cfg);
    if simulated.Err? {
      return Err(simulated.error);
    }
    var book := simulated.value;
    CurveLength(strategy, cfg, ordered, |ordered|);
    var close := ordered[|ordered| - 1].close;
    var endingEquity := Equity(book.cash, book.quantity, close);
    var amount, pct := MaximumDrawdown(book.curve);
    r := Ok(Report(
           endingEquity, Quantize(endingEquity - cfg.initialCapital),
           Quantize(Unrealized(book.quantity, book.openCost, close)),
           CountSide(book.trades, Buy), CountSide(book.trades, Sell), |book.realized|,
           CountWins(book.realized), CountLosses(book.realized),
           Quantize(Gained(book.realized)), Quantize(Lost(book.realized)),
           Quantize(book.totalFees), amount, pct,
           book.trades, book.realized, book.curve, book.exposed, |ordered|));
  }

  lemma {:induction false} CurveLength(strategy: Strategy, cfg: Config, ordered: seq<Candle>, n: nat)
    requires n <= |ordered| && Simulate(strategy, cfg, ordered, n).Ok?
    ensures |Simulate(strategy, cfg, ordered, n).value.curve| == n + 1
  {
    if n > 0 {
      CurveLength(strategy, cfg, ordered, n - 1);
    }
  }

  method RunOrdered(strategy: Strategy, ordered: seq<Candle>, cfg: Config) returns (r: Result<Book, Error>)
    ensures r == Simulate(strategy, cfg, ordered, |ordered|)
  {
    hide Execute, Observe;
    var book := OpeningBook(cfg);
    var index := 0;
    while index < |ordered|
      invariant 0 <= index <= |ordered|
      invariant Simulate(strategy, cfg, ordered, index) == Ok(book)
    {
      var traded := ActOnSignal(cfg, book, ordered[index]);
      if traded.Err? {
        ErrorsPersist(strategy, cfg, ordered, index + 1, |ordered|);
        return Err(traded.error);
      }
      var observed := CloseCandle(strategy, traded.value, ordered[..index + 1]);
      if observed.Err? {
        ErrorsPersist(strategy, cfg, ordered, index + 1, |ordered|);
        return Err(observed.error);
      }
      book := observed.value;
      index := index + 1;
    }
    r := Ok(book);
  }

  /** The first half of a candle: the signal that is pending is carried out at the open. */
  method ActOnSignal(cfg: Config, book: Book, candle: Candle) returns (r: Result<Book, Error>)
    ensures r == Execute(cfg, book, candle)
  {
    hide BuyAllIn, SellAll;
    r := Ok(book);
    if book.pending.Some? {
      var signal := book.pending.value;
      if signal.action == GoLong && book.quantity == 0.0 {
        r := EnterPosition(cfg, book, candle, signal);
      } else if signal.action == GoFlat && book.quantity > 0.0 {
        r := LeavePosition(cfg, book, candle, signal);
      }
    }
  }

  /** The second half of a candle: the book is valued at the close, and the strategy sees one candle more. */
  method CloseCandle(strategy: Strategy, traded: Book, seen: seq<Candle>) returns (r: Result<Book, Error>)
    requires |seen| > 0
    ensures r == Observe(strategy, traded, seen)
  {
    hide Equity;
    var book := traded;
    if book.quantity > 0.0 {
      book := book.(exposed := book.exposed + 1);
    }
    book := book.(curve := book.curve + [Equity(book.cash, book.quantity, seen[|seen| - 1].close)]);
    book := book.(pending := None);
    if |seen| >= strategy.requiredHistory {
      var evaluated := strategy.evaluate(seen);
      if evaluated.Err? {
        return Err(StrategyFailed(evaluated.error));
      }
      book := book.(pending := Some(evaluated.value));
    }
    r := Ok(book);
  }

  method EnterPosition(cfg: Config, before: Book, candle: Candle, signal: Signal) returns (r: Result<Book, Error>)
    ensures r == BuyAllIn(cfg, before, candle, signal)
  {
    hide Quantize, FillPrice, Spendable, FeeOn, QuantityFor, Notional, Equity, Unrealized;
    var book := before;
    var executionPrice := FillPrice(candle.open, Buy, cfg.slippageBps);
    var gross := Spendable(book.cash, cfg.feeRate);
    var fee := FeeOn(gross, cfg.feeRate);
    if executionPrice <= 0.0 {
      return Err(UnpriceableTrade);
    }
    book := book.(quantity := QuantityFor(gross, executionPrice));
    book := book.(openCost := Quantize(gross + fee));
    book := book.(cash := 0.0);
    book := book.(totalFees := book.totalFees + fee);
    if book.quantity <= 0.0 {
      return Err(UnpriceableTrade);
    }
    book := book.(trades := book.trades + [Trade(|book.trades| + 1, Buy, signal.candleTimestamp, candle.timestamp,
                                                 executionPrice, book.quantity, fee, None)]);
    r := Ok(book);
  }

  method LeavePosition(cfg: Config, before: Book, candle: Candle, signal: Signal) returns (r: Result<Book, Error>)
    ensures r == SellAll(cfg, before, candle, signal)
  {
    hide Quantize, FillPrice, Spendable, FeeOn, QuantityFor, Notional, Equity, Unrealized;
    var book := before;
    var executionPrice := FillPrice(candle.open, Sell, cfg.slippageBps);
    var gross := Notional(book.quantity, executionPrice);
    var fee := FeeOn(gross, cfg.feeRate);
    var proceeds := Quantize(gross - fee);
    var realizedPnl := Quantize(proceeds - book.openCost);
    book := book.(cash := proceeds);
    book := book.(totalFees := book.totalFees + fee);
    if executionPrice <= 0.0 {
      return Err(UnpriceableTrade);
    }
    book := book.(trades := book.trades + [Trade(|book.trades| + 1, Sell, signal.candleTimestamp, candle.timestamp,
                                                 executionPrice, book.quantity, fee, Some(realizedPnl))]);
    book := book.(realized := book.realized + [realizedPnl]);
    book := book.(quantity := 0.0);
    book := book.(openCost := 0.0);
    r := Ok(book);
  }
}
