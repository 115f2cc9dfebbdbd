/** The values of PAPER trading (domain/models/order.py, paper.py, risk.py, market.py). */
module PaperDomain {
  import opened Wrappers

  datatype Side = Buy | Sell

  datatype SignalAction = BuySignal | SellSignal | HoldSignal

  datatype SystemState = Enabled | Paused | Killed

  datatype ExecutionMode = BacktestMode | PaperMode | TestnetMode | LiveMode

  datatype IntentStatus = Approved | Rejected | Executing | PartiallyFilled | Filled | Cancelled | Failed

  datatype MarketKey = MarketKey(exchange: string, symbol: string)

  datatype Market = Market(key: MarketKey, quoteAsset: string, active: bool)

  datatype TickerRecord = TickerRecord(key: MarketKey, bid: real, ask: real, last: real, timestamp: int)

  type Ticker = t: TickerRecord | 0.0 < t.bid <= t.ask && 0.0 < t.last
    witness TickerRecord(MarketKey("", ""), 1.0, 1.0, 1.0, 0)

  type Quantity = q: real | q > 0.0 witness 1.0

  type NonNegative = q: real | q >= 0.0

  datatype Signal = Signal(action: SignalAction, key: MarketKey, strategy: string, version: string)

  // ---------- time: microseconds since the epoch ----------

  const SECOND: int := 1_000_000
  const MINUTE: int := 60 * SECOND
  const DAY: int := 86_400 * SECOND

  function Day(t: int): int {
    t / DAY
  }

  // ---------- settings ----------

  datatype ConfigRecord = ConfigRecord(
    mode: ExecutionMode, quoteAsset: string, initialBalance: real, feeRate: real, slippageBps: real,
    maxPositionPct: real, maxDailyLossPct: real, maxOpenPositions: int, maxSpreadBps: real,
    staleSeconds: int, cooldownMinutes: int)

  /** The bounds that the settings impose. */
  type Config = c: ConfigRecord |
      && c.initialBalance > 0.0 && 0.0 <= c.feeRate <= 1.0 && 0.0 <= c.slippageBps <= 10000.0
      && 0.0 <= c.maxPositionPct <= 1.0 && 0.0 <= c.maxDailyLossPct <= 1.0 && c.maxOpenPositions >= 1
      && c.maxSpreadBps >= 0.0 && c.staleSeconds >= 1 && c.cooldownMinutes >= 0
    witness ConfigRecord(PaperMode, "", 1.0, 0.0, 0.0, 0.0, 0.0, 1, 0.0, 1, 0)

  // ---------- risk ----------

  datatype DecisionRecord = DecisionRecord(
    approved: bool, reasons: seq<string>, requestedSize: real, approvedSize: real)

  /** An approval has a positive size and no reasons; a rejection approves nothing. */
  predicate ValidDecision(d: DecisionRecord) {
    && d.requestedSize > 0.0
    && (d.approved ==> d.reasons == [] && d.approvedSize > 0.0)
    && (!d.approved ==> d.approvedSize == 0.0)
  }

  type RiskDecision = d: DecisionRecord | ValidDecision(d)
    witness DecisionRecord(false, [], 1.0, 0.0)

  datatype RiskState = RiskState(
    systemState: SystemState, tradingDay: int, startingEquity: real, realizedPnl: real,
    peakEquity: real, drawdown: real, cooldownUntil: Option<int>, openPositions: int, updatedAt: int)

  datatype RiskContext = RiskContext(
    side: Side, referencePrice: real, positionQuantity: real, portfolioEquity: real,
    availableQuote: real, availableBase: real, spreadBps: Option<real>, marketDataAt: Option<int>, now: int)

  // ---------- orders ----------

  /** The deterministic id: a hash of exactly these parts, taken to be injective. The reference price is not one. */
  datatype ClientOrderId = ClientOrderId(
    signalId: nat, key: MarketKey, side: Side, quantity: real, strategy: string, version: string)

  /** A market order intent; order type, limit price and modes are the same for every PAPER intent. */
  datatype Intent = Intent(
    id: nat, clientOrderId: ClientOrderId, signalId: nat, key: MarketKey, side: Side,
    quantity: real, notional: real, referencePrice: real, strategy: string, version: string,
    decision: RiskDecision, status: IntentStatus, correlationId: string, createdAt: int, updatedAt: int)

  /** What a quantity is worth at a price, or cost at an average. */
  function Worth(quantity: real, price: real): real {
    quantity * price
  }

  datatype Signature = Signature(
    signalId: nat, key: MarketKey, side: Side, quantity: real, notional: real, referencePrice: real,
    strategy: string, version: string)

  function SignatureOf(i: Intent): Signature {
    Signature(i.signalId, i.key, i.side, i.quantity, i.notional, i.referencePrice, i.strategy, i.version)
  }

  // ---------- portfolio ----------

  datatype Balance = Balance(available: real, updatedAt: int)

  datatype Position = Position(quantity: NonNegative, averageCost: real, realizedPnl: real, updatedAt: int)

  /** The hash of intent, quote time and price, taken to be injective. */
  datatype ExecutionEventId = ExecutionEventId(intentId: nat, quoteTime: int, price: real)

  datatype Fill = Fill(
    id: nat, eventId: ExecutionEventId, intentId: nat, clientOrderId: ClientOrderId, key: MarketKey, side: Side,
    quantity: real, price: real, notional: real, fee: real, realizedPnl: real, correlationId: string, executedAt: int)

  datatype Snapshot = Snapshot(
    quoteAsset: string, cash: real, positionsValue: real, totalEquity: real,
    realizedPnl: real, unrealizedPnl: real, timestamp: int)

  // ---------- events and anomalies ----------

  datatype Anomaly =
    | DuplicateFillForIntent
    | DuplicateExecutionEvent
    | FillWithoutIntent
    | FillIntentStatusMismatch
    | FillHistoryHasNegativePosition
    | QuoteBalanceMissing
    | QuoteBalanceMismatch
    | PositionQuantityMismatch(key: MarketKey)
    | PositionWithoutFill(key: MarketKey)

  datatype EventKind =
    | CycleHold(key: MarketKey)
    | RiskApproved(clientOrderId: ClientOrderId)
    | RiskRejected(clientOrderId: ClientOrderId)
    | ExecutionFailed(clientOrderId: ClientOrderId)
    | ReconciliationSucceeded
    | ReconciliationFailed(anomalies: seq<Anomaly>)
    | SystemStateChanged(before: SystemState, after: SystemState, reason: string, operatorId: string)

  datatype Event = Event(kind: EventKind, correlationId: string, createdAt: int)

  // ---------- the database ----------

  /**
    The rows of one PAPER account. `intentIds` is the unique index on the client order
    id; `positionRows` lists the positions in row order.
   */
  datatype Tables = Tables(
    intents: map<nat, Intent>, intentIds: map<ClientOrderId, nat>,
    fills: seq<Fill>, balances: map<string, Balance>,
    positions: map<MarketKey, Position>, positionRows: seq<MarketKey>,
    snapshots: seq<Snapshot>, risk: Option<RiskState>, events: seq<Event>)

  const EMPTY_TABLES: Tables := Tables(map[], map[], [], map[], map[], [], [], None, [])

  datatype Error =
    | IdempotencyConflict
    | IntentNotPersisted
    | StateBlocksExecution
    | RiskApprovalMissing
    | MarketInactive
    | MarketMismatch
    | QuoteMismatch
    | PriceUnavailable
    | BalanceUnavailable
    | InsufficientCash
    | InsufficientPosition
    | ExecutionIncomplete
    | FillNotFinalized
    | InvalidTransition
    | NotInitialized
}
