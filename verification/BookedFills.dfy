/** Every amount that a booked fill writes, told by the quote, the rows before it and plain arithmetic. */
module BookedFills {
  import opened CycleSteps
  import opened Idempotency
  import opened LedgerInvariant
  import opened LedgerSteps
  import opened PaperDomain
  import opened PaperExecution
  import opened PaperLedger
  import opened PaperRepositories
  import opened Reals
  import opened Reconciliation
  import opened RiskEngine
  import opened TradingCycle
  import opened TradingRuns
  import opened Wrappers

  /** The fill carries out the approved size at the quote's adverse price; price and fee are exact. */
  predicate PricedBy(cfg: Config, intent: Intent, ticker: Ticker, fillId: nat, now: int, f: Fill) {
    && f.id == fillId && f.intentId == intent.id && f.clientOrderId == intent.clientOrderId
    && f.eventId == ExecutionEventId(intent.id, ticker.timestamp, f.price)
    && f.key == intent.key && f.side == intent.side && f.quantity == intent.decision.approvedSize
    && f.correlationId == intent.correlationId && f.executedAt == now
    && (f.side == Buy ==> f.price * 10000.0 == ticker.ask * (10000.0 + cfg.slippageBps))
    && (f.side == Sell ==> f.price * 10000.0 == ticker.bid * (10000.0 - cfg.slippageBps))
    && f.notional == f.quantity * f.price
    && f.fee == f.notional * cfg.feeRate
  }

  /** Cash, quantity, average cost and realized result after the fill. */
  predicate MoneyMoved(f: Fill, cash: real, held: Position, balance: Balance, position: Position) {
    && balance.updatedAt == f.executedAt && position.updatedAt == f.executedAt
    && position.realizedPnl == held.realizedPnl + f.realizedPnl
    && (f.side == Buy ==>
          && f.notional + f.fee <= cash && balance.available == cash - f.notional - f.fee
          && position.quantity == held.quantity + f.quantity
          && position.quantity * position.averageCost == held.quantity * held.averageCost + f.notional + f.fee
          && f.realizedPnl == 0.0)
    && (f.side == Sell ==>
          && f.quantity <= held.quantity && balance.available == cash + f.notional - f.fee
          && position.quantity == held.quantity - f.quantity
          && position.averageCost == (if f.quantity == held.quantity then 0.0 else held.averageCost)
          && f.realizedPnl == f.notional - f.fee - f.quantity * held.averageCost)
  }

  /** The snapshot marks the traded position at the last price of the quote. */
  predicate SnapshotTaken(s: Snapshot, asset: string, balance: Balance, position: Position, last: real, now: int) {
    && s.quoteAsset == asset && s.timestamp == now && s.cash == balance.available
    && s.positionsValue == position.quantity * last && s.totalEquity == s.cash + s.positionsValue
    && s.realizedPnl == position.realizedPnl
    && s.unrealizedPnl == position.quantity * last - position.quantity * position.averageCost
  }

  /** The risk row takes up the result, the equity and, after a loss, the cooldown. */
  predicate RiskRecorded(cfg: Config, before: RiskState, f: Fill, s: Snapshot, position: Position, after: RiskState) {
    && after.systemState == before.systemState && after.tradingDay == before.tradingDay
    && after.startingEquity == before.startingEquity
    && after.realizedPnl == before.realizedPnl + f.realizedPnl
    && after.peakEquity >= before.peakEquity && after.peakEquity >= s.totalEquity
    && (after.peakEquity == before.peakEquity || after.peakEquity == s.totalEquity)
    && after.drawdown == after.peakEquity - s.totalEquity
    && after.cooldownUntil ==
       (if f.realizedPnl < 0.0 then Some(f.executedAt + cfg.cooldownMinutes * 60_000_000) else before.cooldownUntil)
    && after.openPositions == (if position.quantity > 0.0 then 1 else 0)
    && after.updatedAt == f.executedAt
  }

  /** Everything between the rows before a booking and the rows after it. */
  ghost predicate FillBooked(
      cfg: Config, t: Tables, intent: Intent, market: Market, ticker: Ticker, fillId: nat, now: int,
      after: Tables, e: Execution)
  {
    var asset, f := market.quoteAsset, e.fill;
    && asset in t.balances && t.risk.Some? && after.risk.Some?
    && PricedBy(cfg, intent, ticker, fillId, now, f)
    && MoneyMoved(f, t.balances[asset].available, HeldPosition(t, f.key), e.balance, e.position)
    && SnapshotTaken(e.snapshot, asset, e.balance, e.position, ticker.last, now)
    && RiskRecorded(cfg, t.risk.value, f, e.snapshot, e.position, after.risk.value)
    && after.fills == t.fills + [f] && after.snapshots == t.snapshots + [e.snapshot]
    && after.balances == t.balances[asset := e.balance] && after.positions == t.positions[f.key := e.position]
    && after.intents == t.intents[intent.id := intent.(status := Filled, updatedAt := now)]
    && after.intentIds == t.intentIds && after.events == t.events
  }

  lemma PriceMeans(ticker: Ticker, slippageBps: real)
    ensures ExecutionPrice(ticker, Buy, slippageBps) * 10000.0 == ticker.ask * (10000.0 + slippageBps)
    ensures ExecutionPrice(ticker, Sell, slippageBps) * 10000.0 == ticker.bid * (10000.0 - slippageBps)
  {}

  lemma FeeMeans(quantity: real, price: real, feeRate: real)
    ensures Worth(quantity, price) == quantity * price
    ensures FeeOf(Worth(quantity, price), feeRate) == (quantity * price) * feeRate
  {}

  /** What an order hands out names its intent and its quote. */
  lemma ReadyNames(cfg: Config, t: Tables, intent: Intent, market: Market, ticker: Ticker, fillId: nat, now: int)
    ensures var p := Prepare(cfg, t, intent, market, ticker, fillId, now);
            p.Ok? && p.value.Ready? ==>
              var f := p.value.order.fill;
              && f.eventId == ExecutionEventId(intent.id, ticker.timestamp, f.price)
              && f.correlationId == intent.correlationId
  {
    hide ExecutionPrice, Worth, FeeOf, Apply, SnapshotOf, FillFor;
  }

  lemma ReadyIsPriced(cfg: Config, t: Tables, intent: Intent, market: Market, ticker: Ticker, fillId: nat, now: int)
    ensures var p := Prepare(cfg, t, intent, market, ticker, fillId, now);
            p.Ok? && p.value.Ready? ==> PricedBy(cfg, intent, ticker, fillId, now, p.value.order.fill)
  {
    hide Prepare, ExecutionPrice, Worth, FeeOf, Apply, SnapshotOf, FillFor;
    PrepareMeans(cfg, t, intent, market, ticker, fillId, now);
    ReadyNames(cfg, t, intent, market, ticker, fillId, now);
    PriceMeans(ticker, cfg.slippageBps);
    var p := Prepare(cfg, t, intent, market, ticker, fillId, now);
    if p.Ok? && p.value.Ready? {
      FeeMeans(p.value.order.fill.quantity, p.value.order.fill.price, cfg.feeRate);
    }
  }

  lemma ApplyMoves(f: Fill, balance: Balance, held: Position, after: Balance, position: Position)
    requires f.quantity > 0.0 && held.quantity >= 0.0
    requires Apply(f.side, f.quantity, f.notional, f.fee, balance, held, f.executedAt)
             == Ok(Applied(after, position, f.realizedPnl))
    ensures MoneyMoved(f, balance.available, held, after, position)
  {
    if f.side == Buy {
      var total := Worth(held.quantity, held.averageCost) + f.notional + f.fee;
      AverageKeepsCost(total, held.quantity + f.quantity);
    }
  }

  lemma SnapshotMeans(asset: string, balance: Balance, position: Position, last: real, now: int)
    requires position.quantity >= 0.0
    ensures SnapshotTaken(SnapshotOf(asset, balance, position, last, now), asset, balance, position, last, now)
  {
    Distribute(last, position.averageCost, position.quantity);
  }

  lemma RecordMeans(cfg: Config, s: RiskState, e: Execution, now: int)
    requires e.fill.executedAt == now
    ensures RiskRecorded(cfg, s, e.fill, e.snapshot, e.position, RecordExecution(cfg, s, e, now))
  {}

  /**
    What booking writes, in every amount: the fill at the exact adverse price with its exact
    fee, cash and position by average cost, the snapshot at the last price, and the risk row.
   */
  lemma BookingMeans(cfg: Config, t: Tables, intent: Intent, market: Market, ticker: Ticker, fillId: nat, now: int)
    requires LedgerSound(cfg, t) && intent.id in t.intents && t.intents[intent.id] == intent
    ensures var b := Book(cfg, t, intent, market, ticker, fillId, now);
            b.Ok? && b.value.1.created ==>
              FillBooked(cfg, t, intent, market, ticker, fillId, now, b.value.0, b.value.1)
  {
    hide LedgerSound, Book, Prepare, FillFor, Apply, SnapshotOf, Worth, FeeOf, ExecutionPrice, RecordExecution,
      PricedBy, MoneyMoved, SnapshotTaken, RiskRecorded;
    BookMeans(cfg, t, intent, market, ticker, fillId, now);
    var b := Book(cfg, t, intent, market, ticker, fillId, now);
    if b.Ok? && b.value.1.created {
      var e := b.value.1;
      ReadyIsPriced(cfg, t, intent, market, ticker, fillId, now);
      NothingNegative(cfg, t, market.quoteAsset, e.fill.key);
      ApplyMoves(e.fill, t.balances[market.quoteAsset], HeldPosition(t, e.fill.key), e.balance, e.position);
      SnapshotMeans(market.quoteAsset, e.balance, e.position, ticker.last, now);
      RecordMeans(cfg, t.risk.value, e, now);
    }
  }

  /** The same for the cycles: a cycle that fills is one that booked its intent so, and then only reconciled. */
  lemma CycleBooks(cfg: Config, t: Tables, input: CycleInput)
    requires LedgerSound(cfg, t) && t.risk.Some? && input.intentId !in t.intents
    ensures var (commits, outcome) := Cycle(cfg, t, input);
            outcome.Finished? && outcome.execution.created ==>
              && |commits| == 3 && Open(cfg, t, input).Decided?
              && var o := Open(cfg, t, input);
              && FillBooked(cfg, o.tables, o.intent, input.market.value, input.ticker.value, input.fillId, input.now,
                            commits[1], outcome.execution)
              && SameLedger(commits[2], commits[1])
  {
    hide LedgerSound, Cycle, Open, Book, Reconcile, FillBooked, Permits, ContextIn, SameBooks, ResetRisk, OpeningKind;
    CycleStages(cfg, t, input);
    OpenMeans(cfg, t, input);
    var o := Open(cfg, t, input);
    if o.Decided? {
      BookingMeans(cfg, o.tables, o.intent, o.market, o.ticker, input.fillId, input.now);
      var b := BookOf(cfg, o, input);
      if b.Ok? {
        ReconcileFrame(cfg, b.value.0, input.correlationId, input.now);
      }
    }
  }

  // ---------- what execution refuses ----------

  /** The stored row agrees with the intent in everything that is to be executed. */
  predicate Persisted(t: Tables, i: Intent) {
    i.id in t.intents &&
    var s := t.intents[i.id];
    && s.signalId == i.signalId && s.key == i.key && s.side == i.side && s.quantity == i.quantity
    && s.notional == i.notional && s.referencePrice == i.referencePrice
    && s.strategy == i.strategy && s.version == i.version
  }

  /** The adverse price of a quote, cross-multiplied. */
  predicate IsAdverse(price: real, ticker: Ticker, side: Side, slippageBps: real) {
    price * 10000.0 ==
    if side == Buy then ticker.ask * (10000.0 + slippageBps) else ticker.bid * (10000.0 - slippageBps)
  }

  lemma PrepareChain(cfg: Config, t: Tables, i: Intent, market: Market, ticker: Ticker, fillId: nat, now: int)
    ensures var r := Prepare(cfg, t, i, market, ticker, fillId, now);
            if !Persisted(t, i) then r == Err(IntentNotPersisted)
            else if exists n :: 0 <= n < |t.fills| && t.fills[n].intentId == i.id then
              r.Ok? && r.value.Existing? && r.value.fill in t.fills && r.value.fill.intentId == i.id
            else if t.risk.None? || t.risk.value.systemState != Enabled then r == Err(StateBlocksExecution)
            else if i.status != Approved || !i.decision.approved then r == Err(RiskApprovalMissing)
            else if !market.active then r == Err(MarketInactive)
            else if market.key != i.key then r == Err(MarketMismatch)
            else if ticker.key != i.key then r == Err(QuoteMismatch)
            else if ExecutionPrice(ticker, i.side, cfg.slippageBps) <= 0.0 then r == Err(PriceUnavailable)
            else if market.quoteAsset !in t.balances then r == Err(BalanceUnavailable)
            else
              var size, cash := i.decision.approvedSize, t.balances[market.quoteAsset].available;
              var held := if i.key in t.positions then t.positions[i.key].quantity else 0.0;
              var notional := Worth(size, ExecutionPrice(ticker, i.side, cfg.slippageBps));
              if i.side == Buy && notional + FeeOf(notional, cfg.feeRate) > cash then r == Err(InsufficientCash)
              else if i.side == Sell && size > held then r == Err(InsufficientPosition)
              else r.Ok? && r.value.Ready? && r.value.order.quoteAsset == market.quoteAsset
  {
    hide ExecutionPrice, Worth, FeeOf, SnapshotOf, AverageOver, FillFor;
    FillForMember(t.fills, i.id);
  }

  /** Everything in the order in which execution looks at it, and the answer when it is amiss. */
  lemma PrepareAnswers(
      cfg: Config, t: Tables, i: Intent, market: Market, ticker: Ticker, fillId: nat, now: int, price: real)
    requires IsAdverse(price, ticker, i.side, cfg.slippageBps)
    ensures var r := Prepare(cfg, t, i, market, ticker, fillId, now);
            if !Persisted(t, i) then r == Err(IntentNotPersisted)
            else if exists n :: 0 <= n < |t.fills| && t.fills[n].intentId == i.id then
              r.Ok? && r.value.Existing? && r.value.fill in t.fills && r.value.fill.intentId == i.id
            else if t.risk.None? || t.risk.value.systemState != Enabled then r == Err(StateBlocksExecution)
            else if i.status != Approved || !i.decision.approved then r == Err(RiskApprovalMissing)
            else if !market.active then r == Err(MarketInactive)
            else if market.key != i.key then r == Err(MarketMismatch)
            else if ticker.key != i.key then r == Err(QuoteMismatch)
            else if i.side == Sell && cfg.slippageBps == 10000.0 then r == Err(PriceUnavailable)
            else if market.quoteAsset !in t.balances then r == Err(BalanceUnavailable)
            else
              var size, cash := i.decision.approvedSize, t.balances[market.quoteAsset].available;
              var held := if i.key in t.positions then t.positions[i.key].quantity else 0.0;
              var notional := size * price;
              if i.side == Buy && notional + notional * cfg.feeRate > cash then r == Err(InsufficientCash)
              else if i.side == Sell && size > held then r == Err(InsufficientPosition)
              else r.Ok? && r.value.Ready? && r.value.order.quoteAsset == market.quoteAsset
  {
    hide Prepare, ExecutionPrice, Worth, FeeOf, Persisted;
    PrepareChain(cfg, t, i, market, ticker, fillId, now);
    AdverseMeans(price, ticker, i.side, cfg.slippageBps);
    FeeMeans(i.decision.approvedSize, price, cfg.feeRate);
    hide IsAdverse;
  }

  lemma AdverseMeans(price: real, ticker: Ticker, side: Side, slippageBps: real)
    requires IsAdverse(price, ticker, side, slippageBps) && 0.0 <= slippageBps <= 10000.0
    ensures price == ExecutionPrice(ticker, side, slippageBps)
    ensures price <= 0.0 <==> side == Sell && slippageBps == 10000.0
  {
    PriceMeans(ticker, slippageBps);
    if side == Buy {
      ProductNonNegative(ticker.ask, slippageBps);
    } else if slippageBps < 10000.0 {
      ProductStrict(0.0, 10000.0 - slippageBps, ticker.bid);
    }
  }
}
