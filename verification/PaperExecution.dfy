/** The PAPER execution service (application/paper.py, `PaperExecutionService`). */
module PaperExecution {
  import opened PaperDatabase
  import opened PaperDomain
  import opened PaperLedger
  import opened PaperRepositories
  import opened Wrappers

  datatype Execution = Execution(fill: Fill, balance: Balance, position: Position, snapshot: Snapshot, created: bool)

  datatype Prepared = Existing(fill: Fill) | Ready(order: Order)

  function UnrealizedOf(quantity: real, price: real, averageCost: real): real {
    if quantity > 0.0 then quantity * (price - averageCost) else 0.0
  }

  function SnapshotOf(quoteAsset: string, balance: Balance, position: Position, last: real, now: int): Snapshot {
    var value := Worth(position.quantity, last);
    Snapshot(quoteAsset, balance.available, value, balance.available + value,
             position.realizedPnl, UnrealizedOf(position.quantity, last, position.averageCost), now)
  }

  function FillOf(
      intent: Intent, price: real, notional: real, fee: real, realized: real, quoteTime: int, fillId: nat, now: int):
      Fill
  {
    Fill(fillId, ExecutionEventId(intent.id, quoteTime, price), intent.id, intent.clientOrderId,
         intent.key, intent.side,
         intent.decision.approvedSize, price, notional, fee, realized, intent.correlationId, now)
  }

  function HeldPosition(t: Tables, key: MarketKey): Position {
    if key in t.positions then t.positions[key] else NO_POSITION
  }

  /** Everything up to the write: either the fill that already exists, or the one to book, or a refusal. */
  function Prepare(
      cfg: Config, t: Tables, intent: Intent, market: Market, ticker: Ticker, fillId: nat, now: int):
      Result<Prepared, Error>
  {
    if intent.id !in t.intents || SignatureOf(t.intents[intent.id]) != SignatureOf(intent) then Err(IntentNotPersisted)
    else if FillFor(t.fills, intent.id).Some? then Ok(Existing(FillFor(t.fills, intent.id).value))
    else if t.risk.None? || t.risk.value.systemState != Enabled then Err(StateBlocksExecution)
    else if intent.status != Approved || !intent.decision.approved then Err(RiskApprovalMissing)
    else if !market.active then Err(MarketInactive)
    else if market.key != intent.key then Err(MarketMismatch)
    else if ticker.key != intent.key then Err(QuoteMismatch)
    else
      var quantity := intent.decision.approvedSize;
      var price := ExecutionPrice(ticker, intent.side, cfg.slippageBps);
      if price <= 0.0 then Err(PriceUnavailable)
      else if market.quoteAsset !in t.balances then Err(BalanceUnavailable)
      else
        var notional := Worth(quantity, price);
        var fee := FeeOf(notional, cfg.feeRate);
        match Apply(intent.side, quantity, notional, fee, t.balances[market.quoteAsset], HeldPosition(t, intent.key),
                    now)
        case Err(e) => Err(e)
        case Ok(applied) =>
          Ok(Ready(Order(
            FillOf(intent, price, notional, fee, applied.realized, ticker.timestamp, fillId, now),
            market.quoteAsset, applied.balance, applied.position,
            SnapshotOf(market.quoteAsset, applied.balance, applied.position, ticker.last, now))))
  }

  /** The result for a fill that was booked earlier. */
  function Reload(t: Tables, fill: Fill, quoteAsset: string): Result<Execution, Error> {
    if quoteAsset !in t.balances || fill.key !in t.positions || LatestSnapshot(t.snapshots).None? then
      Err(ExecutionIncomplete)
    else Ok(Execution(fill, t.balances[quoteAsset], t.positions[fill.key], LatestSnapshot(t.snapshots).value, false))
  }

  function Execute(cfg: Config, t: Tables, intent: Intent, market: Market, ticker: Ticker, fillId: nat, now: int):
      (Tables, Result<Execution, Error>)
  {
    match Prepare(cfg, t, intent, market, ticker, fillId, now)
    case Err(e) => (t, Err(e))
    case Ok(Existing(fill)) => (t, Reload(t, fill, market.quoteAsset))
    case Ok(Ready(o)) =>
      var (after, stored) := ApplyExecution(t, intent.id, o);
      match stored
      case Err(e) => (after, Err(e))
      case Ok((fill, created)) =>
        if !created then (after, Reload(after, fill, market.quoteAsset))
        else (after, Ok(Execution(fill, o.balance, o.position, o.snapshot, true)))
  }

  method RunExecution(db: Database, cfg: Config, intent: Intent, market: Market, ticker: Ticker, fillId: nat, now: int)
    returns (r: Result<Execution, Error>)
    modifies db
    ensures (db.Work(), r) == Execute(cfg, old(db.Work()), intent, market, ticker, fillId, now)
    ensures db.committed == old(db.committed) && db.history == old(db.history)
  {
    hide ExecutionPrice, Worth, FeeOf, Apply, UnrealizedOf, PaperRepositories.ApplyExecution, Reload;
    if intent.id !in db.intents || SignatureOf(db.intents[intent.id]) != SignatureOf(intent) {
      return Err(IntentNotPersisted);
    }
    var existingFill := FillFor(db.fills, intent.id);
    if existingFill.Some? {
      r := Reload(db.Work(), existingFill.value, market.quoteAsset);
      return;
    }
    if db.risk.None? || db.risk.value.systemState != Enabled {
      return Err(StateBlocksExecution);
    }
    if intent.status != Approved || !intent.decision.approved {
      return Err(RiskApprovalMissing);
    }
    if !market.active {
      return Err(MarketInactive);
    }
    if market.key != intent.key {
      return Err(MarketMismatch);
    }
    if ticker.key != intent.key {
      return Err(QuoteMismatch);
    }
    var quantity := intent.decision.approvedSize;
    var price := ExecutionPrice(ticker, intent.side, cfg.slippageBps);
    if price <= 0.0 {
      return Err(PriceUnavailable);
    }
    var notional := Worth(quantity, price);
    var fee := FeeOf(notional, cfg.feeRate);
    if market.quoteAsset !in db.balances {
      return Err(BalanceUnavailable);
    }
    var position := if intent.key in db.positions then db.positions[intent.key] else NO_POSITION;
    var applied := Apply(intent.side, quantity, notional, fee, db.balances[market.quoteAsset], position, now);
    if applied.Err? {
      return Err(applied.error);
    }
    var updated := applied.value;
    var snapshot := SnapshotOf(market.quoteAsset, updated.balance, updated.position, ticker.last, now);
    var fill := FillOf(intent, price, notional, fee, updated.realized, ticker.timestamp, fillId, now);
    var order := Order(fill, market.quoteAsset, updated.balance, updated.position, snapshot);
    var stored := db.ApplyExecution(intent.id, order);
    if stored.Err? {
      return Err(stored.error);
    }
    if !stored.value.1 {
      r := Reload(db.Work(), stored.value.0, market.quoteAsset);
      return;
    }
    r := Ok(Execution(stored.value.0, updated.balance, updated.position, snapshot, true));
  }
}
