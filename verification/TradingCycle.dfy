/**
  The PAPER trading cycle (application/trading.py): risk evaluation and intent, execution
  and risk accounting, reconciliation, each ended by a commit.
 */
module TradingCycle {
  import opened PaperDatabase
  import opened PaperDomain
  import opened PaperExecution
  import opened PaperLedger
  import opened PaperRepositories
  import opened Reals
  import opened Reconciliation
  import opened RiskEngine
  import opened Wrappers

  /**
    What one cycle is given: what the stored signal, the stored market and the quote
    provider answer, the ids it will use for new rows, and the time.
   */
  datatype CycleInput = CycleInput(
    signalId: nat, signal: Option<Signal>, market: Option<Market>, ticker: Option<Ticker>, quantity: Quantity,
    correlationId: string, intentId: nat, fillId: nat, now: int)

  datatype Outcome =
    | NotPaper
    | SignalMissing
    | Held
    | MarketMissing
    | QuoteUnavailable
    | AccountMissing
    | ContextInvalid
    | Conflict(error: Error)
    | RiskRefused(decision: RiskDecision, intent: Intent)
    | FailedSafely(error: Error)
    | Finished(decision: RiskDecision, intent: Intent, execution: Execution, report: Report)

  // ---------- the account ----------

  /** Write the balance and the risk row if they are missing. */
  function Initialized(cfg: Config, t: Tables, now: int): Tables {
    var t1 :=
      if cfg.quoteAsset in t.balances then t
      else WithBalance(t, cfg.quoteAsset, Balance(cfg.initialBalance, now));
    if t1.risk.Some? then t1
    else t1.(risk := Some(RiskState(Enabled, Day(now), cfg.initialBalance, 0.0, cfg.initialBalance, 0.0, None, 0, now)))
  }

  method EnsureInitialized(db: Database, cfg: Config, now: int)
    modifies db
    ensures db.Work() == Initialized(cfg, old(db.Work()), now)
    ensures db.committed == old(db.committed) && db.history == old(db.history)
  {
    if cfg.quoteAsset !in db.balances {
      db.SetBalance(cfg.quoteAsset, Balance(cfg.initialBalance, now));
    }
    if db.risk.None? {
      db.SaveRisk(RiskState(Enabled, Day(now), cfg.initialBalance, 0.0, cfg.initialBalance, 0.0, None, 0, now));
    }
  }

  // ---------- risk context and evaluation ----------

  function SideOf(action: SignalAction): Side
    requires action != HoldSignal
  {
    if action == BuySignal then Buy else Sell
  }

  function SpreadBps(ticker: Ticker): real {
    (ticker.ask - ticker.bid) / ((ticker.ask + ticker.bid) / 2.0) * 10000.0
  }

  /** The spread is within a limit exactly when ask and bid, in basis points of their mean, are. */
  lemma SpreadWithin(ticker: Ticker, limit: real)
    ensures SpreadBps(ticker) >= 0.0
    ensures SpreadBps(ticker) <= limit <==> (ticker.ask - ticker.bid) * 20000.0 <= limit * (ticker.ask + ticker.bid)
  {
    var gap, mid := ticker.ask - ticker.bid, (ticker.ask + ticker.bid) / 2.0;
    var ratio := gap / mid;
    assert ratio * mid == gap;
    if SpreadBps(ticker) <= limit {
      ProductMonotone(ratio * 10000.0, limit, mid);
    } else {
      ProductStrict(limit, ratio * 10000.0, mid);
    }
  }

  /** Equity of the latest snapshot, or the cash when nothing was traded yet. */
  function EquityOf(t: Tables, balance: Balance): real {
    var snapshot := LatestSnapshot(t.snapshots);
    if snapshot.None? then balance.available else snapshot.value.totalEquity
  }

  function ContextFor(t: Tables, side: Side, key: MarketKey, balance: Balance, ticker: Ticker, now: int): RiskContext {
    var quantity := HeldPosition(t, key).quantity;
    RiskContext(side, ticker.last, quantity, EquityOf(t, balance), balance.available, quantity,
                Some(SpreadBps(ticker)), Some(ticker.timestamp), now)
  }

  /** The bounds a risk context is validated against. */
  predicate ValidContext(c: RiskContext) {
    && c.referencePrice > 0.0 && c.positionQuantity >= 0.0 && c.portfolioEquity > 0.0
    && c.availableQuote >= 0.0 && c.availableBase >= 0.0
    && (c.spreadBps.Some? ==> c.spreadBps.value >= 0.0)
  }

  function EvaluateRisk(cfg: Config, t: Tables, size: Quantity, c: RiskContext): (Tables, RiskDecision) {
    match t.risk
    case None => (t, DecisionRecord(false, ["risk_state_unavailable"], size, 0.0))
    case Some(state) =>
      var reset := ResetForDay(state, Day(c.now), c.portfolioEquity, c.now);
      (t.(risk := Some(reset)), Decide(cfg, size, c, reset))
  }

  method AssessRisk(db: Database, cfg: Config, size: Quantity, c: RiskContext) returns (d: RiskDecision)
    modifies db`risk
    ensures (db.Work(), d) == EvaluateRisk(cfg, old(db.Work()), size, c)
  {
    hide Reasons, DefaultRules;
    if db.risk.None? {
      return DecisionRecord(false, ["risk_state_unavailable"], size, 0.0);
    }
    var state := db.risk.value;
    var reset := ResetForDay(state, Day(c.now), c.portfolioEquity, c.now);
    if reset != state {
      db.SaveRisk(reset);
    }
    d := Evaluate(DefaultRules(cfg), size, c, reset);
  }

  // ---------- first transaction: risk decision and intent ----------

  function ClientOrderIdOf(input: CycleInput, signal: Signal): ClientOrderId
    requires signal.action != HoldSignal
  {
    ClientOrderId(input.signalId, signal.key, SideOf(signal.action), input.quantity, signal.strategy, signal.version)
  }

  /** The intent a cycle proposes; its status follows the decision. */
  function IntentOf(input: CycleInput, signal: Signal, last: real, decision: RiskDecision): Intent
    requires signal.action != HoldSignal
  {
    Intent(input.intentId, ClientOrderIdOf(input, signal), input.signalId, signal.key, SideOf(signal.action),
           input.quantity, Worth(input.quantity, last), last, signal.strategy, signal.version,
           decision, if decision.approved then Approved else Rejected, input.correlationId, input.now, input.now)
  }

  function Logged(t: Tables, kind: EventKind, input: CycleInput): Tables {
    t.(events := t.events + [Event(kind, input.correlationId, input.now)])
  }

  /** The event that records a decision. */
  function DecisionKind(decision: RiskDecision, intent: Intent): EventKind {
    if decision.approved then EventKind.RiskApproved(intent.clientOrderId)
    else EventKind.RiskRejected(intent.clientOrderId)
  }

  datatype Opening =
    | Refused(outcome: Outcome)
    | Holding(tables: Tables)
    | Decided(tables: Tables, decision: RiskDecision, intent: Intent, market: Market, ticker: Ticker)

  /** Risk evaluation, intent and event, for a signal that asks to trade. */
  function OpenTrade(
      cfg: Config, t: Tables, input: CycleInput, signal: Signal, market: Market, ticker: Ticker): (o: Opening)
    requires signal.action != HoldSignal
    ensures !o.Holding? && (o.Refused? ==> !o.outcome.Finished?)
  {
    if market.quoteAsset !in t.balances then Refused(AccountMissing)
    else
      var context := ContextFor(t, SideOf(signal.action), signal.key, t.balances[market.quoteAsset], ticker, input.now);
      if !ValidContext(context) then Refused(ContextInvalid)
      else
        var (t1, decision) := EvaluateRisk(cfg, t, input.quantity, context);
        var (t2, stored) := PaperRepositories.CreateOrGet(t1, IntentOf(input, signal, ticker.last, decision));
        match stored
        case Err(e) => Refused(Conflict(e))
        case Ok((intent, _)) =>
          Decided(Logged(t2, DecisionKind(decision, intent), input), decision, intent, market, ticker)
  }

  /** Everything up to the first commit. */
  function Open(cfg: Config, t: Tables, input: CycleInput): (o: Opening)
    ensures o.Refused? ==> !o.outcome.Finished?
  {
    if cfg.mode != PaperMode then Refused(NotPaper)
    else if input.signal.None? then Refused(SignalMissing)
    else if input.signal.value.action == HoldSignal then Holding(Logged(t, CycleHold(input.signal.value.key), input))
    else if input.market.None? then Refused(MarketMissing)
    else if input.ticker.None? then Refused(QuoteUnavailable)
    else OpenTrade(cfg, t, input, input.signal.value, input.market.value, input.ticker.value)
  }

  // ---------- second transaction: execution and risk accounting ----------

  function RecordExecution(cfg: Config, s: RiskState, e: Execution, now: int): RiskState {
    Recorded(s, e.fill.realizedPnl, e.snapshot.totalEquity, if e.position.quantity > 0.0 then 1 else 0,
             cfg.cooldownMinutes, now)
  }

  lemma CreatedHasRisk(cfg: Config, t: Tables, intent: Intent, market: Market, ticker: Ticker, fillId: nat, now: int)
    ensures var (after, r) := Execute(cfg, t, intent, market, ticker, fillId, now);
            after.risk == t.risk && (r.Ok? && r.value.created ==> t.risk.Some?)
  {
    hide ExecutionPrice, FeeOf, Worth, Apply, LatestSnapshot, SnapshotOf;
  }

  function Book(cfg: Config, t: Tables, intent: Intent, market: Market, ticker: Ticker, fillId: nat, now: int):
      Result<(Tables, Execution), Error>
  {
    CreatedHasRisk(cfg, t, intent, market, ticker, fillId, now);
    var (after, executed) := Execute(cfg, t, intent, market, ticker, fillId, now);
    match executed
    case Err(e) => Err(e)
    case Ok(execution) =>
      if !execution.created then Ok((after, execution))
      else Ok((after.(risk := Some(RecordExecution(cfg, after.risk.value, execution, now))), execution))
  }

  // ---------- the whole cycle ----------

  /** The states a cycle commits, in order, and how it ends. */
  function Cycle(cfg: Config, t: Tables, input: CycleInput): (seq<Tables>, Outcome) {
    match Open(cfg, t, input)
    case Refused(outcome) => ([], outcome)
    case Holding(held) => ([held], Held)
    case Decided(begun, decision, intent, market, ticker) =>
      if !decision.approved then ([begun], RiskRefused(decision, intent))
      else
        var (commits, outcome) := Trade(cfg, begun, input, decision, intent, market, ticker);
        ([begun] + commits, outcome)
  }

  /** The second and third transaction; a failed execution is rolled back and logged instead. */
  function Trade(
      cfg: Config, begun: Tables, input: CycleInput, decision: RiskDecision, intent: Intent,
      market: Market, ticker: Ticker):
      (seq<Tables>, Outcome)
  {
    match Book(cfg, begun, intent, market, ticker, input.fillId, input.now)
    case Err(e) =>
      ([Logged(begun, EventKind.ExecutionFailed(intent.clientOrderId), input)], FailedSafely(e))
    case Ok((booked, execution)) =>
      var current := if intent.id in booked.intents then booked.intents[intent.id] else intent;
      var (reconciled, report) := Reconcile(cfg, booked, input.correlationId, input.now);
      ([booked, reconciled], Finished(decision, current, execution, report))
  }

  // ---------- the service ----------

  /** What a cycle, begun on `before`, does to the database in the end. */
  function LastOf(before: Tables, commits: seq<Tables>): Tables {
    if |commits| == 0 then before else commits[|commits| - 1]
  }

  method RunOpenTrade(db: Database, cfg: Config, input: CycleInput, signal: Signal, market: Market, ticker: Ticker)
    returns (o: Opening)
    requires signal.action != HoldSignal
    modifies db
    ensures o == OpenTrade(cfg, old(db.Work()), input, signal, market, ticker)
    ensures o.Decided? ==> db.Work() == o.tables
    ensures db.committed == old(db.committed) && db.history == old(db.history)
  {
    hide EvaluateRisk, SpreadBps, Worth, PaperRepositories.CreateOrGet, LatestSnapshot;
    if market.quoteAsset !in db.balances {
      return Refused(AccountMissing);
    }
    var context := ContextFor(db.Work(), SideOf(signal.action), signal.key, db.balances[market.quoteAsset], ticker,
                              input.now);
    if !ValidContext(context) {
      return Refused(ContextInvalid);
    }
    var decision := AssessRisk(db, cfg, input.quantity, context);
    var stored := db.CreateOrGet(IntentOf(input, signal, ticker.last, decision));
    if stored.Err? {
      return Refused(Conflict(stored.error));
    }
    var intent := stored.value.0;
    db.AppendEvent(Event(DecisionKind(decision, intent), input.correlationId, input.now));
    o := Decided(db.Work(), decision, intent, market, ticker);
  }

  method RunBook(db: Database, cfg: Config, intent: Intent, market: Market, ticker: Ticker, fillId: nat, now: int)
    returns (r: Result<Execution, Error>)
    modifies db
    ensures match Book(cfg, old(db.Work()), intent, market, ticker, fillId, now)
            case Err(e) => r == Err(e)
            case Ok((t, execution)) => r == Ok(execution) && db.Work() == t
    ensures db.committed == old(db.committed) && db.history == old(db.history)
  {
    hide Execute, Recorded;
    CreatedHasRisk(cfg, db.Work(), intent, market, ticker, fillId, now);
    r := RunExecution(db, cfg, intent, market, ticker, fillId, now);
    if r.Ok? && r.value.created {
      db.SaveRisk(RecordExecution(cfg, db.risk.value, r.value, now));
    }
  }

  method RunTrade(
      db: Database, cfg: Config, input: CycleInput, decision: RiskDecision, intent: Intent,
      market: Market, ticker: Ticker)
    returns (outcome: Outcome)
    requires db.Work() == db.committed
    modifies db
    ensures var (commits, o) := Trade(cfg, old(db.committed), input, decision, intent, market, ticker);
            outcome == o && db.history == old(db.history) + commits &&
            db.committed == LastOf(old(db.committed), commits)
    ensures db.Work() == db.committed
  {
    hide Book, Reconcile;
    var executed := RunBook(db, cfg, intent, market, ticker, input.fillId, input.now);
    if executed.Err? {
      db.Rollback();
      db.AppendEvent(Event(EventKind.ExecutionFailed(intent.clientOrderId), input.correlationId, input.now));
      db.Commit();
      return FailedSafely(executed.error);
    }
    db.Commit();
    ghost var booked := db.committed;
    var current := intent;
    if intent.id in db.intents {
      current := db.intents[intent.id];
    }
    var report := RunReconciliation(db, cfg, input.correlationId, input.now);
    db.Commit();
    assert db.history == old(db.history) + [booked, db.committed];
    outcome := Finished(decision, current, executed.value, report);
  }

  /** One cycle in a fresh session: it commits exactly the states that `Cycle` names, and leaves nothing uncommitted. */
  method RunCycle(db: Database, cfg: Config, input: CycleInput) returns (outcome: Outcome)
    requires db.Work() == db.committed
    modifies db
    ensures outcome == Cycle(cfg, old(db.committed), input).1
    ensures db.history == old(db.history) + Cycle(cfg, old(db.committed), input).0
    ensures db.Work() == db.committed == LastOf(old(db.committed), Cycle(cfg, old(db.committed), input).0)
  {
    hide OpenTrade, Trade;
    if cfg.mode != PaperMode {
      return NotPaper;
    }
    if input.signal.None? {
      return SignalMissing;
    }
    var signal := input.signal.value;
    if signal.action == HoldSignal {
      db.AppendEvent(Event(CycleHold(signal.key), input.correlationId, input.now));
      db.Commit();
      return Held;
    }
    if input.market.None? {
      return MarketMissing;
    }
    if input.ticker.None? {
      return QuoteUnavailable;
    }
    var o := RunOpenTrade(db, cfg, input, signal, input.market.value, input.ticker.value);
    if o.Refused? {
      db.Rollback();
      return o.outcome;
    }
    db.Commit();
    if !o.decision.approved {
      return RiskRefused(o.decision, o.intent);
    }
    outcome := RunTrade(db, cfg, input, o.decision, o.intent, o.market, o.ticker);
    ghost var rest := Trade(cfg, o.tables, input, o.decision, o.intent, o.market, o.ticker).0;
    assert db.history == old(db.history) + ([o.tables] + rest);
  }
}
