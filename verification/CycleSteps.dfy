/** What each transaction of a trading cycle does, said without its algorithm. */
module CycleSteps {
  import opened LedgerInvariant
  import opened LedgerSteps
  import opened PaperDomain
  import opened PaperExecution
  import opened PaperLedger
  import opened PaperRepositories
  import opened Reconciliation
  import opened RiskEngine
  import opened TradingCycle
  import opened Wrappers

  /** The intent of a cycle keeps its decision and status together. */
  lemma IntentOfSound(input: CycleInput, signal: Signal, last: real, decision: RiskDecision)
    requires signal.action != HoldSignal
    requires decision.requestedSize == input.quantity && (decision.approved ==> decision.approvedSize == input.quantity)
    ensures IntentSound(IntentOf(input, signal, last, decision))
  {}

  /** The reset that a cycle applies to the risk row before it decides. */
  function ResetRisk(t: Tables, equity: real, now: int): Option<RiskState> {
    match t.risk
    case None => None
    case Some(state) => Some(ResetForDay(state, Day(now), equity, now))
  }

  /** An approval means that all eight limits permit the trade, on the freshly reset risk state. */
  lemma EvaluateRiskMeans(cfg: Config, t: Tables, size: Quantity, c: RiskContext)
    ensures var (after, d) := EvaluateRisk(cfg, t, size, c);
            && after == t.(risk := ResetRisk(t, c.portfolioEquity, c.now))
            && d.requestedSize == size && (d.approved ==> d.approvedSize == size)
            && (d.approved <==> t.risk.Some? && Permits(cfg, size, c, after.risk.value))
  {
    hide Permits, Decide;
    if t.risk.Some? {
      DecidePermits(cfg, size, c, ResetForDay(t.risk.value, Day(c.now), c.portfolioEquity, c.now));
    }
  }

  function ContextOf(t: Tables, input: CycleInput, signal: Signal, market: Market, ticker: Ticker): RiskContext
    requires signal.action != HoldSignal && market.quoteAsset in t.balances
  {
    ContextFor(t, SideOf(signal.action), signal.key, t.balances[market.quoteAsset], ticker, input.now)
  }

  /** How the first transaction is put together. */
  lemma OpenTradeShape(cfg: Config, t: Tables, input: CycleInput, signal: Signal, market: Market, ticker: Ticker)
    requires signal.action != HoldSignal && market.quoteAsset in t.balances
    ensures var (t1, d) := EvaluateRisk(cfg, t, input.quantity, ContextOf(t, input, signal, market, ticker));
            var (t2, stored) := CreateOrGet(t1, IntentOf(input, signal, ticker.last, d));
            var o := OpenTrade(cfg, t, input, signal, market, ticker);
            o.Decided? ==>
              && stored.Ok? && o.decision == d && o.intent == stored.value.0 && o.market == market && o.ticker == ticker
              && o.tables == Logged(t2, OpeningKind(o), input)
  {
    hide EvaluateRisk, CreateOrGet, IntentOf, ContextFor, ValidContext;
  }

  /** The first transaction touches the risk row, at most one fresh intent and the log, and nothing else. */
  lemma OpenTradeMeans(cfg: Config, t: Tables, input: CycleInput, signal: Signal, market: Market, ticker: Ticker)
    requires signal.action != HoldSignal && market.quoteAsset in t.balances
    requires LedgerSound(cfg, t) && input.intentId !in t.intents
    ensures var o := OpenTrade(cfg, t, input, signal, market, ticker);
            o.Decided? ==>
              && o.market == market && o.ticker == ticker
              && LedgerSound(cfg, o.tables) && SameBooks(o.tables, t)
              && (forall id :: id in t.intents ==> id in o.tables.intents && o.tables.intents[id] == t.intents[id])
              && o.tables.intents.Keys <= t.intents.Keys + {input.intentId}
              && o.intent.id in o.tables.intents && o.tables.intents[o.intent.id] == o.intent
              && o.intent.clientOrderId == ClientOrderIdOf(input, signal) && o.intent.referencePrice == ticker.last
              && o.tables.risk == ResetRisk(t, ContextOf(t, input, signal, market, ticker).portfolioEquity, input.now)
              && o.tables.events == t.events + [Event(OpeningKind(o), input.correlationId, input.now)]
              && (o.decision.approved <==>
                    t.risk.Some? &&
                    Permits(cfg, input.quantity, ContextOf(t, input, signal, market, ticker), o.tables.risk.value))
  {
    hide LedgerSound, IntentSound, OpenTrade, Permits, EvaluateRisk, Worth, CreateOrGet, ResetForDay, OpeningKind;
    var c := ContextOf(t, input, signal, market, ticker);
    EvaluateRiskMeans(cfg, t, input.quantity, c);
    var (t1, d) := EvaluateRisk(cfg, t, input.quantity, c);
    var intent := IntentOf(input, signal, ticker.last, d);
    IntentOfSound(input, signal, ticker.last, d);
    OpenTradeShape(cfg, t, input, signal, market, ticker);
    hide ContextFor;
    IntentsStillIndexed(cfg, t, t1);
    CreateOrGetKeeps(cfg, t1, intent);
    CreateOrGetAnswers(t1, intent);
    CreateOrGetRest(t1, intent);
    var o := OpenTrade(cfg, t, input, signal, market, ticker);
    if o.Decided? {
      LedgerFrame(cfg, CreateOrGet(t1, intent).0, o.tables);
    }
  }

  lemma IntentsStillIndexed(cfg: Config, t: Tables, after: Tables)
    requires LedgerSound(cfg, t) && SameLedger(after, t)
    ensures LedgerSound(cfg, after) && IntentsIndexed(after)
  {
    LedgerFrame(cfg, t, after);
    hide IntentsIndexed;
  }

  function OpeningKind(o: Opening): EventKind
    requires o.Decided?
  {
    DecisionKind(o.decision, o.intent)
  }

  /** The input asks for a trade that has everything it needs. */
  predicate Tradable(t: Tables, input: CycleInput) {
    && input.signal.Some? && input.signal.value.action != HoldSignal
    && input.market.Some? && input.ticker.Some? && input.market.value.quoteAsset in t.balances
  }

  /** The risk context of a cycle. */
  function ContextIn(t: Tables, input: CycleInput): RiskContext
    requires Tradable(t, input)
  {
    ContextOf(t, input, input.signal.value, input.market.value, input.ticker.value)
  }

  /** The first transaction of a cycle, whether it holds or trades. */
  lemma OpenMeans(cfg: Config, t: Tables, input: CycleInput)
    requires LedgerSound(cfg, t) && input.intentId !in t.intents
    ensures var o := Open(cfg, t, input);
            && (!o.Refused? ==>
                  && LedgerSound(cfg, o.tables) && SameBooks(o.tables, t)
                  && (forall id :: id in t.intents ==> id in o.tables.intents && o.tables.intents[id] == t.intents[id])
                  && o.tables.intents.Keys <= t.intents.Keys + {input.intentId})
            && (o.Holding? ==> input.signal.Some? && o.tables == Logged(t, CycleHold(input.signal.value.key), input))
            && (o.Decided? ==>
                  && Tradable(t, input) && o.market == input.market.value && o.ticker == input.ticker.value
                  && o.intent.id in o.tables.intents && o.tables.intents[o.intent.id] == o.intent
                  && o.intent.clientOrderId == ClientOrderIdOf(input, input.signal.value)
                  && o.intent.referencePrice == o.ticker.last
                  && o.tables.risk == ResetRisk(t, ContextIn(t, input).portfolioEquity, input.now)
                  && o.tables.events == t.events + [Event(OpeningKind(o), input.correlationId, input.now)]
                  && (o.decision.approved <==>
                        t.risk.Some? && Permits(cfg, input.quantity, ContextIn(t, input), o.tables.risk.value)))
  {
    hide Permits, ContextFor;
    var o := Open(cfg, t, input);
    if o.Holding? {
      LedgerFrame(cfg, t, o.tables);
    } else if o.Decided? {
      NeedsBalance(cfg, t, input);
      OpenTradeMeans(cfg, t, input, input.signal.value, input.market.value, input.ticker.value);
    }
    hide LedgerSound, OpenTrade;
  }

  lemma NeedsBalance(cfg: Config, t: Tables, input: CycleInput)
    ensures Open(cfg, t, input).Decided? ==> Tradable(t, input)
  {
    hide EvaluateRisk, CreateOrGet, ContextFor, ValidContext;
  }

  lemma CreateOrGetRest(t: Tables, intent: Intent)
    ensures var after := CreateOrGet(t, intent).0;
            after == t.(intents := after.intents, intentIds := after.intentIds)
  {}

  // ---------- the second transaction ----------

  /**
    Execution either books the order it prepared, whole, and records it in the risk row,
    or returns the fill the intent already has and changes nothing. The finalizing update
    cannot fail.
   */
  lemma BookMeans(cfg: Config, t: Tables, intent: Intent, market: Market, ticker: Ticker, fillId: nat, now: int)
    requires LedgerSound(cfg, t) && intent.id in t.intents && t.intents[intent.id] == intent
    ensures var p := Prepare(cfg, t, intent, market, ticker, fillId, now);
            match Book(cfg, t, intent, market, ticker, fillId, now)
            case Err(e) => e != FillNotFinalized
            case Ok((after, e)) =>
              LedgerSound(cfg, after) &&
              if e.created then
                && p.Ok? && p.value.Ready? && t.risk.Some?
                && var o := p.value.order;
                && e == Execution(o.fill, o.balance, o.position, o.snapshot, true)
                && OrderSound(cfg, t, intent, ticker.last, o)
                && o.fill.executedAt == now && o.fill.id == fillId && o.quoteAsset == market.quoteAsset
                && o.fill.price == ExecutionPrice(ticker, intent.side, cfg.slippageBps)
                && t.risk.value.systemState == Enabled
                && after == Finalized(t, intent, o).(risk := Some(RecordExecution(cfg, t.risk.value, e, now)))
              else after == t && FillFor(t.fills, intent.id) == Some(e.fill)
  {
    PrepareMeans(cfg, t, intent, market, ticker, fillId, now);
    PrepareFails(cfg, t, intent, market, ticker, fillId, now);
    ReadyIsBooked(cfg, t, intent, market, ticker, fillId, now);
    NotReadyChangesNothing(cfg, t, intent, market, ticker, fillId, now);
    hide Prepare, OrderSound, FillFor, Recorded, Finalized, Execute, LedgerSound;
    CreatedHasRisk(cfg, t, intent, market, ticker, fillId, now);
    var b := Book(cfg, t, intent, market, ticker, fillId, now);
    if b.Ok? && b.value.1.created {
      LedgerFrame(cfg, Execute(cfg, t, intent, market, ticker, fillId, now).0, b.value.0);
    }
  }

  lemma ReadyIsBooked(cfg: Config, t: Tables, intent: Intent, market: Market, ticker: Ticker, fillId: nat, now: int)
    requires LedgerSound(cfg, t) && intent.id in t.intents && t.intents[intent.id] == intent
    ensures var p := Prepare(cfg, t, intent, market, ticker, fillId, now);
            p.Ok? && p.value.Ready? ==>
              var o := p.value.order;
              && LedgerSound(cfg, Finalized(t, intent, o))
              && Execute(cfg, t, intent, market, ticker, fillId, now) ==
                 (Finalized(t, intent, o), Ok(Execution(o.fill, o.balance, o.position, o.snapshot, true)))
  {
    PrepareMeans(cfg, t, intent, market, ticker, fillId, now);
    hide Prepare, OrderSound, FillFor, Finalized;
    var p := Prepare(cfg, t, intent, market, ticker, fillId, now);
    if p.Ok? && p.value.Ready? {
      ApplyExecutionKeeps(cfg, t, intent, ticker.last, p.value.order);
    }
    hide LedgerSound, ApplyExecution;
  }

  lemma NotReadyChangesNothing(
      cfg: Config, t: Tables, intent: Intent, market: Market, ticker: Ticker, fillId: nat, now: int)
    ensures var p := Prepare(cfg, t, intent, market, ticker, fillId, now);
            var (after, r) := Execute(cfg, t, intent, market, ticker, fillId, now);
            && (p.Err? ==> r == Err(p.error))
            && (p.Ok? && p.value.Existing? ==>
                  && after == t
                  && (r.Ok? ==> !r.value.created && r.value.fill == p.value.fill)
                  && (r.Err? ==> r.error == ExecutionIncomplete))
  {
    hide Prepare, ApplyExecution, LatestSnapshot;
  }

  lemma PrepareFails(cfg: Config, t: Tables, intent: Intent, market: Market, ticker: Ticker, fillId: nat, now: int)
    ensures Prepare(cfg, t, intent, market, ticker, fillId, now) != Err(FillNotFinalized)
  {
    hide ExecutionPrice, Worth, FeeOf, SnapshotOf, FillFor;
  }

  // ---------- the whole cycle ----------

  /** The second transaction of the cycle that opened with `o`. */
  function BookOf(cfg: Config, o: Opening, input: CycleInput): Result<(Tables, Execution), Error>
    requires o.Decided?
  {
    Book(cfg, o.tables, o.intent, o.market, o.ticker, input.fillId, input.now)
  }

  /** The states a cycle may commit, transaction by transaction. */
  lemma CycleStages(cfg: Config, t: Tables, input: CycleInput)
    ensures var (commits, outcome) := Cycle(cfg, t, input);
            var o := Open(cfg, t, input);
            && |commits| <= 3
            && (|commits| == 0 <==> o.Refused?)
            && (|commits| == 0 ==> outcome == o.outcome)
            && (outcome.Finished? ==> |commits| == 3)
            && (|commits| >= 1 ==> commits[0] == o.tables)
            && (|commits| == 1 ==>
                  if o.Holding? then outcome == Held
                  else !o.decision.approved && outcome == RiskRefused(o.decision, o.intent))
            && (|commits| >= 2 ==> o.Decided? && o.decision.approved)
            && (|commits| == 2 ==>
                  && BookOf(cfg, o, input).Err? && outcome == FailedSafely(BookOf(cfg, o, input).error)
                  && commits[1] == Logged(o.tables, EventKind.ExecutionFailed(o.intent.clientOrderId), input))
            && (|commits| == 3 ==>
                  && BookOf(cfg, o, input).Ok? && outcome.Finished?
                  && commits[1] == BookOf(cfg, o, input).value.0 && outcome.execution == BookOf(cfg, o, input).value.1
                  && (commits[2], outcome.report) == Reconcile(cfg, commits[1], input.correlationId, input.now))
  {
    hide Open, Book, Reconcile;
  }
}
