/**
  When the clock goes back between two cycles, a correct account can be killed: the listed
  history, ordered by execution time, shows the sale before the purchase.
 */
module ClockSkew {
  import opened CycleSteps
  import opened Idempotency
  import opened LedgerInvariant
  import opened LedgerSafety
  import opened LedgerSteps
  import opened PaperDomain
  import opened PaperExecution
  import opened PaperLedger
  import opened PaperRepositories
  import opened Reconciliation
  import opened RiskEngine
  import opened RiskLimits
  import opened Sorting
  import opened TradingCycle
  import opened TradingRuns
  import opened Wrappers

  // ---------- when a cycle does book a fill ----------

  /** Everything a first cycle for a signal needs to end in a fill. */
  predicate Fillable(cfg: Config, t: Tables, input: CycleInput) {
    && cfg.mode == PaperMode && Tradable(t, input) && ValidContext(ContextIn(t, input)) && MayTrade(cfg, t, input)
    && input.intentId !in t.intents && ClientOrderIdOf(input, input.signal.value) !in t.intentIds
    && Bookable(cfg, t, input)
  }

  lemma FillableOpens(cfg: Config, t: Tables, input: CycleInput)
    requires LedgerSound(cfg, t) && Fillable(cfg, t, input)
    ensures var o := Open(cfg, t, input);
            o.Decided? && o.decision.approved && o.decision.approvedSize == input.quantity &&
            o.intent == IntentOf(input, input.signal.value, input.ticker.value.last, o.decision) &&
            o.market == input.market.value && o.ticker == input.ticker.value
  {
    hide LedgerSound, Permits, EvaluateRisk, SpreadBps, EquityOf, ValidContext, PriceOf, AppliedTo;
    var c := ContextIn(t, input);
    EvaluateRiskMeans(cfg, t, input.quantity, c);
  }

  lemma FillablePrepares(cfg: Config, t: Tables, input: CycleInput)
    requires LedgerSound(cfg, t) && Fillable(cfg, t, input)
    requires var o := Open(cfg, t, input);
             && o.Decided? && LedgerSound(cfg, o.tables) && SameBooks(o.tables, t)
             && o.decision.approvedSize == input.quantity
             && o.decision.approved
             && o.intent == IntentOf(input, input.signal.value, input.ticker.value.last, o.decision)
             && o.intent.id in o.tables.intents && o.tables.intents[o.intent.id] == o.intent
             && o.tables.risk.Some? && o.tables.risk.value.systemState == Enabled
    ensures var o := Open(cfg, t, input);
            var p := Prepare(cfg, o.tables, o.intent, input.market.value, input.ticker.value, input.fillId, input.now);
            p.Ok? && p.value.Ready?
  {
    hide LedgerSound, Open, Permits, SpreadBps, EquityOf, ValidContext, Apply, Worth, FeeOf, ExecutionPrice, FillFor,
      FillSound, MayTrade;
    var o := Open(cfg, t, input);
    FilledByItsIntent(cfg, o.tables, o.intent.id);
  }

  /** A cycle that is permitted, new, priced and affordable ends in a booked fill. */
  lemma FillableIsFilled(cfg: Config, t: Tables, input: CycleInput)
    requires LedgerSound(cfg, t) && t.risk.Some? && Fillable(cfg, t, input)
    ensures var (commits, outcome) := Cycle(cfg, t, input);
            |commits| == 3 && outcome.Finished? && outcome.execution.created && WithinLimits(cfg, t, input, commits[2])
            && commits[1].snapshots == t.snapshots + [outcome.execution.snapshot]
  {
    hide LedgerSound, Cycle, Open, Book, Prepare, Reconcile, WithinLimits, ContextIn, ValidContext, PriceOf,
      AppliedTo, IntentOf,
      OrderSound, RecordExecution, FillFor, Execute;
    OpenMeans(cfg, t, input);
    FillableOpens(cfg, t, input);
    OpenEffect(cfg, t, input);
    var o := Open(cfg, t, input);
    PermitsEnabled(cfg, input.quantity, ContextIn(t, input), o.tables.risk.value);
    hide Permits;
    FillablePrepares(cfg, t, input);
    ReadyIsBooked(cfg, o.tables, o.intent, o.market, o.ticker, input.fillId, input.now);
    BookMeans(cfg, o.tables, o.intent, o.market, o.ticker, input.fillId, input.now);
    BookCreates(cfg, o, input);
    CycleStages(cfg, t, input);
    BookLimits(cfg, t, input);
    var booked := Cycle(cfg, t, input).0[1];
    ReconcileFrame(cfg, booked, input.correlationId, input.now);
    LimitsFrame(cfg, t, input, booked, Cycle(cfg, t, input).0[2]);
  }

  lemma PermitsEnabled(cfg: Config, size: real, c: RiskContext, s: RiskState)
    requires Permits(cfg, size, c, s)
    ensures s.systemState == Enabled
  {}

  lemma BookCreates(cfg: Config, o: Opening, input: CycleInput)
    requires o.Decided?
    requires var r := Execute(cfg, o.tables, o.intent, o.market, o.ticker, input.fillId, input.now).1;
             r.Ok? && r.value.created
    ensures BookOf(cfg, o, input).Ok? && BookOf(cfg, o, input).value.1.created
  {
    hide Execute, RecordExecution;
  }

  // ---------- a purchase at 0:20, then a sale at 0:10 ----------

  const CONFIG: Config := ConfigRecord(PaperMode, "USDT", 100.0, 0.0, 0.0, 0.1, 1.0, 1, 0.0, 60, 0)

  const KEY := MarketKey("nobitex", "BTCUSDT")

  /** One unit, at a second of the day, at the flat quote of 10 that stands since second 10. */
  function InputAt(action: SignalAction, id: nat, second: nat): CycleInput {
    CycleInput(id, Some(Signal(action, KEY, "ema_atr", "1")), Some(Market(KEY, "USDT", true)),
               Some(TickerRecord(KEY, 10.0, 10.0, 10.0, 10 * SECOND)), 1.0, "", id, id, second * SECOND)
  }

  const PURCHASE := InputAt(BuySignal, 1, 20)
  const SALE := InputAt(SellSignal, 2, 10)

  lemma FlatQuote(action: SignalAction, id: nat, second: nat)
    requires action != HoldSignal
    ensures SpreadBps(InputAt(action, id, second).ticker.value) == 0.0
    ensures PriceOf(CONFIG, InputAt(action, id, second)) == 10.0
  {}

  /** One unit can be bought with 100 and nothing held, or sold with one unit held. */
  predicate Affordable(side: Side, available: real, held: real, equity: real) {
    if side == Buy then available == 100.0 && held == 0.0 && equity == 100.0
    else available >= 0.0 && held == 1.0 && equity > 0.0
  }

  lemma FlatPermits(c: RiskContext, s: RiskState)
    requires Affordable(c.side, c.availableQuote, c.positionQuantity, c.portfolioEquity)
    requires c.availableBase == c.positionQuantity
    requires c.referencePrice == 10.0 && c.spreadBps == Some(0.0)
    requires c.marketDataAt == Some(10 * SECOND) && 10 * SECOND <= c.now <= 70 * SECOND
    requires s.systemState == Enabled && s.startingEquity == 100.0 && s.realizedPnl == 0.0 && s.cooldownUntil.None?
    requires s.openPositions == 0 || c.side == Sell
    ensures Permits(CONFIG, 1.0, c, s) && ValidContext(c)
  {}

  lemma FlatApplied(side: Side, balance: Balance, position: Position, equity: real, now: int)
    requires Affordable(side, balance.available, position.quantity, equity)
    ensures Apply(side, 1.0, Worth(1.0, 10.0), FeeOf(Worth(1.0, 10.0), CONFIG.feeRate), balance, position, now).Ok?
  {
    assert Worth(1.0, 10.0) == 10.0 && FeeOf(10.0, CONFIG.feeRate) == 0.0;
    hide Worth, FeeOf, AverageOver;
  }

  /** An account of the first day with nothing lost and nothing pending. */
  predicate Calm(t: Tables) {
    && t.risk.Some?
    && var s := t.risk.value;
    && s.systemState == Enabled && s.tradingDay == 0 && s.startingEquity == 100.0 && s.realizedPnl == 0.0
    && s.cooldownUntil.None?
    && "USDT" in t.balances
  }

  lemma FlatFillable(t: Tables, action: SignalAction, id: nat, second: nat)
    requires action != HoldSignal && 10 <= second <= 70 && id !in t.intents && Calm(t)
    requires ClientOrderIdOf(InputAt(action, id, second), Signal(action, KEY, "ema_atr", "1")) !in t.intentIds
    requires Affordable(SideOf(action), t.balances["USDT"].available, HeldPosition(t, KEY).quantity,
                        EquityOf(t, t.balances["USDT"]))
    requires t.risk.value.openPositions == 0 || action == SellSignal
    ensures Fillable(CONFIG, t, InputAt(action, id, second))
  {
    hide EquityOf, SpreadBps, PriceOf, Permits, ValidContext, Apply, Affordable, HeldPosition;
    FlatQuote(action, id, second);
    var input := InputAt(action, id, second);
    assert Day(input.now) == 0;
    FlatPermits(ContextIn(t, input), t.risk.value);
    FlatApplied(SideOf(action), t.balances["USDT"], HeldPosition(t, KEY), EquityOf(t, t.balances["USDT"]), input.now);
  }

  const START := Opened(CONFIG, 0)

  function AfterPurchase(): Tables {
    Next(CONFIG, START, Trading(PURCHASE, 3))
  }

  function AfterSale(): Tables {
    Next(CONFIG, AfterPurchase(), Trading(SALE, 3))
  }

  lemma StartIsFillable()
    ensures LedgerSound(CONFIG, START) && START.risk.Some? && Fillable(CONFIG, START, PURCHASE)
  {
    OpenedSound(CONFIG, 0);
    hide LedgerSound;
    assert START.balances["USDT"].available == 100.0;
    FlatFillable(START, BuySignal, 1, 20);
    hide Fillable;
  }

  /** The rows that a booked execution answers with, and the risk row it leaves. */
  lemma BookedRows(cfg: Config, o: Opening, input: CycleInput)
    requires o.Decided? && LedgerSound(cfg, o.tables) && o.tables.snapshots == []
    requires o.intent.id in o.tables.intents && o.tables.intents[o.intent.id] == o.intent
    requires BookOf(cfg, o, input).Ok? && BookOf(cfg, o, input).value.1.created
    ensures var (after, e) := BookOf(cfg, o, input).value;
            && o.market.quoteAsset in after.balances && after.balances[o.market.quoteAsset] == e.balance
            && e.fill.key in after.positions && after.positions[e.fill.key] == e.position
            && EquityOf(after, e.balance) == e.balance.available + Worth(e.position.quantity, o.ticker.last)
            && after.intents.Keys == o.tables.intents.Keys && after.fills == o.tables.fills + [e.fill]
            && after.risk == Some(RecordExecution(cfg, o.tables.risk.value, e, input.now))
  {
    hide LedgerSound, Book, Prepare, FillFor, RecordExecution, Apply, Worth, FeeOf, UnrealizedOf;
    BookMeans(cfg, o.tables, o.intent, o.market, o.ticker, input.fillId, input.now);
    var (after, e) := BookOf(cfg, o, input).value;
    OneSnapshot(e.snapshot);
    assert after.snapshots == [e.snapshot];
    hide LatestSnapshot;
  }

  lemma OneSnapshot(s: Snapshot)
    ensures LatestSnapshot([s]) == Some(s)
  {}

  /** The money, the risk row and the intents after an account's first fill. */
  ghost predicate FirstFill(cfg: Config, t: Tables, input: CycleInput, after: Tables, e: Execution)
    requires Tradable(t, input)
  {
    var market, key := input.market.value, input.signal.value.key;
    && market.quoteAsset in after.balances && after.balances[market.quoteAsset] == e.balance
    && HeldPosition(after, key) == e.position && after.fills == t.fills + [e.fill]
    && EquityOf(after, e.balance) == e.balance.available + Worth(e.position.quantity, input.ticker.value.last)
    && after.intents.Keys <= t.intents.Keys + {input.intentId}
    && t.risk.Some? && after.risk == Some(RecordExecution(cfg, t.risk.value, e, input.now))
  }

  lemma FirstFillBooked(cfg: Config, t: Tables, input: CycleInput)
    requires LedgerSound(cfg, t) && t.risk.Some? && Fillable(cfg, t, input) && t.snapshots == []
    requires t.risk.value.tradingDay == Day(input.now)
    ensures var (commits, outcome) := Cycle(cfg, t, input);
            |commits| == 3 && outcome.Finished? && FirstFill(cfg, t, input, commits[1], outcome.execution)
  {
    hide LedgerSound, Fillable, Cycle, Open, Book, Reconcile, WithinLimits, RecordExecution, EquityOf, Worth;
    FillableIsFilled(cfg, t, input);
    CycleStages(cfg, t, input);
    FirstOpened(cfg, t, input);
    var o := Open(cfg, t, input);
    BookedRows(cfg, o, input);
    FillKeyOf(cfg, o, input);
  }

  lemma FirstOpened(cfg: Config, t: Tables, input: CycleInput)
    requires LedgerSound(cfg, t) && t.risk.Some? && Fillable(cfg, t, input) && t.risk.value.tradingDay == Day(input.now)
    ensures var o := Open(cfg, t, input);
            && o.Decided? && o.market == input.market.value && o.ticker == input.ticker.value
            && o.intent.key == input.signal.value.key
            && LedgerSound(cfg, o.tables) && SameBooks(o.tables, t) && o.tables.risk == t.risk
            && o.tables.intents.Keys <= t.intents.Keys + {input.intentId}
            && o.intent.id in o.tables.intents && o.tables.intents[o.intent.id] == o.intent
  {
    FillableOpens(cfg, t, input);
    hide LedgerSound, Open, Permits, OpeningKind, ContextFor, ValidContext, MayTrade, PriceOf, AppliedTo;
    OpenMeans(cfg, t, input);
  }

  lemma FillKeyOf(cfg: Config, o: Opening, input: CycleInput)
    requires o.Decided? && LedgerSound(cfg, o.tables)
    requires o.intent.id in o.tables.intents && o.tables.intents[o.intent.id] == o.intent
    requires BookOf(cfg, o, input).Ok? && BookOf(cfg, o, input).value.1.created
    ensures BookOf(cfg, o, input).value.1.fill.key == o.intent.key
  {
    hide LedgerSound, Book, Prepare, FillFor, RecordExecution, Apply, Worth, FeeOf, UnrealizedOf, SnapshotOf;
    BookMeans(cfg, o.tables, o.intent, o.market, o.ticker, input.fillId, input.now);
  }

  lemma FirstFillReconciled(cfg: Config, t: Tables, input: CycleInput, clock: int)
    requires Advancing(cfg, t, clock) && clock < input.now
    requires var (commits, outcome) := Cycle(cfg, t, input);
             |commits| == 3 && outcome.Finished? && Tradable(t, input) &&
             FirstFill(cfg, t, input, commits[1], outcome.execution)
    requires input.intentId !in t.intents
    ensures var (commits, outcome) := Cycle(cfg, t, input);
            LedgerSound(cfg, commits[2]) && FirstFill(cfg, t, input, commits[2], outcome.execution)
  {
    AdvancingMeans(cfg, t, clock);
    hide Advancing, LedgerSound, Cycle, Open, Book, Reconcile, FirstFill;
    CycleStages(cfg, t, input);
    CycleSound(cfg, t, input);
    CycleAdvancing(cfg, t, input, clock);
    var booked := Cycle(cfg, t, input).0[1];
    ReconcileFrame(cfg, booked, input.correlationId, input.now);
    ConsistentKeepsRisk(cfg, booked, input.correlationId, input.now);
    FirstFillFrame(cfg, t, input, booked, Cycle(cfg, t, input).0[2], Cycle(cfg, t, input).1.execution);
  }

  lemma FirstFillFrame(cfg: Config, t: Tables, input: CycleInput, a: Tables, b: Tables, e: Execution)
    requires Tradable(t, input) && FirstFill(cfg, t, input, a, e) && SameLedger(b, a) && b.risk == a.risk
    ensures FirstFill(cfg, t, input, b, e)
  {
    hide RecordExecution, Worth, LatestSnapshot;
  }

  lemma StartQuiet()
    ensures Advancing(CONFIG, START, 0) && START.snapshots == [] && START.intents == map[] && START.fills == []
    ensures START.risk.Some?
    ensures START.risk.value.tradingDay == Day(PURCHASE.now) && 0 < PURCHASE.now
  {
    OpenedSound(CONFIG, 0);
    hide LedgerSound;
  }

  lemma ConsistentKeepsRisk(cfg: Config, t: Tables, correlationId: string, now: int)
    ensures var (after, report) := Reconcile(cfg, t, correlationId, now); report.consistent ==> after.risk == t.risk
  {
    hide ReportOn;
  }

  /** The first fill of an account, as a step. */
  lemma FirstFillStep(cfg: Config, t: Tables, input: CycleInput, clock: int)
    requires Advancing(cfg, t, clock) && clock < input.now && Fillable(cfg, t, input) && t.snapshots == []
    requires t.risk.Some? && t.risk.value.tradingDay == Day(input.now)
    ensures var after, outcome := Next(cfg, t, Trading(input, 3)), Cycle(cfg, t, input).1;
            && LedgerSound(cfg, after) && outcome.Finished? && Tradable(t, input)
            && FirstFill(cfg, t, input, after, outcome.execution) && WithinLimits(cfg, t, input, after)
  {
    AdvancingMeans(cfg, t, clock);
    FillableMeans(cfg, t, input);
    hide LedgerSound, Cycle, FirstFill, WithinLimits, Advancing, Fillable, Tradable;
    FirstFillBooked(cfg, t, input);
    FillableIsFilled(cfg, t, input);
    FirstFillReconciled(cfg, t, input, clock);
  }

  lemma FillableMeans(cfg: Config, t: Tables, input: CycleInput)
    requires Fillable(cfg, t, input)
    ensures Tradable(t, input) && input.intentId !in t.intents
  {}

  /** One purchase of one unit at the given second. */
  predicate OnePurchase(fills: seq<Fill>) {
    |fills| == 1 && fills[0].side == Buy && fills[0].key == KEY && fills[0].quantity == 1.0 &&
    fills[0].executedAt == 20 * SECOND
  }

  lemma PurchaseWithinLimits(t: Tables)
    requires WithinLimits(CONFIG, START, PURCHASE, t)
    ensures OnePurchase(t.fills) && HeldPosition(t, KEY).quantity == 1.0
  {
    hide Permits, EquityOf, SpreadBps;
  }

  lemma PurchaseIsCalm(t: Tables, e: Execution)
    requires Tradable(START, PURCHASE) && FirstFill(CONFIG, START, PURCHASE, t, e)
    requires e.fill.realizedPnl == 0.0 && HeldPosition(t, KEY).quantity == 1.0 && e.balance.available >= 0.0
    ensures Calm(t) && t.intents.Keys <= {1} && t.balances["USDT"] == e.balance
    ensures EquityOf(t, e.balance) == e.balance.available + 10.0
  {
    hide EquityOf;
  }

  /** After the purchase one unit is held and nothing was realized. */
  lemma Purchased()
    ensures var t := AfterPurchase();
            && LedgerSound(CONFIG, t) && Calm(t) && t.intents.Keys <= {1} && OnePurchase(t.fills)
            && 0.0 <= t.balances["USDT"].available <= 100.0 && HeldPosition(t, KEY).quantity == 1.0
            && EquityOf(t, t.balances["USDT"]) == t.balances["USDT"].available + 10.0
  {
    hide LedgerSound, Next, Cycle, Advancing, Fillable, WithinLimits, EquityOf, Calm, HeldPosition, Opened;
    StartIsFillable();
    StartQuiet();
    FirstFillStep(CONFIG, START, PURCHASE, 0);
    var t, e := AfterPurchase(), Cycle(CONFIG, START, PURCHASE).1.execution;
    PurchaseWithinLimits(t);
    BuyRealizesNothing(CONFIG, t);
    CashIsThere(CONFIG, t);
    CashWasSpent(t);
    PurchaseIsCalm(t, e);
  }

  lemma BuyRealizesNothing(cfg: Config, t: Tables)
    requires LedgerSound(cfg, t)
    ensures forall n :: 0 <= n < |t.fills| && t.fills[n].side == Buy ==> t.fills[n].realizedPnl == 0.0
  {
    hide Worth, FeeOf, Books;
    forall n | 0 <= n < |t.fills| && t.fills[n].side == Buy ensures t.fills[n].realizedPnl == 0.0 {
      assert FillSound(cfg, t.fills[n], t.intents[t.fills[n].intentId]);
    }
  }

  lemma CashIsThere(cfg: Config, t: Tables)
    requires LedgerSound(cfg, t)
    ensures cfg.quoteAsset in t.balances && t.balances[cfg.quoteAsset].available >= 0.0
  {}

  lemma CashWasSpent(t: Tables)
    requires LedgerSound(CONFIG, t) && OnePurchase(t.fills)
    ensures "USDT" in t.balances && t.balances["USDT"].available <= 100.0
  {
    hide Worth, FeeOf, Rows, Conserves, NeverNegative, IntentsIndexed, IntentsSound;
    var f := t.fills[0];
    assert FillSound(CONFIG, f, t.intents[f.intentId]);
    FeeWithinNotional(f.price, f.quantity, CONFIG.feeRate);
    assert t.fills == [] + [f];
    ReplayAppend(100.0, [], f, f.key);
    assert "USDT" in t.balances.Keys;
  }

  /** The sale's id and client order id are new. */
  lemma SaleIsNew(t: Tables)
    requires LedgerSound(CONFIG, t) && t.intents.Keys <= {1} && OnePurchase(t.fills)
    ensures SALE.intentId !in t.intents && ClientOrderIdOf(SALE, SALE.signal.value) !in t.intentIds
  {
    hide Books, Worth, FeeOf;
    assert 2 !in t.intents.Keys;
    assert t.fills[0].intentId in t.intents.Keys;
    assert FillSound(CONFIG, t.fills[0], t.intents[t.fills[0].intentId]);
    assert IntentSound(t.intents[1]);
  }

  /** Fills of the same market, the earlier listed one a sale: its own prefix is negative. */
  lemma SaleFirstIsNegative(fills: seq<Fill>)
    requires |fills| > 0 && fills[0].side == Sell && fills[0].quantity > 0.0
    ensures !NeverNegative(fills)
  {
    var first := fills[..1];
    assert first[..0] == [];
    assert ReplayQuantity(first, fills[0].key) == -fills[0].quantity;
  }

  lemma TwoListed(t: Tables)
    requires |t.fills| == 2 && t.fills[1].executedAt < t.fills[0].executedAt
    ensures ListFills(t) == [t.fills[1], t.fills[0]]
  {
    hide Sort, KeyLeq;
    var s := [t.fills[1], t.fills[0]];
    assert KeyLess(FillKey(s[0]), FillKey(s[1]));
    SortSorts(FillKey, t.fills);
    Swapped(t.fills);
    SortedUnique(FillKey, s, ListFills(t));
  }

  lemma Swapped(fills: seq<Fill>)
    requires |fills| == 2
    ensures multiset(fills) == multiset([fills[1], fills[0]])
  {
    assert fills == [fills[0], fills[1]];
  }

  lemma SaleListing(before: Tables, t: Tables)
    requires OnePurchase(before.fills) && WithinLimits(CONFIG, before, SALE, t)
    ensures !NeverNegative(ListFills(t))
  {
    hide Permits, EquityOf, SpreadBps, NeverNegative, ListFills;
    assert t.fills[0] == t.fills[..1][0];
    TwoListed(t);
    SaleFirstIsNegative(ListFills(t));
  }

  /** A cycle whose fill is listed out of order ends with its own reconciliation killing the account. */
  lemma DisorderKills(cfg: Config, t: Tables, input: CycleInput)
    requires LedgerSound(cfg, t) && t.risk.Some? && input.intentId !in t.intents
    requires var commits := Cycle(cfg, t, input).0; |commits| == 3 && !NeverNegative(ListFills(commits[2]))
    ensures var after := Next(cfg, t, Trading(input, 3));
            LedgerSound(cfg, after) && IsKilled(after) && !ReportOn(cfg, after, input.now).consistent
  {
    hide LedgerSound, Cycle, Open, BookOf, ReportOn, NeverNegative, Sort;
    CycleStages(cfg, t, input);
    CycleSound(cfg, t, input);
    CycleEffects(cfg, t, input);
    var booked, after := Cycle(cfg, t, input).0[1], Cycle(cfg, t, input).0[2];
    SoundIffListedInOrder(cfg, booked, input.now);
    SoundIffListedInOrder(cfg, after, input.now);
    ReconcileEffect(cfg, booked, input.correlationId, input.now);
    ReconcileFrame(cfg, booked, input.correlationId, input.now);
  }

  lemma SaleIsFillable()
    ensures var t := AfterPurchase();
            LedgerSound(CONFIG, t) && t.risk.Some? && OnePurchase(t.fills) && Fillable(CONFIG, t, SALE) &&
            SALE.intentId !in t.intents
  {
    hide LedgerSound, WithinLimits, EquityOf, Next, Fillable, Opened;
    Purchased();
    var t := AfterPurchase();
    SaleIsNew(t);
    FlatFillable(t, SellSignal, 2, 10);
  }

  /**
    Without an advancing clock, reconciliation does not stay consistent: here is a run of one
    purchase and then one sale at an earlier time. The cash and the quantities are right, yet the report is inconsistent
    and the account ends KILLED without any operator's command.
   */
  lemma ClockSkewKills()
    ensures AfterSale() == Run(CONFIG, START, [Trading(PURCHASE, 3), Trading(SALE, 3)])
    ensures Possible(CONFIG, START, [Trading(PURCHASE, 3), Trading(SALE, 3)])
    ensures LedgerSound(CONFIG, AfterSale()) && IsKilled(AfterSale())
    ensures !ReportOn(CONFIG, AfterSale(), SALE.now).consistent
  {
    hide LedgerSound, WithinLimits, Fillable, Opened, ReportOn, IsKilled, NeverNegative, OnePurchase, Cycle, Sort, Calm,
      InputAt;
    SaleIsFillable();
    PurchaseIsFresh();
    var t := AfterPurchase();
    FillableIsFilled(CONFIG, t, SALE);
    SaleListing(t, AfterSale());
    DisorderKills(CONFIG, t, SALE);
    TwoSteps(CONFIG, START, Trading(PURCHASE, 3), Trading(SALE, 3));
  }

  lemma PurchaseIsFresh()
    ensures PURCHASE.intentId !in START.intents
  {}

  lemma TwoSteps(cfg: Config, t: Tables, first: Step, second: Step)
    ensures Run(cfg, t, [first, second]) == Next(cfg, Next(cfg, t, first), second)
    ensures Possible(cfg, t, [first, second]) <==> Fresh(t, first) && Fresh(Next(cfg, t, first), second)
  {
    hide Next, Fresh;
    assert [first, second][1..] == [second] && [second][1..] == [];
    assert Run(cfg, Next(cfg, t, first), [second]) == Next(cfg, Next(cfg, t, first), second);
    assert Possible(cfg, Next(cfg, t, first), [second]) <==> Fresh(Next(cfg, t, first), second);
  }
}
