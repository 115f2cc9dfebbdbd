/** The risk limits over whole runs: daily loss, cooldown and position size, tied to the fills. */
module RiskLimits {
  import opened CycleSteps
  import opened LedgerInvariant
  import opened LedgerSteps
  import opened PaperDomain
  import opened PaperExecution
  import opened PaperLedger
  import opened PaperRepositories
  import opened Reconciliation
  import opened RiskEngine
  import opened TradingCycle
  import opened TradingRuns
  import opened Wrappers

  // ---------- what the risk row says about the fills ----------

  /** Realized result of one day's fills. */
  function DayRealized(fills: seq<Fill>, day: int): real {
    if |fills| == 0 then 0.0
    else
      var f := fills[|fills| - 1];
      DayRealized(fills[..|fills| - 1], day) + if Day(f.executedAt) == day then f.realizedPnl else 0.0
  }

  function CooldownOf(cfg: Config): int {
    cfg.cooldownMinutes * MINUTE
  }

  predicate FillsBefore(fills: seq<Fill>, day: int, clock: int) {
    forall n :: 0 <= n < |fills| ==> fills[n].executedAt <= clock && Day(fills[n].executedAt) <= day
  }

  /** A losing fill of the day blocks until its cooldown is over. */
  predicate Cools(cfg: Config, f: Fill, s: RiskState) {
    Day(f.executedAt) == s.tradingDay && f.realizedPnl < 0.0 ==>
      s.cooldownUntil.Some? && f.executedAt + CooldownOf(cfg) <= s.cooldownUntil.value
  }

  predicate AllCool(cfg: Config, fills: seq<Fill>, s: RiskState) {
    forall n :: 0 <= n < |fills| ==> Cools(cfg, fills[n], s)
  }

  /** The later of two fills of a day keeps the distance that a loss asks for. */
  predicate Apart(cfg: Config, earlier: Fill, later: Fill) {
    earlier.realizedPnl < 0.0 && Day(earlier.executedAt) == Day(later.executedAt) ==>
      later.executedAt >= earlier.executedAt + CooldownOf(cfg)
  }

  predicate AllApart(cfg: Config, fills: seq<Fill>) {
    forall i, j :: 0 <= i < j < |fills| ==> Apart(cfg, fills[i], fills[j])
  }

  ghost predicate RiskKept(cfg: Config, t: Tables, clock: int) {
    && t.risk.Some?
    && var s := t.risk.value;
    && s.tradingDay <= Day(clock)
    && FillsBefore(t.fills, s.tradingDay, clock)
    && s.realizedPnl == DayRealized(t.fills, s.tradingDay)
    && AllCool(cfg, t.fills, s)
    && AllApart(cfg, t.fills)
  }

  // ---------- the transactions keep it ----------

  lemma DayMonotone(a: int, b: int)
    requires a <= b
    ensures Day(a) <= Day(b)
  {}

  lemma RiskLater(cfg: Config, t: Tables, clock: int, now: int)
    requires RiskKept(cfg, t, clock) && clock <= now
    ensures RiskKept(cfg, t, now)
  {
    hide AllCool, AllApart, DayRealized;
    DayMonotone(clock, now);
    hide Day;
  }

  /** Same fills, and a risk row that differs in none of the fields at stake. */
  lemma RiskFrame(cfg: Config, a: Tables, b: Tables, clock: int)
    requires RiskKept(cfg, a, clock) && b.fills == a.fills && b.risk.Some?
    requires var x, y := a.risk.value, b.risk.value;
             x.tradingDay == y.tradingDay && x.realizedPnl == y.realizedPnl && x.cooldownUntil == y.cooldownUntil
    ensures RiskKept(cfg, b, clock)
  {
    hide Day, DayRealized, FillsBefore, AllApart;
  }

  lemma {:induction false} NothingThatDay(fills: seq<Fill>, day: int)
    requires forall n :: 0 <= n < |fills| ==> Day(fills[n].executedAt) < day
    ensures DayRealized(fills, day) == 0.0
  {
    hide Day;
    if |fills| > 0 {
      NothingThatDay(fills[..|fills| - 1], day);
    }
  }

  /** A new day starts with nothing realized and nothing to cool down from. */
  lemma ResetKeeps(cfg: Config, t: Tables, equity: real, clock: int, now: int)
    requires RiskKept(cfg, t, clock) && clock <= now
    ensures var after := t.(risk := ResetRisk(t, equity, now));
            RiskKept(cfg, after, now) && after.risk.value.tradingDay == Day(now)
  {
    RiskLater(cfg, t, clock, now);
    hide AllApart, Day;
    var s := t.risk.value;
    var after := t.(risk := ResetRisk(t, equity, now));
    if Day(now) != s.tradingDay {
      assert forall n :: 0 <= n < |t.fills| ==> Day(t.fills[n].executedAt) < Day(now);
      NothingThatDay(t.fills, Day(now));
    }
    hide DayRealized, FillsBefore;
  }

  lemma DayRealizedAppend(fills: seq<Fill>, f: Fill, day: int)
    ensures DayRealized(fills + [f], day) ==
            DayRealized(fills, day) + if Day(f.executedAt) == day then f.realizedPnl else 0.0
  {
    assert (fills + [f])[..|fills|] == fills;
  }

  /** Cooldown and order of a new fill among the earlier ones. */
  lemma CooldownPosted(cfg: Config, fills: seq<Fill>, f: Fill, s: RiskState, after: RiskState)
    requires AllCool(cfg, fills, s) && AllApart(cfg, fills) && FillsBefore(fills, s.tradingDay, f.executedAt)
    requires Day(f.executedAt) == s.tradingDay == after.tradingDay
    requires s.cooldownUntil.Some? ==> f.executedAt >= s.cooldownUntil.value
    requires after.cooldownUntil ==
             if f.realizedPnl < 0.0 then Some(f.executedAt + CooldownOf(cfg)) else s.cooldownUntil
    ensures AllCool(cfg, fills + [f], after) && AllApart(cfg, fills + [f])
  {
    hide Day, CooldownOf;
    var all := fills + [f];
    forall n | 0 <= n < |all| ensures Cools(cfg, all[n], after) {
      if n < |fills| {
        assert all[n] == fills[n] && Cools(cfg, fills[n], s);
      }
    }
    forall i, j | 0 <= i < j < |all| ensures Apart(cfg, all[i], all[j]) {
      assert all[i] == fills[i] && Cools(cfg, fills[i], s);
      if j < |fills| {
        assert all[j] == fills[j];
      }
    }
  }

  /** Recording a fill keeps the account of the day. */
  lemma RecordKeeps(cfg: Config, t: Tables, f: Fill, after: Tables, equity: real, open: int, now: int)
    requires RiskKept(cfg, t, now) && f.executedAt == now && t.risk.value.tradingDay == Day(now)
    requires t.risk.value.cooldownUntil.Some? ==> now >= t.risk.value.cooldownUntil.value
    requires after.fills == t.fills + [f]
    requires after.risk == Some(Recorded(t.risk.value, f.realizedPnl, equity, open, cfg.cooldownMinutes, now))
    ensures RiskKept(cfg, after, now)
  {
    DayRealizedAppend(t.fills, f, Day(now));
    CooldownPosted(cfg, t.fills, f, t.risk.value, after.risk.value);
    hide Day, DayRealized, AllCool, AllApart;
  }

  // ---------- one cycle ----------

  /** A cycle's new fill and everything the limits demanded of it, in the state the cycle started from. */
  ghost predicate WithinLimits(cfg: Config, t: Tables, input: CycleInput, after: Tables) {
    && Tradable(t, input) && t.risk.Some?
    && var c := ContextIn(t, input);
    && Permits(cfg, input.quantity, c, ResetForDay(t.risk.value, Day(input.now), c.portfolioEquity, input.now))
    && |after.fills| == |t.fills| + 1 && after.fills[..|t.fills|] == t.fills
    && var f := after.fills[|t.fills|];
    && f.executedAt == input.now && f.quantity == input.quantity && f.side == c.side && f.key == input.signal.value.key
    && f.price == ExecutionPrice(input.ticker.value, f.side, cfg.slippageBps)
    && HeldPosition(after, f.key).quantity == c.positionQuantity + (if f.side == Buy then f.quantity else -f.quantity)
  }

  /** What the booked order has to do with the input, also when the intent was stored by an earlier cycle. */
  lemma BookLimits(cfg: Config, t: Tables, input: CycleInput)
    requires LedgerSound(cfg, t) && t.risk.Some? && input.intentId !in t.intents
    requires var o := Open(cfg, t, input); o.Decided? && o.decision.approved && BookOf(cfg, o, input).Ok?
    ensures var o := Open(cfg, t, input);
            var (after, e) := BookOf(cfg, o, input).value;
            if e.created then
              && WithinLimits(cfg, t, input, after) && after.fills == o.tables.fills + [e.fill]
              && after.risk == Some(RecordExecution(cfg, o.tables.risk.value, e, input.now))
            else after == o.tables
  {
    hide LedgerSound, Open, Book, Prepare, FillFor, RecordExecution, Permits, Worth, FeeOf, EquityOf, SpreadBps,
      ExecutionPrice;
    OpenMeans(cfg, t, input);
    var o := Open(cfg, t, input);
    BookMeans(cfg, o.tables, o.intent, o.market, o.ticker, input.fillId, input.now);
    var (after, e) := BookOf(cfg, o, input).value;
    if e.created {
      StoredIntent(cfg, o.tables, o.intent.id);
      BookedPosition(cfg, o, input);
    }
    hide Apply, SnapshotOf;
  }

  lemma StoredIntent(cfg: Config, t: Tables, id: nat)
    requires LedgerSound(cfg, t) && id in t.intents
    ensures IntentSound(t.intents[id])
  {}

  lemma BookedPosition(cfg: Config, o: Opening, input: CycleInput)
    requires o.Decided? && LedgerSound(cfg, o.tables)
    requires o.intent.id in o.tables.intents && o.tables.intents[o.intent.id] == o.intent
    requires BookOf(cfg, o, input).Ok? && BookOf(cfg, o, input).value.1.created
    ensures var (after, e) := BookOf(cfg, o, input).value;
            HeldPosition(after, e.fill.key).quantity ==
            HeldPosition(o.tables, e.fill.key).quantity +
            (if e.fill.side == Buy then e.fill.quantity else -e.fill.quantity)
  {
    BookMeans(cfg, o.tables, o.intent, o.market, o.ticker, input.fillId, input.now);
    var p := Prepare(cfg, o.tables, o.intent, o.market, o.ticker, input.fillId, input.now);
    var order := p.value.order;
    BooksPosted(cfg, o.tables, o.intent, o.ticker.last, order);
    CashHeld(cfg, o.tables);
    HeldPositionValid(o.tables, order.fill.key);
    OrderArithmetic(cfg, o.tables, o.intent, o.ticker.last, order);
    hide LedgerSound, Book, Prepare, OrderSound, RecordExecution;
  }

  lemma CashHeld(cfg: Config, t: Tables)
    requires LedgerSound(cfg, t)
    ensures cfg.quoteAsset in t.balances && t.balances[cfg.quoteAsset].available >= 0.0
    ensures forall k :: k in t.positions ==> ValidPosition(t.positions[k])
  {}

  lemma BookKeeps(cfg: Config, t: Tables, input: CycleInput)
    requires LedgerSound(cfg, t) && t.risk.Some? && input.intentId !in t.intents
    requires var o := Open(cfg, t, input);
             o.Decided? && o.decision.approved && BookOf(cfg, o, input).Ok?
             && RiskKept(cfg, o.tables, input.now) && o.tables.risk.value.tradingDay == Day(input.now)
    ensures RiskKept(cfg, BookOf(cfg, Open(cfg, t, input), input).value.0, input.now)
  {
    hide LedgerSound, Open, Book, RiskKept, Worth, Share, Loss, EquityOf, SpreadBps, Day;
    OpenMeans(cfg, t, input);
    BookLimits(cfg, t, input);
    var o := Open(cfg, t, input);
    var (after, e) := BookOf(cfg, o, input).value;
    if e.created {
      RecordKeeps(cfg, o.tables, e.fill, after, e.snapshot.totalEquity, if e.position.quantity > 0.0 then 1 else 0,
                  input.now);
    }
    hide Recorded;
  }

  lemma OpenKept(cfg: Config, t: Tables, input: CycleInput, clock: int)
    requires LedgerSound(cfg, t) && RiskKept(cfg, t, clock) && input.intentId !in t.intents && clock <= input.now
    ensures var o := Open(cfg, t, input);
            && (!o.Refused? ==> RiskKept(cfg, o.tables, input.now))
            && (o.Decided? ==> o.tables.risk.Some? && o.tables.risk.value.tradingDay == Day(input.now))
  {
    OpenMeans(cfg, t, input);
    RiskLater(cfg, t, clock, input.now);
    var o := Open(cfg, t, input);
    if o.Decided? {
      var equity := ContextIn(t, input).portfolioEquity;
      ResetKeeps(cfg, t, equity, clock, input.now);
      RiskFrame(cfg, t.(risk := ResetRisk(t, equity, input.now)), o.tables, input.now);
    } else if o.Holding? {
      RiskFrame(cfg, t, o.tables, input.now);
    }
    hide LedgerSound, Open, RiskKept, Permits, ContextFor, ResetForDay;
  }

  lemma KeptHasRisk(cfg: Config, t: Tables, clock: int)
    requires RiskKept(cfg, t, clock)
    ensures t.risk.Some?
  {}

  lemma ReconcileKept(cfg: Config, t: Tables, correlationId: string, now: int)
    requires RiskKept(cfg, t, now)
    ensures RiskKept(cfg, Reconcile(cfg, t, correlationId, now).0, now)
  {
    hide RiskKept, ReportOn;
    KeptHasRisk(cfg, t, now);
    RiskFrame(cfg, t, Reconcile(cfg, t, correlationId, now).0, now);
  }

  lemma CycleKept(cfg: Config, t: Tables, input: CycleInput, clock: int)
    requires LedgerSound(cfg, t) && RiskKept(cfg, t, clock) && input.intentId !in t.intents && clock <= input.now
    ensures var commits := Cycle(cfg, t, input).0;
            forall n :: 0 <= n < |commits| ==> RiskKept(cfg, commits[n], input.now)
  {
    hide LedgerSound, RiskKept, Cycle, Open, Book, Reconcile, Day;
    KeptHasRisk(cfg, t, clock);
    CycleStages(cfg, t, input);
    OpenKept(cfg, t, input, clock);
    var commits, o := Cycle(cfg, t, input).0, Open(cfg, t, input);
    if |commits| >= 2 {
      RiskFrame(cfg, o.tables, Logged(o.tables, EventKind.ExecutionFailed(o.intent.clientOrderId), input), input.now);
      if |commits| == 3 {
        BookKeeps(cfg, t, input);
        ReconcileKept(cfg, commits[1], input.correlationId, input.now);
      }
    }
  }

  /** Whatever a cycle commits, a new fill in it is within the limits. */
  lemma CycleWithinLimits(cfg: Config, t: Tables, input: CycleInput)
    requires LedgerSound(cfg, t) && t.risk.Some? && input.intentId !in t.intents
    ensures var commits := Cycle(cfg, t, input).0;
            forall n :: 0 <= n < |commits| ==> commits[n].fills == t.fills || WithinLimits(cfg, t, input, commits[n])
  {
    hide LedgerSound, WithinLimits, Cycle, Open, Book, Reconcile, Permits, ContextIn, ResetRisk, Tradable,
      OpeningKind, RecordExecution;
    CycleStages(cfg, t, input);
    OpenMeans(cfg, t, input);
    var commits, o := Cycle(cfg, t, input).0, Open(cfg, t, input);
    if |commits| == 3 {
      BookLimits(cfg, t, input);
      ReconcileFrame(cfg, commits[1], input.correlationId, input.now);
      if WithinLimits(cfg, t, input, commits[1]) {
        LimitsFrame(cfg, t, input, commits[1], commits[2]);
      }
    }
  }

  lemma LimitsFrame(cfg: Config, t: Tables, input: CycleInput, a: Tables, b: Tables)
    requires WithinLimits(cfg, t, input, a) && SameLedger(b, a)
    ensures WithinLimits(cfg, t, input, b)
  {
    hide Permits, ContextIn, Tradable;
  }

  // ---------- whole runs ----------

  /** Time never runs backwards along the steps. */
  predicate Forward(clock: int, steps: seq<Step>)
    decreases |steps|
  {
    |steps| == 0 || (clock <= TimeOf(steps[0]) && Forward(TimeOf(steps[0]), steps[1..]))
  }

  lemma NextKept(cfg: Config, t: Tables, step: Step, clock: int)
    requires LedgerSound(cfg, t) && RiskKept(cfg, t, clock) && Fresh(t, step) && clock <= TimeOf(step)
    ensures RiskKept(cfg, Next(cfg, t, step), TimeOf(step))
  {
    hide LedgerSound, RiskKept, Cycle, Reconcile;
    KeptHasRisk(cfg, t, clock);
    RiskLater(cfg, t, clock, TimeOf(step));
    match step
    case Initialize(at) =>
      InitializedHasCash(cfg, t);
      InitializedAlready(cfg, t, at);
    case Trading(input, survives) =>
      CycleKept(cfg, t, input, clock);
    case Operate(command, request) =>
      RiskFrame(cfg, t, Next(cfg, t, step), TimeOf(step));
    case Check(correlationId, at) =>
      ReconcileKept(cfg, t, correlationId, at);
  }

  lemma {:induction false} RunKept(cfg: Config, t: Tables, clock: int, steps: seq<Step>)
    requires LedgerSound(cfg, t) && RiskKept(cfg, t, clock) && Possible(cfg, t, steps) && Forward(clock, steps)
    ensures RiskKept(cfg, Run(cfg, t, steps), if |steps| == 0 then clock else TimeOf(steps[|steps| - 1]))
    decreases |steps|
  {
    hide LedgerSound, RiskKept, Next;
    if |steps| > 0 {
      KeptHasRisk(cfg, t, clock);
      NextSound(cfg, t, steps[0]);
      NextKept(cfg, t, steps[0], clock);
      RunKept(cfg, Next(cfg, t, steps[0]), TimeOf(steps[0]), steps[1..]);
    }
  }

  /**
    In every serial run whose clock never goes back: the risk row holds the realized result
    of the trading day's fills, and no fill follows a losing one of its day within the cooldown.
   */
  lemma RiskRowTellsFills(cfg: Config, at: int, steps: seq<Step>)
    requires Possible(cfg, Opened(cfg, at), steps) && Forward(at, steps)
    ensures var t := Run(cfg, Opened(cfg, at), steps);
            && t.risk.Some?
            && t.risk.value.realizedPnl == DayRealized(t.fills, t.risk.value.tradingDay)
            && (forall i, j ::
                  0 <= i < j < |t.fills| && t.fills[i].realizedPnl < 0.0 &&
                  Day(t.fills[i].executedAt) == Day(t.fills[j].executedAt) ==>
                    t.fills[j].executedAt >= t.fills[i].executedAt + cfg.cooldownMinutes * MINUTE)
  {
    OpenedSound(cfg, at);
    assert RiskKept(cfg, Opened(cfg, at), at);
    hide LedgerSound, Run, Opened;
    RunKept(cfg, Opened(cfg, at), at, steps);
    var t := Run(cfg, Opened(cfg, at), steps);
    forall i, j |
      0 <= i < j < |t.fills| && t.fills[i].realizedPnl < 0.0 &&
      Day(t.fills[i].executedAt) == Day(t.fills[j].executedAt)
      ensures t.fills[j].executedAt >= t.fills[i].executedAt + cfg.cooldownMinutes * MINUTE
    {
      assert Apart(cfg, t.fills[i], t.fills[j]);
    }
  }

  // ---------- position size ----------

  /** After a fill, the position at the quoted price is at most its share of the equity before the trade. */
  lemma PositionWithinShare(cfg: Config, t: Tables, step: Step)
    requires LedgerSound(cfg, t) && t.risk.Some? && Fresh(t, step)
    requires Next(cfg, t, step).fills != t.fills
    ensures var after := Next(cfg, t, step);
            && step.Trading? && Tradable(t, step.input) && |after.fills| == |t.fills| + 1
            && var input, f := step.input, after.fills[|t.fills|];
            && HeldPosition(after, f.key).quantity * input.ticker.value.last <=
               EquityOf(t, t.balances[input.market.value.quoteAsset]) * cfg.maxPositionPct
            && (f.side == Buy ==>
                  f.quantity * input.ticker.value.last <= t.balances[input.market.value.quoteAsset].available)
  {
    hide LedgerSound, Cycle, Reconcile, EquityOf, Worth, Share, SpreadBps;
    StepFills(cfg, t, step);
    var after, input := Next(cfg, t, step), step.input;
    var f, c := after.fills[|t.fills|], ContextIn(t, input);
    assert Worth(HeldPosition(after, f.key).quantity, c.referencePrice) <= Share(c.portfolioEquity, cfg.maxPositionPct);
    WorthMeans(HeldPosition(after, f.key).quantity, c.referencePrice);
    WorthMeans(f.quantity, c.referencePrice);
    ShareMeans(c.portfolioEquity, cfg.maxPositionPct);
  }

  lemma WorthMeans(quantity: real, price: real)
    ensures Worth(quantity, price) == quantity * price
  {}

  lemma ShareMeans(amount: real, pct: real)
    ensures Share(amount, pct) == amount * pct
  {}

  lemma StepFills(cfg: Config, t: Tables, step: Step)
    requires LedgerSound(cfg, t) && t.risk.Some? && Fresh(t, step)
    ensures Next(cfg, t, step).fills != t.fills ==>
              step.Trading? && WithinLimits(cfg, t, step.input, Next(cfg, t, step))
  {
    hide LedgerSound, Cycle, WithinLimits, ReportOn;
    if step.Trading? {
      CycleWithinLimits(cfg, t, step.input);
    }
  }

  // ---------- daily loss ----------

  /** The loss of the trading day has reached its share of the equity that the day started with. */
  predicate LossReached(cfg: Config, t: Tables) {
    t.risk.Some? && -t.risk.value.realizedPnl >= t.risk.value.startingEquity * cfg.maxDailyLossPct
  }

  predicate AllOnDay(steps: seq<Step>, day: int) {
    forall n :: 0 <= n < |steps| ==> Day(TimeOf(steps[n])) == day
  }

  /** The accounts of the day are the same. */
  predicate SameDay(a: Tables, b: Tables) {
    && a.risk.Some? && b.risk.Some?
    && a.risk.value.tradingDay == b.risk.value.tradingDay && a.risk.value.startingEquity == b.risk.value.startingEquity
    && a.risk.value.realizedPnl == b.risk.value.realizedPnl
  }

  lemma HasLossRow(cfg: Config, t: Tables)
    requires LossReached(cfg, t)
    ensures t.risk.Some?
  {}

  /** A loss at the limit is a refusal, whatever else holds. */
  lemma LossForbids(cfg: Config, size: real, t: Tables, input: CycleInput)
    requires t.risk.Some? && LossReached(cfg, t) && Day(input.now) == t.risk.value.tradingDay
    ensures Tradable(t, input) ==>
              var equity := ContextIn(t, input).portfolioEquity;
              ResetRisk(t, equity, input.now) == t.risk && !Permits(cfg, size, ContextIn(t, input), t.risk.value)
  {
    hide Day, ContextIn, Permits, LossReached;
    if Tradable(t, input) {
      LossAtLimit(cfg, size, ContextIn(t, input), t);
    }
  }

  lemma LossAtLimit(cfg: Config, size: real, c: RiskContext, t: Tables)
    requires LossReached(cfg, t)
    ensures !Permits(cfg, size, c, t.risk.value)
  {
    hide Worth;
  }

  lemma CycleLossBlocks(cfg: Config, t: Tables, input: CycleInput)
    requires LedgerSound(cfg, t) && LossReached(cfg, t) && Day(input.now) == t.risk.value.tradingDay
    requires input.intentId !in t.intents
    ensures var commits := Cycle(cfg, t, input).0;
            forall n :: 0 <= n < |commits| ==> commits[n].fills == t.fills && SameDay(commits[n], t)
  {
    hide LedgerSound, Cycle, Open, Book, ReportOn, Permits, LossReached, Day, EquityOf, SpreadBps, RecordExecution;
    CycleStages(cfg, t, input);
    OpenMeans(cfg, t, input);
    HasLossRow(cfg, t);
    LossForbids(cfg, input.quantity, t, input);
  }

  lemma StepLossBlocks(cfg: Config, t: Tables, step: Step)
    requires LedgerSound(cfg, t) && LossReached(cfg, t) && Day(TimeOf(step)) == t.risk.value.tradingDay
    requires Fresh(t, step)
    ensures var after := Next(cfg, t, step);
            after.fills == t.fills && SameDay(after, t)
  {
    hide LedgerSound, Cycle, ReportOn, LossReached, Day;
    HasLossRow(cfg, t);
    match step
    case Initialize(at) =>
    case Trading(input, survives) => CycleLossBlocks(cfg, t, input);
    case Operate(command, request) =>
    case Check(correlationId, at) =>
  }

  /** Once the day's loss has reached the limit, no run of that day adds a fill, whoever does what. */
  lemma {:induction false} LossStopsTheDay(cfg: Config, t: Tables, steps: seq<Step>)
    requires LedgerSound(cfg, t) && LossReached(cfg, t) && Possible(cfg, t, steps)
    requires AllOnDay(steps, t.risk.value.tradingDay)
    ensures Run(cfg, t, steps).fills == t.fills
    decreases |steps|
  {
    hide LedgerSound, Next, Day, LossReached;
    HasLossRow(cfg, t);
    if |steps| > 0 {
      StepLossBlocks(cfg, t, steps[0]);
      NextSound(cfg, t, steps[0]);
      SameLoss(cfg, t, Next(cfg, t, steps[0]));
      LossStopsTheDay(cfg, Next(cfg, t, steps[0]), steps[1..]);
    }
  }

  /**
    The same told by the fills: on any account that a run has left whose clock never went back,
    once the losses of the day's fills reach the limit, no step of that day adds another.
   */
  lemma LossesStopTheDay(cfg: Config, at: int, steps: seq<Step>, later: seq<Step>)
    requires Possible(cfg, Opened(cfg, at), steps + later) && Forward(at, steps)
    requires var t := Run(cfg, Opened(cfg, at), steps);
             && t.risk.Some? && AllOnDay(later, t.risk.value.tradingDay)
             && -DayRealized(t.fills, t.risk.value.tradingDay) >= t.risk.value.startingEquity * cfg.maxDailyLossPct
    ensures Run(cfg, Opened(cfg, at), steps + later).fills == Run(cfg, Opened(cfg, at), steps).fills
  {
    hide LedgerSound, Run, Possible, Opened, Forward, DayRealized, AllOnDay, Day;
    RunSplit(cfg, Opened(cfg, at), steps, later);
    AccountSound(cfg, at, steps);
    RiskRowTellsFills(cfg, at, steps);
    LossStopsTheDay(cfg, Run(cfg, Opened(cfg, at), steps), later);
  }

  lemma SameLoss(cfg: Config, a: Tables, b: Tables)
    requires LossReached(cfg, a) && SameDay(b, a)
    ensures LossReached(cfg, b)
  {}
}
