/**
  Serial runs of the PAPER system: any sequence of initializations, cycles, operator
  commands and reconciliations, where a cycle may die after any of its commits.
 */
module TradingRuns {
  import opened AdminState
  import opened CycleSteps
  import opened LedgerInvariant
  import opened LedgerSteps
  import opened PaperDomain
  import opened PaperExecution
  import opened PaperLedger
  import opened PaperRepositories
  import opened Reconciliation
  import RiskEngine
  import opened TradingCycle
  import opened Wrappers

  datatype Step =
    | Initialize(at: int)
    | Trading(input: CycleInput, survives: nat) // the process dies once this many commits are made
    | Operate(command: Command, request: Request)
    | Check(correlationId: string, at: int)

  function TimeOf(step: Step): int {
    match step
    case Initialize(at) => at
    case Trading(input, _) => input.now
    case Operate(_, request) => request.now
    case Check(_, at) => at
  }

  function Surviving(commits: seq<Tables>, survives: nat): seq<Tables> {
    if survives < |commits| then commits[..survives] else commits
  }

  /** The committed rows after one step. */
  function Next(cfg: Config, t: Tables, step: Step): Tables {
    match step
    case Initialize(at) => Initialized(cfg, t, at)
    case Trading(input, survives) => LastOf(t, Surviving(Cycle(cfg, t, input).0, survives))
    case Operate(command, request) => Transition(t, command, request).0
    case Check(correlationId, at) => Reconcile(cfg, t, correlationId, at).0
  }

  function Run(cfg: Config, t: Tables, steps: seq<Step>): Tables
    decreases |steps|
  {
    if |steps| == 0 then t else Run(cfg, Next(cfg, t, steps[0]), steps[1..])
  }

  /** A fresh account. */
  function Opened(cfg: Config, at: int): Tables {
    Initialized(cfg, EMPTY_TABLES, at)
  }

  /** A new row id is a random UUID: no stored intent has it yet. */
  predicate Fresh(t: Tables, step: Step) {
    step.Trading? ==> step.input.intentId !in t.intents
  }

  predicate Possible(cfg: Config, t: Tables, steps: seq<Step>)
    decreases |steps|
  {
    |steps| == 0 || (Fresh(t, steps[0]) && Possible(cfg, Next(cfg, t, steps[0]), steps[1..]))
  }

  // ---------- every commit keeps the ledger invariant ----------

  lemma OpenedSound(cfg: Config, at: int)
    ensures LedgerSound(cfg, Opened(cfg, at))
  {
    var t := Opened(cfg, at);
    assert t.fills == [] && t.positionRows == [] && t.intents == map[];
    assert forall key :: HeldPosition(t, key) == NO_POSITION;
    assert NeverNegative(t.fills);
  }

  /** A fresh account: the initial balance in the quote asset, an enabled risk row of today, and nothing else. */
  lemma OpenedMeans(cfg: Config, at: int)
    ensures var t := Opened(cfg, at);
            && t.balances == map[cfg.quoteAsset := Balance(cfg.initialBalance, at)]
            && t.intents == map[] && t.intentIds == map[] && t.fills == [] && t.positions == map[]
            && t.positionRows == [] && t.snapshots == [] && t.events == []
            && t.risk.Some?
            && var s := t.risk.value;
            && s.tradingDay * 86_400_000_000 <= at < (s.tradingDay + 1) * 86_400_000_000
            && s == RiskState(Enabled, s.tradingDay, cfg.initialBalance, 0.0, cfg.initialBalance, 0.0, None, 0, at)
  {}

  lemma ReconcileFrame(cfg: Config, t: Tables, correlationId: string, now: int)
    ensures SameLedger(Reconcile(cfg, t, correlationId, now).0, t)
  {
    hide ReportOn;
  }

  lemma TradeSound(cfg: Config, o: Opening, input: CycleInput)
    requires o.Decided? && LedgerSound(cfg, o.tables)
    requires o.intent.id in o.tables.intents && o.tables.intents[o.intent.id] == o.intent
    ensures LedgerSound(cfg, Logged(o.tables, EventKind.ExecutionFailed(o.intent.clientOrderId), input))
    ensures var b := BookOf(cfg, o, input);
            b.Ok? ==>
              LedgerSound(cfg, b.value.0) &&
              LedgerSound(cfg, Reconcile(cfg, b.value.0, input.correlationId, input.now).0)
  {
    LedgerFrame(cfg, o.tables, Logged(o.tables, EventKind.ExecutionFailed(o.intent.clientOrderId), input));
    var b := BookOf(cfg, o, input);
    if b.Ok? {
      hide Finalized, OrderSound, Prepare, FillFor, RecordExecution;
      BookMeans(cfg, o.tables, o.intent, o.market, o.ticker, input.fillId, input.now);
      ReconcileFrame(cfg, b.value.0, input.correlationId, input.now);
      LedgerFrame(cfg, b.value.0, Reconcile(cfg, b.value.0, input.correlationId, input.now).0);
    }
    hide LedgerSound, Book, Reconcile;
  }

  /** Every state a cycle commits satisfies the ledger invariant. */
  lemma CycleSound(cfg: Config, t: Tables, input: CycleInput)
    requires LedgerSound(cfg, t) && input.intentId !in t.intents
    ensures var commits := Cycle(cfg, t, input).0;
            forall n :: 0 <= n < |commits| ==> LedgerSound(cfg, commits[n])
  {
    hide LedgerSound, Cycle, Open, Book, Reconcile, SameBooks, RiskEngine.Permits, ContextIn, ResetRisk, Tradable,
      OpeningKind;
    CycleStages(cfg, t, input);
    OpenMeans(cfg, t, input);
    var o := Open(cfg, t, input);
    if o.Decided? {
      TradeSound(cfg, o, input);
    }
  }

  lemma InitializedAlready(cfg: Config, t: Tables, now: int)
    requires cfg.quoteAsset in t.balances && t.risk.Some?
    ensures Initialized(cfg, t, now) == t
  {}

  lemma NextSound(cfg: Config, t: Tables, step: Step)
    requires LedgerSound(cfg, t) && t.risk.Some? && Fresh(t, step)
    ensures LedgerSound(cfg, Next(cfg, t, step))
  {
    hide LedgerSound, Cycle, Reconcile;
    match step
    case Initialize(at) =>
      InitializedHasCash(cfg, t);
      InitializedAlready(cfg, t, at);
    case Trading(input, survives) =>
      CycleSound(cfg, t, input);
    case Operate(command, request) =>
      LedgerFrame(cfg, t, Next(cfg, t, step));
    case Check(correlationId, at) =>
      ReconcileFrame(cfg, t, correlationId, at);
      LedgerFrame(cfg, t, Next(cfg, t, step));
  }

  // ---------- the risk row and the fills ----------

  /** What a cycle's commit may do: keep the system state or kill, add fills only while ENABLED. */
  predicate CycleEffect(t: Tables, c: Tables) {
    && t.risk.Some? && c.risk.Some? && t.fills <= c.fills
    && (c.risk.value.systemState == t.risk.value.systemState || c.risk.value.systemState == Killed)
    && (c.fills != t.fills ==> t.risk.value.systemState == Enabled)
  }

  lemma OpenEffect(cfg: Config, t: Tables, input: CycleInput)
    requires LedgerSound(cfg, t) && t.risk.Some? && input.intentId !in t.intents
    ensures var o := Open(cfg, t, input);
            !o.Refused? ==>
              o.tables.risk.Some? && o.tables.fills == t.fills &&
              o.tables.risk.value.systemState == t.risk.value.systemState
  {
    hide LedgerSound, Open, RiskEngine.Permits, ContextFor;
    OpenMeans(cfg, t, input);
  }

  lemma BookEffect(cfg: Config, o: Opening, input: CycleInput)
    requires o.Decided? && LedgerSound(cfg, o.tables) && o.tables.risk.Some?
    requires o.intent.id in o.tables.intents && o.tables.intents[o.intent.id] == o.intent
    ensures var b := BookOf(cfg, o, input);
            b.Ok? ==>
              CycleEffect(o.tables, b.value.0) && b.value.0.risk.value.systemState == o.tables.risk.value.systemState
                      && b.value.0.events == o.tables.events
  {
    hide LedgerSound, Book, Prepare, OrderSound, FillFor;
    BookMeans(cfg, o.tables, o.intent, o.market, o.ticker, input.fillId, input.now);
  }

  lemma ReconcileEffect(cfg: Config, t: Tables, correlationId: string, now: int)
    requires t.risk.Some?
    ensures var (after, report) := Reconcile(cfg, t, correlationId, now);
            && CycleEffect(t, after) && after.fills == t.fills
            && after.risk.value.systemState == (if report.consistent then t.risk.value.systemState else Killed)
            && var kind :=
                 if report.consistent then ReconciliationSucceeded else ReconciliationFailed(report.anomalies);
            after.events == t.events + [Event(kind, correlationId, now)]
  {
    hide ReportOn;
  }

  lemma CycleEffects(cfg: Config, t: Tables, input: CycleInput)
    requires LedgerSound(cfg, t) && t.risk.Some? && input.intentId !in t.intents
    ensures var commits := Cycle(cfg, t, input).0;
            forall n :: 0 <= n < |commits| ==> CycleEffect(t, commits[n])
  {
    hide LedgerSound, Cycle, Open, Book, Reconcile, SameBooks, RiskEngine.Permits, ContextIn, ResetRisk, Tradable,
      OpeningKind;
    CycleStages(cfg, t, input);
    OpenMeans(cfg, t, input);
    OpenEffect(cfg, t, input);
    var o := Open(cfg, t, input);
    if o.Decided? {
      BookEffect(cfg, o, input);
      var b := BookOf(cfg, o, input);
      if b.Ok? {
        ReconcileEffect(cfg, b.value.0, input.correlationId, input.now);
      }
    }
  }

  lemma InitializedHasCash(cfg: Config, t: Tables)
    requires LedgerSound(cfg, t)
    ensures cfg.quoteAsset in t.balances
  {
    assert cfg.quoteAsset in t.balances.Keys;
  }

  lemma NextKeepsRisk(cfg: Config, t: Tables, step: Step)
    requires LedgerSound(cfg, t) && t.risk.Some? && Fresh(t, step)
    ensures Next(cfg, t, step).risk.Some?
  {
    hide LedgerSound, Cycle, ReportOn;
    if step.Trading? {
      CycleEffects(cfg, t, step.input);
    }
  }

  // ---------- runs ----------

  /**
    Ledger safety over every serial run, with crashes after any commit and any retries:
    fills and FILLED intents correspond one to one, replaying the fills gives the stored
    cash and quantities, value is conserved, nothing is ever negative.
   */
  lemma {:induction false} RunSound(cfg: Config, t: Tables, steps: seq<Step>)
    requires LedgerSound(cfg, t) && t.risk.Some? && Possible(cfg, t, steps)
    ensures LedgerSound(cfg, Run(cfg, t, steps)) && Run(cfg, t, steps).risk.Some?
    decreases |steps|
  {
    hide LedgerSound, Next;
    if |steps| > 0 {
      NextSound(cfg, t, steps[0]);
      NextKeepsRisk(cfg, t, steps[0]);
      RunSound(cfg, Next(cfg, t, steps[0]), steps[1..]);
    }
  }

  lemma {:induction false} RunSplit(cfg: Config, t: Tables, first: seq<Step>, second: seq<Step>)
    ensures Run(cfg, t, first + second) == Run(cfg, Run(cfg, t, first), second)
    ensures Possible(cfg, t, first + second) <==> Possible(cfg, t, first) && Possible(cfg, Run(cfg, t, first), second)
    decreases |first|
  {
    hide Next, Fresh;
    if |first| == 0 {
      assert first + second == second;
    } else {
      assert (first + second)[1..] == first[1..] + second;
      RunSplit(cfg, Next(cfg, t, first[0]), first[1..], second);
    }
  }

  /** The same, from a fresh account. */
  lemma AccountSound(cfg: Config, at: int, steps: seq<Step>)
    requires Possible(cfg, Opened(cfg, at), steps)
    ensures LedgerSound(cfg, Run(cfg, Opened(cfg, at), steps)) && Run(cfg, Opened(cfg, at), steps).risk.Some?
  {
    hide LedgerSound, Run;
    OpenedSound(cfg, at);
    RunSound(cfg, Opened(cfg, at), steps);
  }

  // ---------- what that means ----------

  /** In every reachable account each intent has at most one fill, and it has one exactly when it is FILLED. */
  lemma FilledExactlyOnce(cfg: Config, at: int, steps: seq<Step>, id: nat)
    requires Possible(cfg, Opened(cfg, at), steps)
    ensures var t := Run(cfg, Opened(cfg, at), steps);
            && (forall i, j :: 0 <= i < j < |t.fills| ==> t.fills[i].intentId != t.fills[j].intentId)
            && ((exists n :: 0 <= n < |t.fills| && t.fills[n].intentId == id) <==>
                  id in t.intents && t.intents[id].status == Filled)
  {
    AccountSound(cfg, at, steps);
    var t := Run(cfg, Opened(cfg, at), steps);
    hide Run, Opened, Possible, Books, Worth, FeeOf;
    FillForMember(t.fills, id);
    if n :| 0 <= n < |t.fills| && t.fills[n].intentId == id {
      assert FillSound(cfg, t.fills[n], t.intents[t.fills[n].intentId]);
    }
  }

  /**
    In every reachable account the stored cash and quantities are those of the replay, and
    the configured asset is the only one held.
   */
  lemma LedgerReplays(cfg: Config, at: int, steps: seq<Step>, key: MarketKey)
    requires Possible(cfg, Opened(cfg, at), steps)
    ensures var t := Run(cfg, Opened(cfg, at), steps);
            && t.balances.Keys == {cfg.quoteAsset}
            && t.balances[cfg.quoteAsset].available == ReplayCash(cfg.initialBalance, t.fills)
            && QuantityAt(t.positions, key) == ReplayQuantity(t.fills, key)
            && (forall n :: 0 <= n <= |t.fills| ==> ReplayQuantity(t.fills[..n], key) >= 0.0)
  {
    AccountSound(cfg, at, steps);
    var t := Run(cfg, Opened(cfg, at), steps);
    hide Run, Opened, Possible, ReplayCash, ReplayQuantity, FillsMatchIntents, IntentsIndexed, IntentsSound;
    assert HeldPosition(t, key).quantity == ReplayQuantity(t.fills, key);
  }

  /**
    In every reachable account cash plus the cost of what is held is the initial balance
    plus everything realized; cash is never negative.
   */
  lemma ValueIsConserved(cfg: Config, at: int, steps: seq<Step>)
    requires Possible(cfg, Opened(cfg, at), steps)
    ensures var t := Run(cfg, Opened(cfg, at), steps);
            && cfg.quoteAsset in t.balances && t.balances[cfg.quoteAsset].available >= 0.0
            && t.balances[cfg.quoteAsset].available + Total(BookValue, t.positions, t.positionRows) ==
               cfg.initialBalance + Total(RealizedOf, t.positions, t.positionRows)
            && (forall key :: key in t.positions ==>
                  var p := t.positions[key];
                  p.quantity >= 0.0 && p.averageCost >= 0.0 && (p.quantity == 0.0 ==> p.averageCost == 0.0))
            && (forall key :: key in t.positionRows <==> key in t.positions)
            && (forall i, j :: 0 <= i < j < |t.positionRows| ==> t.positionRows[i] != t.positionRows[j])
  {
    AccountSound(cfg, at, steps);
    var t := Run(cfg, Opened(cfg, at), steps);
    hide Run, Opened, Possible, Total, FillsMatchIntents, IntentsIndexed, IntentsSound;
    assert cfg.quoteAsset in t.balances.Keys;
    forall key | key in t.positions ensures ValidPosition(t.positions[key]) {}
  }

  /**
    While a single market was traded, every snapshot's equity is the initial balance plus
    realized and unrealized result.
   */
  lemma EquityIsExplained(cfg: Config, at: int, steps: seq<Step>)
    requires Possible(cfg, Opened(cfg, at), steps)
    requires SingleMarket(Run(cfg, Opened(cfg, at), steps).fills)
    ensures var t := Run(cfg, Opened(cfg, at), steps);
            forall n :: 0 <= n < |t.snapshots| ==>
              t.snapshots[n].totalEquity ==
                cfg.initialBalance + t.snapshots[n].realizedPnl + t.snapshots[n].unrealizedPnl
  {
    AccountSound(cfg, at, steps);
    var t := Run(cfg, Opened(cfg, at), steps);
    hide Run, Opened, Possible, SingleMarket;
    forall n | 0 <= n < |t.snapshots|
      ensures t.snapshots[n].totalEquity ==
              cfg.initialBalance + t.snapshots[n].realizedPnl + t.snapshots[n].unrealizedPnl
    {
      assert EquityExplained(cfg, t.snapshots[n]);
    }
  }
}
