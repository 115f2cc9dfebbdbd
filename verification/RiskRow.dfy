/** The rest of the risk row over whole runs: peak, drawdown and open positions, tied to snapshots and positions. */
module RiskRow {
  import opened CycleSteps
  import opened LedgerInvariant
  import opened LedgerSafety
  import opened LedgerSteps
  import opened PaperDomain
  import opened PaperExecution
  import opened PaperLedger
  import opened PaperRepositories
  import opened Reconciliation
  import opened RiskEngine
  import opened RiskLimits
  import opened TradingCycle
  import opened TradingRuns
  import opened Wrappers

  /** The highest equity of a day: what it started with, or a snapshot taken that day. */
  function DayPeak(snapshots: seq<Snapshot>, day: int, start: real): real {
    if |snapshots| == 0 then start
    else
      var before, s := DayPeak(snapshots[..|snapshots| - 1], day, start), snapshots[|snapshots| - 1];
      if Day(s.timestamp) == day && s.totalEquity > before then s.totalEquity else before
  }

  /** Equity after the last fill. */
  function LastEquity(cfg: Config, snapshots: seq<Snapshot>): real {
    if |snapshots| == 0 then cfg.initialBalance else snapshots[|snapshots| - 1].totalEquity
  }

  /** One if the market of the last fill is still held. */
  function OpenAfterLast(t: Tables): int {
    if |t.fills| > 0 && HeldPosition(t, t.fills[|t.fills| - 1].key).quantity > 0.0 then 1 else 0
  }

  /** Snapshots strictly in time order, none after the last step or the trading day, one per fill. */
  predicate SnapshotsBefore(t: Tables, day: int, last: int) {
    && |t.snapshots| == |t.fills|
    && (forall i, j :: 0 <= i < j < |t.snapshots| ==> t.snapshots[i].timestamp < t.snapshots[j].timestamp)
    && (forall n :: 0 <= n < |t.snapshots| ==> t.snapshots[n].timestamp <= last && Day(t.snapshots[n].timestamp) <= day)
  }

  /** The row agrees with snapshots taken until `last`, at the time `clock`. */
  ghost predicate RowKept(cfg: Config, t: Tables, last: int, clock: int) {
    && t.risk.Some? && last <= clock
    && var s := t.risk.value;
    && s.tradingDay <= Day(clock)
    && SnapshotsBefore(t, s.tradingDay, last)
    && s.peakEquity == DayPeak(t.snapshots, s.tradingDay, s.startingEquity)
    && s.drawdown == s.peakEquity - LastEquity(cfg, t.snapshots) && s.drawdown >= 0.0
    && s.openPositions == OpenAfterLast(t)
  }

  // ---------- the transactions keep it ----------

  lemma RowLater(cfg: Config, t: Tables, last: int, clock: int, later: int, now: int)
    requires RowKept(cfg, t, last, clock) && last <= later <= now && clock <= now
    ensures RowKept(cfg, t, later, now)
  {
    hide DayPeak, LastEquity, OpenAfterLast;
    DayMonotone(clock, now);
    hide Day;
  }

  lemma RowFrame(cfg: Config, a: Tables, b: Tables, last: int, clock: int)
    requires RowKept(cfg, a, last, clock) && SameBooks(b, a) && b.risk.Some?
    requires b.risk.value == a.risk.value.(systemState := b.risk.value.systemState, updatedAt := b.risk.value.updatedAt)
    ensures RowKept(cfg, b, last, clock)
  {
    hide Day, DayPeak, LastEquity;
  }

  lemma {:induction false} NoSnapshotThatDay(snapshots: seq<Snapshot>, day: int, start: real)
    requires forall n :: 0 <= n < |snapshots| ==> Day(snapshots[n].timestamp) < day
    ensures DayPeak(snapshots, day, start) == start
  {
    hide Day;
    if |snapshots| > 0 {
      NoSnapshotThatDay(snapshots[..|snapshots| - 1], day, start);
    }
  }

  /** In strict time order the latest snapshot is the last one, so no tie has to be broken. */
  lemma {:induction false} LatestIsLast(snapshots: seq<Snapshot>)
    requires forall i, j :: 0 <= i < j < |snapshots| ==> snapshots[i].timestamp < snapshots[j].timestamp
    ensures LatestSnapshot(snapshots) == if |snapshots| == 0 then None else Some(snapshots[|snapshots| - 1])
  {
    if |snapshots| > 0 {
      LatestIsLast(snapshots[..|snapshots| - 1]);
    }
  }

  /** The equity that a risk context sees is the equity after the last fill. */
  lemma ContextSeesLastEquity(cfg: Config, t: Tables, input: CycleInput, clock: int)
    requires LedgerSound(cfg, t) && RowKept(cfg, t, clock, clock) && Tradable(t, input)
    ensures ContextIn(t, input).portfolioEquity == LastEquity(cfg, t.snapshots)
  {
    LatestIsLast(t.snapshots);
    OnlyQuoteAsset(cfg, t, input.market.value.quoteAsset);
    hide LedgerSound, SpreadBps, DayPeak, LatestSnapshot, Day;
  }

  lemma OnlyQuoteAsset(cfg: Config, t: Tables, asset: string)
    requires LedgerSound(cfg, t) && asset in t.balances
    ensures asset == cfg.quoteAsset && (t.fills == [] ==> t.balances[asset].available == cfg.initialBalance)
  {
    assert asset in t.balances.Keys;
  }

  lemma ResetKeepsRow(cfg: Config, t: Tables, clock: int, now: int)
    requires RowKept(cfg, t, clock, clock) && clock <= now
    ensures var after := t.(risk := ResetRisk(t, LastEquity(cfg, t.snapshots), now));
            RowKept(cfg, after, clock, now) && after.risk.value.tradingDay == Day(now)
  {
    RowLater(cfg, t, clock, clock, clock, now);
    hide Day, LastEquity;
    var equity := LastEquity(cfg, t.snapshots);
    if Day(now) != t.risk.value.tradingDay {
      assert forall n :: 0 <= n < |t.snapshots| ==> Day(t.snapshots[n].timestamp) < Day(now);
      NoSnapshotThatDay(t.snapshots, Day(now), equity);
    }
    hide DayPeak;
  }

  lemma RecordKeepsRow(cfg: Config, t: Tables, after: Tables, e: Execution, last: int, now: int)
    requires RowKept(cfg, t, last, now) && last < now && t.risk.value.tradingDay == Day(now)
    requires after.snapshots == t.snapshots + [e.snapshot] && e.snapshot.timestamp == now
    requires after.fills == t.fills + [e.fill] && HeldPosition(after, e.fill.key) == e.position
    requires after.risk == Some(RecordExecution(cfg, t.risk.value, e, now))
    ensures RowKept(cfg, after, now, now)
  {
    hide Day;
    assert after.snapshots[..|t.snapshots|] == t.snapshots;
  }

  lemma BookedRow(cfg: Config, o: Opening, input: CycleInput, last: int)
    requires o.Decided? && LedgerSound(cfg, o.tables)
    requires o.intent.id in o.tables.intents && o.tables.intents[o.intent.id] == o.intent
    requires RowKept(cfg, o.tables, last, input.now) && last < input.now
    requires o.tables.risk.value.tradingDay == Day(input.now)
    ensures BookOf(cfg, o, input).Ok? ==> RowKept(cfg, BookOf(cfg, o, input).value.0, input.now, input.now)
  {
    hide LedgerSound, RowKept, Book, Prepare, FillFor, RecordExecution, Apply, Worth, FeeOf, UnrealizedOf,
      ExecutionPrice, Day;
    BookMeans(cfg, o.tables, o.intent, o.market, o.ticker, input.fillId, input.now);
    RowLater(cfg, o.tables, last, input.now, input.now, input.now);
    var b := BookOf(cfg, o, input);
    if b.Ok? && b.value.1.created {
      RecordKeepsRow(cfg, o.tables, b.value.0, b.value.1, last, input.now);
    }
  }

  lemma OpenedRow(cfg: Config, t: Tables, input: CycleInput, clock: int)
    requires LedgerSound(cfg, t) && RowKept(cfg, t, clock, clock) && input.intentId !in t.intents && clock <= input.now
    ensures var o := Open(cfg, t, input);
            && (!o.Refused? ==> RowKept(cfg, o.tables, clock, input.now))
            && (o.Decided? ==> o.tables.risk.Some? && o.tables.risk.value.tradingDay == Day(input.now))
  {
    OpenMeans(cfg, t, input);
    RowLater(cfg, t, clock, clock, clock, input.now);
    var o := Open(cfg, t, input);
    if o.Decided? {
      ContextSeesLastEquity(cfg, t, input, clock);
      ResetKeepsRow(cfg, t, clock, input.now);
      RowFrame(cfg, t.(risk := ResetRisk(t, LastEquity(cfg, t.snapshots), input.now)), o.tables, clock, input.now);
    } else if o.Holding? {
      RowFrame(cfg, t, o.tables, clock, input.now);
    }
    hide LedgerSound, Open, RowKept, Permits, ContextFor, ResetForDay;
  }

  lemma RowHasRisk(cfg: Config, t: Tables, clock: int)
    requires RowKept(cfg, t, clock, clock)
    ensures t.risk.Some?
  {}

  lemma ReconciledRow(cfg: Config, t: Tables, correlationId: string, now: int)
    requires RowKept(cfg, t, now, now)
    ensures RowKept(cfg, Reconcile(cfg, t, correlationId, now).0, now, now)
  {
    hide RowKept, ReportOn;
    RowHasRisk(cfg, t, now);
    RowFrame(cfg, t, Reconcile(cfg, t, correlationId, now).0, now, now);
  }

  lemma CycleRow(cfg: Config, t: Tables, input: CycleInput, clock: int)
    requires LedgerSound(cfg, t) && RowKept(cfg, t, clock, clock) && input.intentId !in t.intents && clock < input.now
    ensures var commits := Cycle(cfg, t, input).0;
            forall n :: 0 <= n < |commits| ==> RowKept(cfg, commits[n], input.now, input.now)
  {
    hide LedgerSound, RowKept, Cycle, Open, Book, Reconcile, Day, SameBooks, Permits, ContextIn, ResetRisk, Tradable,
      OpeningKind;
    CycleStages(cfg, t, input);
    OpenMeans(cfg, t, input);
    OpenedRow(cfg, t, input, clock);
    var commits, o := Cycle(cfg, t, input).0, Open(cfg, t, input);
    if |commits| >= 1 {
      RowLater(cfg, o.tables, clock, input.now, input.now, input.now);
    }
    if |commits| >= 2 {
      LoggedRow(cfg, o.tables, EventKind.ExecutionFailed(o.intent.clientOrderId), input);
      BookedRow(cfg, o, input, clock);
      if |commits| == 3 {
        ReconciledRow(cfg, commits[1], input.correlationId, input.now);
      }
    }
  }

  lemma LoggedRow(cfg: Config, t: Tables, kind: EventKind, input: CycleInput)
    requires RowKept(cfg, t, input.now, input.now)
    ensures RowKept(cfg, Logged(t, kind, input), input.now, input.now)
  {
    hide RowKept;
    RowHasRisk(cfg, t, input.now);
    RowFrame(cfg, t, Logged(t, kind, input), input.now, input.now);
  }

  // ---------- whole runs ----------

  lemma NextRow(cfg: Config, t: Tables, step: Step, clock: int)
    requires LedgerSound(cfg, t) && RowKept(cfg, t, clock, clock) && Fresh(t, step) && clock < TimeOf(step)
    ensures RowKept(cfg, Next(cfg, t, step), TimeOf(step), TimeOf(step))
  {
    hide LedgerSound, RowKept, Cycle, Reconcile;
    RowHasRisk(cfg, t, clock);
    RowLater(cfg, t, clock, clock, TimeOf(step), TimeOf(step));
    match step
    case Initialize(at) =>
      InitializedHasCash(cfg, t);
      InitializedAlready(cfg, t, at);
    case Trading(input, survives) =>
      CycleRow(cfg, t, input, clock);
    case Operate(command, request) =>
      RowFrame(cfg, t, Next(cfg, t, step), TimeOf(step), TimeOf(step));
    case Check(correlationId, at) =>
      ReconciledRow(cfg, t, correlationId, at);
  }

  lemma {:induction false} RunRow(cfg: Config, t: Tables, clock: int, steps: seq<Step>)
    requires LedgerSound(cfg, t) && RowKept(cfg, t, clock, clock) && Possible(cfg, t, steps) && Ticking(clock, steps)
    ensures RowKept(cfg, Run(cfg, t, steps), Last(clock, steps), Last(clock, steps))
    decreases |steps|
  {
    hide LedgerSound, RowKept, Next;
    if |steps| > 0 {
      RowHasRisk(cfg, t, clock);
      NextSound(cfg, t, steps[0]);
      NextRow(cfg, t, steps[0], clock);
      RunRow(cfg, Next(cfg, t, steps[0]), TimeOf(steps[0]), steps[1..]);
    }
  }

  /**
    In every serial run with an advancing clock: the stored peak is the highest equity
    of the trading day, the stored drawdown is its distance to the equity after the last
    fill and never negative, and the open positions say whether that fill's market is held.
   */
  lemma RiskRowTellsEquity(cfg: Config, at: int, steps: seq<Step>)
    requires Possible(cfg, Opened(cfg, at), steps) && Ticking(at, steps)
    ensures var t := Run(cfg, Opened(cfg, at), steps);
            && t.risk.Some?
            && var s := t.risk.value;
            && s.peakEquity == DayPeak(t.snapshots, s.tradingDay, s.startingEquity)
            && s.drawdown == s.peakEquity - LastEquity(cfg, t.snapshots) && s.drawdown >= 0.0
            && s.openPositions == OpenAfterLast(t)
  {
    OpenedSound(cfg, at);
    assert RowKept(cfg, Opened(cfg, at), at, at);
    hide LedgerSound, Run, Opened;
    RunRow(cfg, Opened(cfg, at), at, steps);
  }
}
