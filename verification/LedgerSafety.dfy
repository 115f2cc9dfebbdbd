/** Reconciliation over whole runs: what it can find, and that it finds nothing while the clock advances. */
module LedgerSafety {
  import opened AdminState
  import opened CycleSteps
  import opened LedgerInvariant
  import opened LedgerSteps
  import opened PaperDomain
  import opened PaperExecution
  import opened PaperLedger
  import opened PaperRepositories
  import opened Reconciliation
  import opened ReconciliationProperties
  import opened Sorting
  import opened TradingCycle
  import opened TradingRuns
  import opened Wrappers
  import RiskEngine

  // ---------- any clock ----------

  function IntentKey(f: Fill): Key {
    (f.intentId, 0)
  }

  lemma ListedDistinct(t: Tables)
    requires DistinctIntents(t.fills)
    ensures DistinctIntents(ListFills(t))
  {
    SortSorts(FillKey, t.fills);
    assert DistinctKeys(IntentKey, t.fills);
    DistinctKeysOfPermutation(IntentKey, t.fills, ListFills(t));
    hide ListFills;
    var fills := ListFills(t);
    forall i, j | 0 <= i < j < |fills| ensures fills[i].intentId != fills[j].intentId {
      assert IntentKey(fills[i]) != IntentKey(fills[j]);
    }
  }

  lemma ListedMember(t: Tables, i: nat)
    requires i < |ListFills(t)|
    ensures ListFills(t)[i] in t.fills
  {
    SortSorts(FillKey, t.fills);
    assert ListFills(t)[i] in multiset(ListFills(t));
  }

  lemma ListedCarryOut(cfg: Config, t: Tables)
    requires FillsCarryOut(cfg, t) && DistinctIntents(ListFills(t))
    ensures EveryFillFinalized(t.intents, ListFills(t)) && DistinctEvents(ListFills(t))
  {
    hide ListFills, Worth, FeeOf;
    var fills := ListFills(t);
    forall i | 0 <= i < |fills|
      ensures fills[i].intentId in t.intents && t.intents[fills[i].intentId].status == Filled
      ensures fills[i].eventId.intentId == fills[i].intentId
    {
      ListedMember(t, i);
      var n :| 0 <= n < |t.fills| && t.fills[n] == fills[i];
      assert FillSound(cfg, t.fills[n], t.intents[t.fills[n].intentId]);
    }
  }

  lemma ListedTotals(cfg: Config, t: Tables)
    requires Replays(cfg, t)
    ensures cfg.quoteAsset in t.balances
    ensures t.balances[cfg.quoteAsset].available == ReplayCash(cfg.initialBalance, ListFills(t))
    ensures QuantitiesMatch(t.positions, ListFills(t))
  {
    hide ListFills, ReplayCash, ReplayQuantity, ReplayRealized;
    assert cfg.quoteAsset in t.balances.Keys;
    forall key ensures QuantityAt(t.positions, key) == ReplayQuantity(ListFills(t), key) {
      ListingKeepsTotals(cfg.initialBalance, t, key);
      assert HeldPosition(t, key).quantity == ReplayQuantity(t.fills, key);
    }
    ListingKeepsTotals(cfg.initialBalance, t, MarketKey("", ""));
  }

  lemma OneFillOnlyHistory(intents: map<nat, Intent>, fills: seq<Fill>, n: nat, a: Anomaly)
    requires n < |fills| && DistinctIntents(fills) && DistinctEvents(fills) && EveryFillFinalized(intents, fills)
    requires a in AnomaliesOfFill(intents, fills, n)
    ensures a == FillHistoryHasNegativePosition
  {
    hide ReplayQuantity;
  }

  lemma {:induction false} FillsOnlyHistory(intents: map<nat, Intent>, fills: seq<Fill>, n: nat, a: Anomaly)
    requires n <= |fills| && DistinctIntents(fills) && DistinctEvents(fills) && EveryFillFinalized(intents, fills)
    requires a in AnomaliesOfFills(intents, fills, n)
    ensures a == FillHistoryHasNegativePosition
  {
    hide AnomaliesOfFill, DistinctIntents, DistinctEvents, EveryFillFinalized;
    if n > 0 {
      if a in AnomaliesOfFill(intents, fills, n - 1) {
        OneFillOnlyHistory(intents, fills, n - 1, a);
      } else {
        FillsOnlyHistory(intents, fills, n - 1, a);
      }
    }
  }

  lemma UniqueOfOne(s: seq<Anomaly>, only: Anomaly)
    requires forall a :: a in s ==> a == only
    ensures Unique(s) == if s == [] then [] else [only]
  {
    hide Unique, FirstIndex;
    UniqueMembers(s);
    UniqueEmpty(s);
    var u := Unique(s);
    forall i | 0 <= i < |u| ensures u[i] == only {
      assert u[i] in u;
    }
    if |u| > 1 {
      UniqueKeepsFirstSeen(s, 0, 1);
    }
  }

  lemma BalancesClean(cfg: Config, t: Tables)
    requires Replays(cfg, t)
    ensures AnomaliesOfCash(t.balances, cfg.quoteAsset, ReplayCash(cfg.initialBalance, ListFills(t))) == []
  {
    ListedTotals(cfg, t);
    hide ListFills, ReplayCash, QuantitiesMatch, Replays;
  }

  /** What a reconciliation of an account with these intents, this cash and these quantities can still find. */
  lemma OnlyHistoryLeft(cfg: Config, t: Tables, a: Anomaly)
    requires FillsMatchIntents(cfg, t) && Replays(cfg, t) && RowsListed(t)
    requires a in RawAnomalies(cfg, t, ListFills(t))
    ensures a == FillHistoryHasNegativePosition
  {
    ListedDistinct(t);
    ListedCarryOut(cfg, t);
    ListedTotals(cfg, t);
    BalancesClean(cfg, t);
    hide ListFills, ReplayCash, DistinctIntents, DistinctEvents, EveryFillFinalized, QuantitiesMatch, RowsListed,
      Replays, FillsMatchIntents,
      AnomaliesOfFills, AnomaliesOfCash, AnomaliesOfMarkets, AnomaliesOfRows, MarketsOf;
    QuantitiesClean(t, ListFills(t));
    FillsOnlyHistory(t.intents, ListFills(t), |ListFills(t)|, a);
  }

  /**
    On any account the system can reach, whatever the clock did, a reconciliation finds
    nothing, or exactly one anomaly: a history that goes negative in the order it is listed.
   */
  lemma SoundIffListedInOrder(cfg: Config, t: Tables, now: int)
    requires LedgerSound(cfg, t)
    ensures ReportOn(cfg, t, now).consistent <==> NeverNegative(ListFills(t))
    ensures ReportOn(cfg, t, now).anomalies ==
            if NeverNegative(ListFills(t)) then [] else [FillHistoryHasNegativePosition]
  {
    ListedDistinct(t);
    ListedCarryOut(cfg, t);
    ListedTotals(cfg, t);
    hide ListFills, NeverNegative, ReplayCash, DistinctIntents, DistinctEvents, EveryFillFinalized, QuantitiesMatch,
      RowsListed,
      RawAnomalies, FillsCarryOut, FilledHaveFills;
    ConsistentIffSound(cfg, t, now);
    var raw := RawAnomalies(cfg, t, ListFills(t));
    forall a | a in raw ensures a == FillHistoryHasNegativePosition {
      OnlyHistoryLeft(cfg, t, a);
    }
    UniqueOfOne(raw, FillHistoryHasNegativePosition);
    hide Unique, Replays, Conserves, IntentsIndexed, IntentsSound;
  }

  // ---------- an advancing clock ----------

  /** Fills in the order they were booked, none later than the clock. */
  predicate InOrder(t: Tables, clock: int) {
    && (forall i, j :: 0 <= i < j < |t.fills| ==> t.fills[i].executedAt < t.fills[j].executedAt)
    && (forall i :: 0 <= i < |t.fills| ==> t.fills[i].executedAt <= clock)
  }

  predicate Ticking(clock: int, steps: seq<Step>)
    decreases |steps|
  {
    |steps| == 0 || (clock < TimeOf(steps[0]) && Ticking(TimeOf(steps[0]), steps[1..]))
  }

  lemma InOrderListed(t: Tables, clock: int)
    requires InOrder(t, clock)
    ensures ListFills(t) == t.fills
  {
    SortOfSorted(FillKey, t.fills);
  }

  /** While the clock advances, reconciliation is always consistent. */
  lemma AdvancingIsConsistent(cfg: Config, t: Tables, clock: int, now: int)
    requires LedgerSound(cfg, t) && InOrder(t, clock)
    ensures ReportOn(cfg, t, now).consistent
  {
    hide InOrder, ListFills, ReportOn, NeverNegative;
    InOrderListed(t, clock);
    SoundIffListedInOrder(cfg, t, now);
    hide Rows, Replays, Conserves, SnapshotsExplained, IntentsIndexed, IntentsSound, FillsMatchIntents;
  }

  predicate IsFailure(e: Event) {
    e.kind.ReconciliationFailed?
  }

  /** Neither a failed reconciliation in the log nor a kill without its command. */
  predicate NeverFailed(t: Tables) {
    && (forall n :: 0 <= n < |t.events| ==> !IsFailure(t.events[n]))
    && t.risk.Some?
  }

  ghost predicate Advancing(cfg: Config, t: Tables, clock: int) {
    LedgerSound(cfg, t) && InOrder(t, clock) && NeverFailed(t)
  }

  lemma ReconcileAdvancing(cfg: Config, t: Tables, correlationId: string, now: int, clock: int)
    requires Advancing(cfg, t, clock)
    ensures var (after, report) := Reconcile(cfg, t, correlationId, now);
            report.consistent && Advancing(cfg, after, clock) && after.risk == t.risk
  {
    hide LedgerSound, ReportOn;
    AdvancingIsConsistent(cfg, t, clock, now);
    LedgerFrame(cfg, t, Reconcile(cfg, t, correlationId, now).0);
  }

  lemma BookAdvancing(cfg: Config, o: Opening, input: CycleInput, clock: int)
    requires o.Decided? && Advancing(cfg, o.tables, clock) && clock < input.now
    requires o.intent.id in o.tables.intents && o.tables.intents[o.intent.id] == o.intent
    ensures var b := BookOf(cfg, o, input);
            b.Ok? ==>
              Advancing(cfg, b.value.0, input.now) &&
              b.value.0.risk.value.systemState == o.tables.risk.value.systemState
  {
    hide LedgerSound, Book, Prepare, OrderSound, FillFor, IsFailure;
    BookMeans(cfg, o.tables, o.intent, o.market, o.ticker, input.fillId, input.now);
  }

  lemma LoggedAdvancing(cfg: Config, t: Tables, e: Event, clock: int)
    requires Advancing(cfg, t, clock) && !IsFailure(e)
    ensures Advancing(cfg, t.(events := t.events + [e]), clock)
  {
    hide LedgerSound;
    LedgerFrame(cfg, t, t.(events := t.events + [e]));
  }

  lemma OpenAdvancing(cfg: Config, t: Tables, input: CycleInput, clock: int)
    requires Advancing(cfg, t, clock) && input.intentId !in t.intents
    ensures var o := Open(cfg, t, input);
            !o.Refused? ==>
              Advancing(cfg, o.tables, clock) && o.tables.risk.value.systemState == t.risk.value.systemState
  {
    hide LedgerSound, Open, RiskEngine.Permits, ContextFor;
    OpenMeans(cfg, t, input);
  }

  lemma Later(cfg: Config, t: Tables, clock: int, now: int)
    requires Advancing(cfg, t, clock) && clock < now
    ensures Advancing(cfg, t, now)
  {
    hide LedgerSound, NeverFailed;
  }

  /** A cycle under an advancing clock: every report is consistent, and no commit kills. */
  lemma CycleAdvancing(cfg: Config, t: Tables, input: CycleInput, clock: int)
    requires Advancing(cfg, t, clock) && input.intentId !in t.intents && clock < input.now
    ensures var (commits, outcome) := Cycle(cfg, t, input);
            && (forall n :: 0 <= n < |commits| ==>
                  Advancing(cfg, commits[n], input.now) &&
                  commits[n].risk.value.systemState == t.risk.value.systemState)
            && (outcome.Finished? ==> outcome.report.consistent)
  {
    hide Advancing, LedgerSound, Cycle, Open, Book, Reconcile, SameBooks, RiskEngine.Permits, ContextIn, ResetRisk,
      Tradable, OpeningKind;
    AdvancingMeans(cfg, t, clock);
    CycleStages(cfg, t, input);
    OpenMeans(cfg, t, input);
    OpenAdvancing(cfg, t, input, clock);
    var o := Open(cfg, t, input);
    if !o.Refused? {
      Later(cfg, o.tables, clock, input.now);
    }
    if o.Decided? {
      var failed := Event(EventKind.ExecutionFailed(o.intent.clientOrderId), input.correlationId, input.now);
      LoggedAdvancing(cfg, o.tables, failed, input.now);
      BookAdvancing(cfg, o, input, clock);
      var b := BookOf(cfg, o, input);
      if b.Ok? {
        ReconcileAdvancing(cfg, b.value.0, input.correlationId, input.now, input.now);
      }
    }
  }

  lemma AdvancingMeans(cfg: Config, t: Tables, clock: int)
    requires Advancing(cfg, t, clock)
    ensures LedgerSound(cfg, t) && t.risk.Some?
  {}

  lemma NextAdvancing(cfg: Config, t: Tables, step: Step, clock: int)
    requires Advancing(cfg, t, clock) && Fresh(t, step) && clock < TimeOf(step)
    ensures var after := Next(cfg, t, step);
            && Advancing(cfg, after, TimeOf(step))
            && (IsKilled(after) && !IsKilled(t) ==> step.Operate? && step.command == Kill)
  {
    hide LedgerSound, Advancing, Cycle, Reconcile;
    AdvancingMeans(cfg, t, clock);
    Later(cfg, t, clock, TimeOf(step));
    match step
    case Initialize(at) =>
      InitializedHasCash(cfg, t);
      InitializedAlready(cfg, t, at);
    case Trading(input, survives) =>
      CycleAdvancing(cfg, t, input, clock);
    case Operate(command, request) =>
      CommandAdvancing(cfg, t, command, request, TimeOf(step));
    case Check(correlationId, at) =>
      ReconcileAdvancing(cfg, t, correlationId, at, at);
  }

  lemma CommandAdvancing(cfg: Config, t: Tables, c: Command, r: Request, clock: int)
    requires Advancing(cfg, t, clock)
    ensures Advancing(cfg, Transition(t, c, r).0, clock)
  {
    hide LedgerSound;
    LedgerFrame(cfg, t, Transition(t, c, r).0);
  }

  predicate IsKilled(t: Tables) {
    t.risk.Some? && t.risk.value.systemState == Killed
  }

  /** Some step is an operator's kill. */
  ghost predicate KillCommanded(steps: seq<Step>) {
    exists n :: 0 <= n < |steps| && steps[n].Operate? && steps[n].command == Kill
  }

  lemma KillCommandedLater(steps: seq<Step>)
    requires |steps| > 0 && KillCommanded(steps[1..])
    ensures KillCommanded(steps)
  {
    var n :| 0 <= n < |steps[1..]| && steps[1..][n].Operate? && steps[1..][n].command == Kill;
    assert steps[n + 1].Operate? && steps[n + 1].command == Kill;
  }

  function Last(clock: int, steps: seq<Step>): int {
    if |steps| == 0 then clock else TimeOf(steps[|steps| - 1])
  }

  lemma {:induction false} RunAdvancing(cfg: Config, t: Tables, clock: int, steps: seq<Step>)
    requires Advancing(cfg, t, clock) && Possible(cfg, t, steps) && Ticking(clock, steps)
    ensures Advancing(cfg, Run(cfg, t, steps), Last(clock, steps))
    ensures IsKilled(Run(cfg, t, steps)) && !IsKilled(t) ==> KillCommanded(steps)
    decreases |steps|
  {
    hide Advancing, Next, KillCommanded, IsKilled;
    if |steps| > 0 {
      var after := Next(cfg, t, steps[0]);
      NextAdvancing(cfg, t, steps[0], clock);
      RunAdvancing(cfg, after, TimeOf(steps[0]), steps[1..]);
      if IsKilled(Run(cfg, t, steps)) && !IsKilled(t) {
        if IsKilled(after) {
          KillNow(steps);
        } else {
          KillCommandedLater(steps);
        }
      }
    }
  }

  lemma KillNow(steps: seq<Step>)
    requires |steps| > 0 && steps[0].Operate? && steps[0].command == Kill
    ensures KillCommanded(steps)
  {}

  /**
    Over every serial run with an advancing clock, crashes and retries included, no
    reconciliation ever reports an anomaly and none ever kills: an account that ends
    KILLED was killed by an operator.
   */
  lemma ReconciliationNeverKills(cfg: Config, at: int, steps: seq<Step>, now: int)
    requires Possible(cfg, Opened(cfg, at), steps) && Ticking(at, steps)
    ensures var t := Run(cfg, Opened(cfg, at), steps);
            && LedgerSound(cfg, t) && ReportOn(cfg, t, now).consistent
            && (forall n :: 0 <= n < |t.events| ==> !IsFailure(t.events[n]))
            && (IsKilled(t) ==> KillCommanded(steps))
  {
    hide LedgerSound, Run, Possible, Ticking, Opened, ReportOn, IsFailure, IsKilled, KillCommanded;
    OpenedAdvances(cfg, at);
    RunAdvancing(cfg, Opened(cfg, at), at, steps);
    AdvancingIsConsistent(cfg, Run(cfg, Opened(cfg, at), steps), Last(at, steps), now);
  }

  lemma OpenedAdvances(cfg: Config, at: int)
    ensures Advancing(cfg, Opened(cfg, at), at) && !IsKilled(Opened(cfg, at))
  {
    OpenedSound(cfg, at);
    hide LedgerSound;
  }
}
