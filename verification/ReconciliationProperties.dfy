/** What a consistent reconciliation report means, in both directions. */
module ReconciliationProperties {
  import opened PaperDomain
  import opened PaperLedger
  import opened PaperRepositories
  import opened Reconciliation
  import opened Sorting
  import opened Wrappers

  // ---------- soundness of the rows, said without the algorithm ----------

  predicate DistinctIntents(fills: seq<Fill>) {
    forall i, j :: 0 <= i < j < |fills| ==> fills[i].intentId != fills[j].intentId
  }

  predicate DistinctEvents(fills: seq<Fill>) {
    forall i, j :: 0 <= i < j < |fills| ==> fills[i].eventId != fills[j].eventId
  }

  predicate EveryFillFinalized(intents: map<nat, Intent>, fills: seq<Fill>) {
    forall i :: 0 <= i < |fills| ==> fills[i].intentId in intents && intents[fills[i].intentId].status == Filled
  }

  ghost predicate QuantitiesMatch(positions: map<MarketKey, Position>, fills: seq<Fill>) {
    forall key :: QuantityAt(positions, key) == ReplayQuantity(fills, key)
  }

  /** The stored rows are exactly what replaying the fills in listed order gives. */
  ghost predicate Sound(cfg: Config, t: Tables) {
    var fills := ListFills(t);
    && DistinctIntents(fills) && DistinctEvents(fills)
    && EveryFillFinalized(t.intents, fills)
    && NeverNegative(fills)
    && cfg.quoteAsset in t.balances && t.balances[cfg.quoteAsset].available == ReplayCash(cfg.initialBalance, fills)
    && QuantitiesMatch(t.positions, fills)
  }

  /** The row list names exactly the stored positions. */
  ghost predicate RowsListed(t: Tables) {
    forall key :: key in t.positionRows <==> key in t.positions
  }

  // ---------- the unique anomalies ----------

  function FirstIndex(s: seq<Anomaly>, a: Anomaly): (i: nat)
    requires a in s
    ensures i < |s| && s[i] == a
    ensures forall j :: 0 <= j < i ==> s[j] != a
  {
    if s[0] == a then 0 else 1 + FirstIndex(s[1..], a)
  }

  lemma FirstIndexAppend(s: seq<Anomaly>, x: Anomaly, a: Anomaly)
    requires a in s + [x]
    ensures FirstIndex(s + [x], a) == if a in s then FirstIndex(s, a) else |s|
  {
    var i := FirstIndex(s + [x], a);
    if a in s {
      var j := FirstIndex(s, a);
      assert (s + [x])[j] == a;
    }
  }

  lemma {:induction false} UniqueMembers(s: seq<Anomaly>)
    ensures forall a :: a in Unique(s) <==> a in s
  {
    if |s| > 0 {
      var init, x := s[..|s| - 1], s[|s| - 1];
      assert s == init + [x];
      UniqueMembers(init);
    }
  }

  /** Deduplication keeps every anomaly exactly once, in the order it was first seen. */
  lemma {:induction false} UniqueKeepsFirstSeen(s: seq<Anomaly>, i: nat, j: nat)
    requires i < j < |Unique(s)|
    ensures var u := Unique(s);
            u[i] != u[j] && u[i] in s && u[j] in s && FirstIndex(s, u[i]) < FirstIndex(s, u[j])
  {
    hide FirstIndex;
    var init, x := s[..|s| - 1], s[|s| - 1];
    var u, before := Unique(s), Unique(init);
    assert s == init + [x];
    UniqueMembers(init);
    assert u[i] == before[i] && before[i] in init;
    FirstIndexAppend(init, x, u[i]);
    if j < |before| {
      assert u[j] == before[j];
      UniqueKeepsFirstSeen(init, i, j);
    }
    FirstIndexAppend(init, x, u[j]);
  }

  lemma UniqueEmpty(s: seq<Anomaly>)
    ensures Unique(s) == [] <==> s == []
  {
    UniqueMembers(s);
    if |s| > 0 {
      assert s[0] in Unique(s);
    }
  }

  // ---------- each part of the check ----------

  lemma {:induction false} FillsClean(intents: map<nat, Intent>, fills: seq<Fill>, n: nat)
    requires n <= |fills|
    ensures AnomaliesOfFills(intents, fills, n) == [] <==>
              forall i :: 0 <= i < n ==> AnomaliesOfFill(intents, fills, i) == []
  {
    hide AnomaliesOfFill;
    if n > 0 {
      FillsClean(intents, fills, n - 1);
    }
  }

  lemma FillClean(intents: map<nat, Intent>, fills: seq<Fill>, n: nat)
    requires n < |fills|
    ensures AnomaliesOfFill(intents, fills, n) == [] <==>
            && !SeenIntent(fills, n, fills[n].intentId)
            && !SeenEvent(fills, n, fills[n].eventId)
            && fills[n].intentId in intents && intents[fills[n].intentId].status == Filled
            && ReplayQuantity(fills[..n + 1], fills[n].key) >= 0.0
  {
    hide SeenIntent, SeenEvent, ReplayQuantity;
  }

  ghost predicate OwnNeverNegative(fills: seq<Fill>, n: nat)
    requires n <= |fills|
  {
    forall i :: 0 <= i < n ==> ReplayQuantity(fills[..i + 1], fills[i].key) >= 0.0
  }

  /** Checking each fill's own market right after it is enough for all markets at all times. */
  lemma {:induction false} OwnIsEnough(fills: seq<Fill>, n: nat, key: MarketKey)
    requires n <= |fills| && OwnNeverNegative(fills, n)
    ensures ReplayQuantity(fills[..n], key) >= 0.0
  {
    hide ReplayQuantity;
    if n == 0 {
      NoFillsNoQuantity([], key);
      assert fills[..0] == [];
    } else {
      OwnIsEnough(fills, n - 1, key);
      assert fills[..n] == fills[..n - 1] + [fills[n - 1]];
      ReplayAppend(0.0, fills[..n - 1], fills[n - 1], key);
      assert ReplayQuantity(fills[..n - 1 + 1], fills[n - 1].key) >= 0.0;
    }
  }

  lemma NeverNegativeIsOwn(fills: seq<Fill>)
    ensures NeverNegative(fills) <==> OwnNeverNegative(fills, |fills|)
  {
    hide ReplayQuantity;
    if OwnNeverNegative(fills, |fills|) {
      forall n, key | 0 <= n <= |fills| ensures ReplayQuantity(fills[..n], key) >= 0.0 {
        OwnIsEnough(fills, n, key);
      }
    }
  }

  lemma {:induction false} NoFillsNoQuantity(fills: seq<Fill>, key: MarketKey)
    requires !HasFillIn(fills, key)
    ensures ReplayQuantity(fills, key) == 0.0
  {
    if |fills| > 0 {
      var init := fills[..|fills| - 1];
      assert fills[|fills| - 1].key != key;
      assert !HasFillIn(init, key) by {
        assert forall i :: 0 <= i < |init| ==> init[i] == fills[i];
      }
      NoFillsNoQuantity(init, key);
    }
  }

  lemma {:induction false} MarketsClean(positions: map<MarketKey, Position>, fills: seq<Fill>, keys: seq<MarketKey>)
    ensures AnomaliesOfMarkets(positions, fills, keys) == [] <==>
            forall k :: k in keys ==> QuantityAt(positions, k) == ReplayQuantity(fills, k)
  {
    hide ReplayQuantity, QuantityAt;
    if |keys| > 0 {
      var init, last := keys[..|keys| - 1], keys[|keys| - 1];
      assert keys == init + [last];
      MarketsClean(positions, fills, init);
    }
  }

  lemma {:induction false} RowsClean(positions: map<MarketKey, Position>, fills: seq<Fill>, rows: seq<MarketKey>)
    ensures AnomaliesOfRows(positions, fills, rows) == [] <==>
            forall k :: k in rows ==> HasFillIn(fills, k) || QuantityAt(positions, k) == 0.0
  {
    hide HasFillIn, QuantityAt;
    if |rows| > 0 {
      var init, last := rows[..|rows| - 1], rows[|rows| - 1];
      assert rows == init + [last];
      RowsClean(positions, fills, init);
    }
  }

  lemma QuantitiesClean(t: Tables, fills: seq<Fill>)
    requires RowsListed(t)
    ensures AnomaliesOfMarkets(t.positions, fills, MarketsOf(fills, |fills|)) == [] &&
            AnomaliesOfRows(t.positions, fills, t.positionRows) == [] <==>
            QuantitiesMatch(t.positions, fills)
  {
    hide ReplayQuantity, HasFillIn;
    MarketsOfMembers(fills, |fills|);
    MarketsClean(t.positions, fills, MarketsOf(fills, |fills|));
    RowsClean(t.positions, fills, t.positionRows);
    forall key ensures HasFillIn(fills, key) <==> key in MarketsOf(fills, |fills|) {
      HasFillMeaning(fills, key);
    }
    forall key | !HasFillIn(fills, key) ensures ReplayQuantity(fills, key) == 0.0 {
      NoFillsNoQuantity(fills, key);
    }
  }

  lemma HasFillMeaning(fills: seq<Fill>, key: MarketKey)
    ensures HasFillIn(fills, key) <==> exists i :: 0 <= i < |fills| && fills[i].key == key
  {}

  lemma FillsCleanMeans(intents: map<nat, Intent>, fills: seq<Fill>)
    ensures AnomaliesOfFills(intents, fills, |fills|) == [] <==>
            DistinctIntents(fills) && DistinctEvents(fills) && EveryFillFinalized(intents, fills) &&
            NeverNegative(fills)
  {
    FillsClean(intents, fills, |fills|);
    NeverNegativeIsOwn(fills);
    hide ReplayQuantity, AnomaliesOfFill, NeverNegative;
    forall i | 0 <= i < |fills|
      ensures AnomaliesOfFill(intents, fills, i) == [] <==>
              && !SeenIntent(fills, i, fills[i].intentId)
              && !SeenEvent(fills, i, fills[i].eventId)
              && fills[i].intentId in intents && intents[fills[i].intentId].status == Filled
              && ReplayQuantity(fills[..i + 1], fills[i].key) >= 0.0
    {
      FillClean(intents, fills, i);
    }
  }

  /** Reconciliation is exact: it reports consistency if and only if the rows are sound. */
  lemma ConsistentIffSound(cfg: Config, t: Tables, now: int)
    requires RowsListed(t)
    ensures ReportOn(cfg, t, now).consistent <==> Sound(cfg, t)
  {
    hide Unique, AnomaliesOfFills, AnomaliesOfMarkets, AnomaliesOfRows, MarketsOf, ReplayCash, ListFills,
      QuantitiesMatch,
      NeverNegative, DistinctIntents, DistinctEvents, EveryFillFinalized, RowsListed;
    var fills := ListFills(t);
    UniqueEmpty(RawAnomalies(cfg, t, fills));
    FillsCleanMeans(t.intents, fills);
    QuantitiesClean(t, fills);
  }

  // ---------- the cause of each anomaly ----------

  /** What is wrong with the rows when this anomaly is reported. */
  ghost predicate Caused(cfg: Config, t: Tables, fills: seq<Fill>, a: Anomaly) {
    match a
    case DuplicateFillForIntent => !DistinctIntents(fills)
    case DuplicateExecutionEvent => !DistinctEvents(fills)
    case FillWithoutIntent =>
      exists i :: 0 <= i < |fills| && fills[i].intentId !in t.intents
    case FillIntentStatusMismatch =>
      exists i :: 0 <= i < |fills| && fills[i].intentId in t.intents && t.intents[fills[i].intentId].status != Filled
    case FillHistoryHasNegativePosition => !NeverNegative(fills)
    case QuoteBalanceMissing => cfg.quoteAsset !in t.balances
    case QuoteBalanceMismatch =>
      cfg.quoteAsset in t.balances && t.balances[cfg.quoteAsset].available != ReplayCash(cfg.initialBalance, fills)
    case PositionQuantityMismatch(key) =>
      HasFillIn(fills, key) && QuantityAt(t.positions, key) != ReplayQuantity(fills, key)
    case PositionWithoutFill(key) =>
      !HasFillIn(fills, key) && key in t.positions && t.positions[key].quantity != 0.0
  }

  /** What one fill contributes is one of the five anomalies of a fill. */
  predicate OfFill(intents: map<nat, Intent>, fills: seq<Fill>, n: nat, a: Anomaly)
    requires n < |fills|
  {
    || (a == DuplicateFillForIntent && SeenIntent(fills, n, fills[n].intentId))
    || (a == DuplicateExecutionEvent && SeenEvent(fills, n, fills[n].eventId))
    || (a == FillWithoutIntent && fills[n].intentId !in intents)
    || (a == FillIntentStatusMismatch && fills[n].intentId in intents && intents[fills[n].intentId].status != Filled)
    || (a == FillHistoryHasNegativePosition && ReplayQuantity(fills[..n + 1], fills[n].key) < 0.0)
  }

  lemma FillReports(intents: map<nat, Intent>, fills: seq<Fill>, n: nat, a: Anomaly)
    requires n < |fills|
    ensures a in AnomaliesOfFill(intents, fills, n) <==> OfFill(intents, fills, n, a)
  {
    hide SeenIntent, SeenEvent, ReplayQuantity;
  }

  lemma {:induction false} FillsReport(intents: map<nat, Intent>, fills: seq<Fill>, n: nat, a: Anomaly)
    requires n <= |fills|
    ensures a in AnomaliesOfFills(intents, fills, n) <==> exists i :: 0 <= i < n && OfFill(intents, fills, i, a)
  {
    hide AnomaliesOfFill, OfFill;
    if n > 0 {
      FillsReport(intents, fills, n - 1, a);
      FillReports(intents, fills, n - 1, a);
    }
  }

  lemma {:induction false} MarketsReport(
      positions: map<MarketKey, Position>, fills: seq<Fill>, keys: seq<MarketKey>, a: Anomaly)
    ensures a in AnomaliesOfMarkets(positions, fills, keys) <==>
            a.PositionQuantityMismatch? && a.key in keys && QuantityAt(positions, a.key) != ReplayQuantity(fills, a.key)
  {
    hide ReplayQuantity, QuantityAt;
    if |keys| > 0 {
      assert keys == keys[..|keys| - 1] + [keys[|keys| - 1]];
      MarketsReport(positions, fills, keys[..|keys| - 1], a);
    }
  }

  lemma {:induction false} RowsReport(
      positions: map<MarketKey, Position>, fills: seq<Fill>, rows: seq<MarketKey>, a: Anomaly)
    ensures a in AnomaliesOfRows(positions, fills, rows) <==>
            a.PositionWithoutFill? && a.key in rows && !HasFillIn(fills, a.key) && QuantityAt(positions, a.key) != 0.0
  {
    hide HasFillIn, QuantityAt;
    if |rows| > 0 {
      assert rows == rows[..|rows| - 1] + [rows[|rows| - 1]];
      RowsReport(positions, fills, rows[..|rows| - 1], a);
    }
  }

  lemma DuplicatesOfFills(intents: map<nat, Intent>, fills: seq<Fill>)
    ensures (exists n :: 0 <= n < |fills| && OfFill(intents, fills, n, DuplicateFillForIntent)) <==>
            !DistinctIntents(fills)
    ensures (exists n :: 0 <= n < |fills| && OfFill(intents, fills, n, DuplicateExecutionEvent)) <==>
            !DistinctEvents(fills)
  {
    hide ReplayQuantity;
    if !DistinctIntents(fills) {
      var i, n :| 0 <= i < n < |fills| && fills[i].intentId == fills[n].intentId;
      assert OfFill(intents, fills, n, DuplicateFillForIntent);
    }
    if !DistinctEvents(fills) {
      var i, n :| 0 <= i < n < |fills| && fills[i].eventId == fills[n].eventId;
      assert OfFill(intents, fills, n, DuplicateExecutionEvent);
    }
  }

  lemma HistoryOfFills(intents: map<nat, Intent>, fills: seq<Fill>)
    ensures (exists n :: 0 <= n < |fills| && OfFill(intents, fills, n, FillHistoryHasNegativePosition)) <==>
            !NeverNegative(fills)
  {
    NeverNegativeIsOwn(fills);
    hide ReplayQuantity, NeverNegative, SeenIntent, SeenEvent;
    if !OwnNeverNegative(fills, |fills|) {
      var n :| 0 <= n < |fills| && ReplayQuantity(fills[..n + 1], fills[n].key) < 0.0;
      assert OfFill(intents, fills, n, FillHistoryHasNegativePosition);
    }
  }

  lemma IntentsOfFills(cfg: Config, t: Tables, fills: seq<Fill>, a: Anomaly)
    requires a.FillWithoutIntent? || a.FillIntentStatusMismatch?
    ensures (exists n :: 0 <= n < |fills| && OfFill(t.intents, fills, n, a)) <==> Caused(cfg, t, fills, a)
  {
    hide ReplayQuantity, SeenIntent, SeenEvent;
    if a.FillWithoutIntent? {
      forall n | 0 <= n < |fills| ensures OfFill(t.intents, fills, n, a) <==> fills[n].intentId !in t.intents {}
    } else {
      forall n | 0 <= n < |fills|
        ensures OfFill(t.intents, fills, n, a) <==>
                fills[n].intentId in t.intents && t.intents[fills[n].intentId].status != Filled
      {}
    }
  }

  lemma FillAnomaliesCaused(cfg: Config, t: Tables, fills: seq<Fill>, a: Anomaly)
    ensures a in AnomaliesOfFills(t.intents, fills, |fills|) <==>
            (a.DuplicateFillForIntent? || a.DuplicateExecutionEvent? || a.FillWithoutIntent? ||
             a.FillIntentStatusMismatch? || a.FillHistoryHasNegativePosition?) && Caused(cfg, t, fills, a)
  {
    FillsReport(t.intents, fills, |fills|, a);
    match a
    case FillWithoutIntent => IntentsOfFills(cfg, t, fills, a);
    case FillIntentStatusMismatch => IntentsOfFills(cfg, t, fills, a);
    case DuplicateFillForIntent => DuplicatesOfFills(t.intents, fills);
    case DuplicateExecutionEvent => DuplicatesOfFills(t.intents, fills);
    case FillHistoryHasNegativePosition => HistoryOfFills(t.intents, fills);
    case _ => NotOfFills(t.intents, fills, a);
    hide ReplayQuantity, NeverNegative, DistinctIntents, DistinctEvents, OfFill, AnomaliesOfFills;
  }

  lemma NotOfFills(intents: map<nat, Intent>, fills: seq<Fill>, a: Anomaly)
    requires !a.DuplicateFillForIntent? && !a.DuplicateExecutionEvent? && !a.FillWithoutIntent?
    requires !a.FillIntentStatusMismatch? && !a.FillHistoryHasNegativePosition?
    ensures forall n :: 0 <= n < |fills| ==> !OfFill(intents, fills, n, a)
  {
    hide ReplayQuantity, SeenIntent, SeenEvent;
  }

  lemma CashCaused(cfg: Config, t: Tables, fills: seq<Fill>, a: Anomaly)
    ensures a in AnomaliesOfCash(t.balances, cfg.quoteAsset, ReplayCash(cfg.initialBalance, fills)) <==>
            (a.QuoteBalanceMissing? || a.QuoteBalanceMismatch?) && Caused(cfg, t, fills, a)
  {
    hide ReplayQuantity, ReplayCash, NeverNegative, DistinctIntents, DistinctEvents, HasFillIn, QuantityAt;
  }

  lemma PositionsCaused(cfg: Config, t: Tables, fills: seq<Fill>, a: Anomaly)
    requires RowsListed(t)
    ensures a in AnomaliesOfMarkets(t.positions, fills, MarketsOf(fills, |fills|)) <==>
            a.PositionQuantityMismatch? && Caused(cfg, t, fills, a)
    ensures a in AnomaliesOfRows(t.positions, fills, t.positionRows) <==>
            a.PositionWithoutFill? && Caused(cfg, t, fills, a)
  {
    hide ReplayQuantity, ReplayCash, NeverNegative, DistinctIntents, DistinctEvents, MarketsOf, AnomaliesOfMarkets,
      AnomaliesOfRows, HasFillIn;
    MarketsOfMembers(fills, |fills|);
    MarketsReport(t.positions, fills, MarketsOf(fills, |fills|), a);
    RowsReport(t.positions, fills, t.positionRows, a);
    if a.PositionQuantityMismatch? {
      HasFillMeaning(fills, a.key);
    }
  }

  /** Each anomaly is reported exactly when its own cause is there. */
  lemma AnomalyMeans(cfg: Config, t: Tables, now: int, a: Anomaly)
    requires RowsListed(t)
    ensures a in ReportOn(cfg, t, now).anomalies <==> Caused(cfg, t, ListFills(t), a)
    ensures ReportOn(cfg, t, now).fillCount == |t.fills| && ReportOn(cfg, t, now).checkedAt == now
  {
    hide Unique, AnomaliesOfFills, AnomaliesOfCash, AnomaliesOfMarkets, AnomaliesOfRows, MarketsOf, ReplayCash,
      ListFills, Caused, RowsListed;
    var fills := ListFills(t);
    UniqueMembers(RawAnomalies(cfg, t, fills));
    FillAnomaliesCaused(cfg, t, fills, a);
    CashCaused(cfg, t, fills, a);
    PositionsCaused(cfg, t, fills, a);
    ListedByTime(t);
    assert |fills| == |multiset(fills)| == |multiset(t.fills)| == |t.fills|;
  }

  /** An inconsistent account ends KILLED; a consistent one keeps its state, and KILLED is never cleared. */
  lemma ReconcileKills(cfg: Config, t: Tables, correlationId: string, now: int)
    requires RowsListed(t) && t.risk.Some?
    ensures var (after, report) := Reconcile(cfg, t, correlationId, now);
            && after.risk.Some?
            && after.risk.value.systemState == (if Sound(cfg, t) then t.risk.value.systemState else Killed)
            && after == t.(risk := after.risk, events := after.events)
            && (Sound(cfg, t) ==> after.risk == t.risk)
            && |after.events| == |t.events| + 1 && after.events[..|t.events|] == t.events
            && after.events[|t.events|] ==
               Event(if Sound(cfg, t) then ReconciliationSucceeded else ReconciliationFailed(report.anomalies),
                     correlationId, now)
            && (!Sound(cfg, t) && t.risk.value.systemState != Killed ==>
                  after.risk.value == t.risk.value.(systemState := Killed, updatedAt := now))
            && (t.risk.value.systemState == Killed ==> after.risk == t.risk)
  {
    hide ReportOn, Sound, RowsListed;
    ConsistentIffSound(cfg, t, now);
  }

  // ---------- the listing order does not matter for the totals ----------

  /** Sorting the fills for the report changes neither the cash nor any quantity they add up to. */
  lemma ListingKeepsTotals(initial: real, t: Tables, key: MarketKey)
    ensures multiset(ListFills(t)) == multiset(t.fills)
    ensures ReplayCash(initial, ListFills(t)) == ReplayCash(initial, t.fills)
    ensures ReplayQuantity(ListFills(t), key) == ReplayQuantity(t.fills, key)
  {
    SortSorts(FillKey, t.fills);
    ReplayPermutation(initial, ListFills(t), t.fills, key);
  }
}
