/** Replaying the fills against the stored rows (application/reconciliation.py). */
module Reconciliation {
  import opened PaperDatabase
  import opened PaperDomain
  import opened PaperLedger
  import opened PaperRepositories
  import opened Sorting
  import opened Wrappers

  datatype Report = Report(consistent: bool, anomalies: seq<Anomaly>, fillCount: nat, checkedAt: int)

  // ---------- what each loop collects ----------

  function When(condition: bool, a: Anomaly): seq<Anomaly> {
    if condition then [a] else []
  }

  predicate SeenIntent(fills: seq<Fill>, n: nat, intentId: nat)
    requires n <= |fills|
  {
    exists i :: 0 <= i < n && fills[i].intentId == intentId
  }

  predicate SeenEvent(fills: seq<Fill>, n: nat, eventId: ExecutionEventId)
    requires n <= |fills|
  {
    exists i :: 0 <= i < n && fills[i].eventId == eventId
  }

  /** What the fill at index `n` contributes. */
  function AnomaliesOfFill(intents: map<nat, Intent>, fills: seq<Fill>, n: nat): seq<Anomaly>
    requires n < |fills|
  {
    var f := fills[n];
    When(SeenIntent(fills, n, f.intentId), DuplicateFillForIntent)
    + When(SeenEvent(fills, n, f.eventId), DuplicateExecutionEvent)
    + When(f.intentId !in intents, FillWithoutIntent)
    + When(f.intentId in intents && intents[f.intentId].status != Filled, FillIntentStatusMismatch)
    + When(ReplayQuantity(fills[..n + 1], f.key) < 0.0, FillHistoryHasNegativePosition)
  }

  function AnomaliesOfFills(intents: map<nat, Intent>, fills: seq<Fill>, n: nat): seq<Anomaly>
    requires n <= |fills|
  {
    if n == 0 then [] else AnomaliesOfFills(intents, fills, n - 1) + AnomaliesOfFill(intents, fills, n - 1)
  }

  /** The markets of the first `n` fills, in first-seen order. */
  function MarketsOf(fills: seq<Fill>, n: nat): seq<MarketKey>
    requires n <= |fills|
  {
    if n == 0 then []
    else
      var before := MarketsOf(fills, n - 1);
      if fills[n - 1].key in before then before else before + [fills[n - 1].key]
  }

  function AnomaliesOfCash(balances: map<string, Balance>, quoteAsset: string, expected: real): seq<Anomaly> {
    if quoteAsset !in balances then [QuoteBalanceMissing]
    else When(balances[quoteAsset].available != expected, QuoteBalanceMismatch)
  }

  function QuantityAt(positions: map<MarketKey, Position>, key: MarketKey): real {
    if key in positions then positions[key].quantity else 0.0
  }

  function AnomaliesOfMarkets(
      positions: map<MarketKey, Position>, fills: seq<Fill>, keys: seq<MarketKey>): seq<Anomaly> {
    if |keys| == 0 then []
    else
      var key := keys[|keys| - 1];
      AnomaliesOfMarkets(positions, fills, keys[..|keys| - 1])
      + When(QuantityAt(positions, key) != ReplayQuantity(fills, key), PositionQuantityMismatch(key))
  }

  function AnomaliesOfRows(positions: map<MarketKey, Position>, fills: seq<Fill>, rows: seq<MarketKey>): seq<Anomaly> {
    if |rows| == 0 then []
    else
      var key := rows[|rows| - 1];
      AnomaliesOfRows(positions, fills, rows[..|rows| - 1])
      + When(!HasFillIn(fills, key) && QuantityAt(positions, key) != 0.0, PositionWithoutFill(key))
  }

  function RawAnomalies(cfg: Config, t: Tables, fills: seq<Fill>): seq<Anomaly> {
    AnomaliesOfFills(t.intents, fills, |fills|)
    + AnomaliesOfCash(t.balances, cfg.quoteAsset, ReplayCash(cfg.initialBalance, fills))
    + AnomaliesOfMarkets(t.positions, fills, MarketsOf(fills, |fills|))
    + AnomaliesOfRows(t.positions, fills, t.positionRows)
  }

  /** Each anomaly once, in first-seen order. */
  function Unique(s: seq<Anomaly>): seq<Anomaly> {
    if |s| == 0 then []
    else
      var before := Unique(s[..|s| - 1]);
      if s[|s| - 1] in before then before else before + [s[|s| - 1]]
  }

  function ReportOn(cfg: Config, t: Tables, now: int): Report {
    var anomalies := Unique(RawAnomalies(cfg, t, ListFills(t)));
    Report(anomalies == [], anomalies, |ListFills(t)|, now)
  }

  /** The rows after a reconciliation: one event, and KILLED if anything was wrong. */
  function Reconcile(cfg: Config, t: Tables, correlationId: string, now: int): (Tables, Report) {
    var report := ReportOn(cfg, t, now);
    var kind := if report.consistent then ReconciliationSucceeded else ReconciliationFailed(report.anomalies);
    var logged := t.(events := t.events + [Event(kind, correlationId, now)]);
    if !report.consistent && t.risk.Some? && t.risk.value.systemState != Killed then
      (logged.(risk := Some(t.risk.value.(systemState := Killed, updatedAt := now))), report)
    else (logged, report)
  }

  // ---------- the service ----------

  ghost predicate Seen(seenIntents: set<nat>, seenEvents: set<ExecutionEventId>, fills: seq<Fill>, n: nat)
    requires n <= |fills|
  {
    && (forall x :: x in seenIntents <==> SeenIntent(fills, n, x))
    && (forall x :: x in seenEvents <==> SeenEvent(fills, n, x))
  }

  lemma SeenNext(seenIntents: set<nat>, seenEvents: set<ExecutionEventId>, fills: seq<Fill>, n: nat)
    requires n < |fills| && Seen(seenIntents, seenEvents, fills, n)
    ensures Seen(seenIntents + {fills[n].intentId}, seenEvents + {fills[n].eventId}, fills, n + 1)
  {}

  /** The checks on one fill, given what was seen before it and the quantity after it. */
  method CheckFill(intents: map<nat, Intent>, fills: seq<Fill>, n: nat,
                   seenIntents: set<nat>, seenEvents: set<ExecutionEventId>, quantity: real)
    returns (found: seq<Anomaly>)
    requires n < |fills|
    requires Seen(seenIntents, seenEvents, fills, n)
    requires quantity == ReplayQuantity(fills[..n + 1], fills[n].key)
    ensures found == AnomaliesOfFill(intents, fills, n)
  {
    hide ReplayQuantity, SeenIntent, SeenEvent;
    var f := fills[n];
    found := [];
    if f.intentId in seenIntents {
      found := found + [DuplicateFillForIntent];
    }
    ghost var first := found;
    assert first == When(SeenIntent(fills, n, f.intentId), DuplicateFillForIntent);
    if f.eventId in seenEvents {
      found := found + [DuplicateExecutionEvent];
    }
    ghost var second := found;
    assert second == first + When(SeenEvent(fills, n, f.eventId), DuplicateExecutionEvent);
    if f.intentId !in intents {
      found := found + [FillWithoutIntent];
    } else if intents[f.intentId].status != Filled {
      found := found + [FillIntentStatusMismatch];
    }
    ghost var third := found;
    assert third == second + When(f.intentId !in intents, FillWithoutIntent)
                    + When(f.intentId in intents && intents[f.intentId].status != Filled, FillIntentStatusMismatch);
    if quantity < 0.0 {
      found := found + [FillHistoryHasNegativePosition];
    }
    assert found == third + When(quantity < 0.0, FillHistoryHasNegativePosition);
    hide When, Seen;
  }

  /** The running quantities agree with the replay of the first `n` fills. */
  ghost predicate Expects(expected: map<MarketKey, real>, fills: seq<Fill>, n: nat)
    requires n <= |fills|
  {
    forall k :: ReplayQuantity(fills[..n], k) == if k in expected then expected[k] else 0.0
  }

  lemma ExpectsNext(expected: map<MarketKey, real>, fills: seq<Fill>, n: nat)
    requires n < |fills| && Expects(expected, fills, n)
    ensures var f := fills[n];
            var quantity := (if f.key in expected then expected[f.key] else 0.0) + Signed(f);
            quantity == ReplayQuantity(fills[..n + 1], f.key) && Expects(expected[f.key := quantity], fills, n + 1)
  {
    hide ReplayQuantity;
    var f := fills[n];
    assert fills[..n + 1] == fills[..n] + [f];
    forall k
      ensures ReplayQuantity(fills[..n + 1], k) ==
              ReplayQuantity(fills[..n], k) + if f.key == k then Signed(f) else 0.0
    {
      ReplayAppend(0.0, fills[..n], f, k);
    }
  }

  method CheckFills(intents: map<nat, Intent>, fills: seq<Fill>, initial: real)
    returns (anomalies: seq<Anomaly>, expectedCash: real, expected: map<MarketKey, real>, keys: seq<MarketKey>)
    ensures anomalies == AnomaliesOfFills(intents, fills, |fills|)
    ensures expectedCash == ReplayCash(initial, fills)
    ensures keys == MarketsOf(fills, |fills|)
    ensures forall k :: k in expected <==> k in keys
    ensures forall k :: k in expected ==> expected[k] == ReplayQuantity(fills, k)
  {
    hide ReplayQuantity, Expects, AnomaliesOfFill, Seen;
    anomalies, expectedCash, expected, keys := [], initial, map[], [];
    var seenIntents: set<nat> := {};
    var seenEvents: set<ExecutionEventId> := {};
    NothingSeen(fills);
    var n := 0;
    while n < |fills|
      invariant 0 <= n <= |fills|
      invariant anomalies == AnomaliesOfFills(intents, fills, n)
      invariant expectedCash == ReplayCash(initial, fills[..n])
      invariant keys == MarketsOf(fills, n)
      invariant Seen(seenIntents, seenEvents, fills, n)
      invariant forall k :: k in expected <==> k in keys
      invariant Expects(expected, fills, n)
    {
      var f := fills[n];
      assert fills[..n + 1][..n] == fills[..n];
      ExpectsNext(expected, fills, n);
      SeenNext(seenIntents, seenEvents, fills, n);
      var quantity := if f.key in expected then expected[f.key] else 0.0;
      if f.side == Buy {
        quantity := quantity + f.quantity;
        expectedCash := expectedCash - (f.notional + f.fee);
      } else {
        quantity := quantity - f.quantity;
        expectedCash := expectedCash + f.notional - f.fee;
      }
      var found := CheckFill(intents, fills, n, seenIntents, seenEvents, quantity);
      anomalies := anomalies + found;
      seenIntents := seenIntents + {f.intentId};
      seenEvents := seenEvents + {f.eventId};
      if f.key !in expected {
        keys := keys + [f.key];
      }
      expected := expected[f.key := quantity];
      n := n + 1;
    }
    assert fills[..|fills|] == fills;
    ExpectedQuantities(expected, fills);
  }

  lemma NothingSeen(fills: seq<Fill>)
    ensures Expects(map[], fills, 0) && Seen({}, {}, fills, 0)
  {}

  lemma ExpectedQuantities(expected: map<MarketKey, real>, fills: seq<Fill>)
    requires Expects(expected, fills, |fills|)
    ensures forall k :: k in expected ==> expected[k] == ReplayQuantity(fills, k)
  {
    hide ReplayQuantity;
    assert fills[..|fills|] == fills;
  }

  lemma {:induction false} MarketsOfMembers(fills: seq<Fill>, n: nat)
    requires n <= |fills|
    ensures forall k :: k in MarketsOf(fills, n) <==> exists i :: 0 <= i < n && fills[i].key == k
  {
    if n > 0 {
      MarketsOfMembers(fills, n - 1);
    }
  }

  /** Stored quantities against the replay, market by market. */
  method CheckMarkets(
      positions: map<MarketKey, Position>, fills: seq<Fill>, expected: map<MarketKey, real>, keys: seq<MarketKey>)
    returns (anomalies: seq<Anomaly>)
    requires forall k :: k in keys ==> k in expected && expected[k] == ReplayQuantity(fills, k)
    ensures anomalies == AnomaliesOfMarkets(positions, fills, keys)
  {
    hide ReplayQuantity;
    anomalies := [];
    var i := 0;
    while i < |keys|
      invariant 0 <= i <= |keys|
      invariant anomalies == AnomaliesOfMarkets(positions, fills, keys[..i])
    {
      var key := keys[i];
      assert keys[..i + 1][..i] == keys[..i];
      var actual := if key in positions then positions[key].quantity else 0.0;
      if actual != expected[key] {
        anomalies := anomalies + [PositionQuantityMismatch(key)];
      }
      i := i + 1;
    }
    assert keys[..|keys|] == keys;
  }

  /** Stored positions that no fill explains. */
  method CheckRows(
      positions: map<MarketKey, Position>, rows: seq<MarketKey>, fills: seq<Fill>, expected: map<MarketKey, real>)
    returns (anomalies: seq<Anomaly>)
    requires forall k :: k in expected <==> HasFillIn(fills, k)
    ensures anomalies == AnomaliesOfRows(positions, fills, rows)
  {
    hide ReplayQuantity, HasFillIn;
    anomalies := [];
    var i := 0;
    while i < |rows|
      invariant 0 <= i <= |rows|
      invariant anomalies == AnomaliesOfRows(positions, fills, rows[..i])
    {
      var key := rows[i];
      assert rows[..i + 1][..i] == rows[..i];
      if key !in expected && QuantityAt(positions, key) != 0.0 {
        anomalies := anomalies + [PositionWithoutFill(key)];
      }
      i := i + 1;
    }
    assert rows[..|rows|] == rows;
  }

  method Deduplicate(s: seq<Anomaly>) returns (r: seq<Anomaly>)
    ensures r == Unique(s)
  {
    r := [];
    var i := 0;
    while i < |s|
      invariant 0 <= i <= |s| && r == Unique(s[..i])
    {
      assert s[..i + 1][..i] == s[..i];
      if s[i] !in r {
        r := r + [s[i]];
      }
      i := i + 1;
    }
    assert s[..|s|] == s;
  }

  method RunReconciliation(db: Database, cfg: Config, correlationId: string, now: int) returns (report: Report)
    modifies db
    ensures (db.Work(), report) == Reconcile(cfg, old(db.Work()), correlationId, now)
    ensures db.committed == old(db.committed) && db.history == old(db.history)
  {
    hide Sort, AnomaliesOfFills, AnomaliesOfMarkets, AnomaliesOfRows, MarketsOf, ReplayCash, ReplayQuantity, Unique;
    var fills := ListFills(db.Work());
    var anomalies, expectedCash, expected, keys := CheckFills(db.intents, fills, cfg.initialBalance);
    if cfg.quoteAsset !in db.balances {
      anomalies := anomalies + [QuoteBalanceMissing];
    } else if db.balances[cfg.quoteAsset].available != expectedCash {
      anomalies := anomalies + [QuoteBalanceMismatch];
    }
    MarketsOfMembers(fills, |fills|);
    var mismatches := CheckMarkets(db.positions, fills, expected, keys);
    var unexplained := CheckRows(db.positions, db.positionRows, fills, expected);
    anomalies := anomalies + mismatches + unexplained;
    assert anomalies == RawAnomalies(cfg, db.Work(), fills);
    var unique := Deduplicate(anomalies);
    report := Report(unique == [], unique, |fills|, now);
    var kind := if report.consistent then ReconciliationSucceeded else ReconciliationFailed(report.anomalies);
    db.AppendEvent(Event(kind, correlationId, now));
    if !report.consistent {
      if db.risk.Some? && db.risk.value.systemState != Killed {
        db.SaveRisk(db.risk.value.(systemState := Killed, updatedAt := now));
      }
    }
  }
}
