/**
  What the repositories do to the rows (infrastructure/database/repositories/orders.py
  and paper.py), as functions from tables to tables.
 */
module PaperRepositories {
  import opened PaperDomain
  import opened Sorting
  import opened Wrappers

  // ---------- order intents ----------

  /** Insert unless the client order id exists; then the stored intent wins, if it has the same signature. */
  function CreateOrGet(t: Tables, intent: Intent): (Tables, Result<(Intent, bool), Error>) {
    if intent.clientOrderId in t.intentIds then
      var id := t.intentIds[intent.clientOrderId];
      if id !in t.intents then (t, Err(IntentNotPersisted))
      else if SignatureOf(t.intents[id]) != SignatureOf(intent) then (t, Err(IdempotencyConflict))
      else (t, Ok((t.intents[id], false)))
    else
      (t.(intents := t.intents[intent.id := intent], intentIds := t.intentIds[intent.clientOrderId := intent.id]),
       Ok((intent, true)))
  }

  /** Compare-and-set of the status; `None` when no row matched. */
  function UpdateStatus(t: Tables, id: nat, expected: IntentStatus, status: IntentStatus, at: int): Option<Tables> {
    if id in t.intents && t.intents[id].status == expected then
      Some(t.(intents := t.intents[id := t.intents[id].(status := status, updatedAt := at)]))
    else None
  }

  // ---------- the portfolio ----------

  function FillFor(fills: seq<Fill>, intentId: nat): Option<Fill> {
    if |fills| == 0 then None
    else if fills[0].intentId == intentId then Some(fills[0])
    else FillFor(fills[1..], intentId)
  }

  function FillKey(f: Fill): Key {
    (f.executedAt, f.id)
  }

  /** Fills by execution time, then id. */
  function ListFills(t: Tables): seq<Fill> {
    Sort(FillKey, t.fills)
  }

  /** The snapshot with the greatest timestamp. */
  function LatestSnapshot(snapshots: seq<Snapshot>): Option<Snapshot> {
    if |snapshots| == 0 then None
    else
      var last := snapshots[|snapshots| - 1];
      match LatestSnapshot(snapshots[..|snapshots| - 1])
      case None => Some(last)
      case Some(s) => if last.timestamp >= s.timestamp then Some(last) else Some(s)
  }

  function WithBalance(t: Tables, asset: string, balance: Balance): Tables {
    t.(balances := t.balances[asset := balance])
  }

  function WithPosition(t: Tables, key: MarketKey, position: Position): Tables {
    t.(positions := t.positions[key := position],
       positionRows := if key in t.positions then t.positionRows else t.positionRows + [key])
  }

  /** One computed fill together with the rows it leads to. */
  datatype Order = Order(fill: Fill, quoteAsset: string, balance: Balance, position: Position, snapshot: Snapshot)

  /** The rows written once the fill itself was inserted, before the status update. */
  function Posted(t: Tables, o: Order): Tables {
    var t1 := t.(fills := t.fills + [o.fill]);
    var t2 := WithBalance(t1, o.quoteAsset, o.balance);
    var t3 := WithPosition(t2, o.fill.key, o.position);
    t3.(snapshots := t3.snapshots + [o.snapshot])
  }

  /**
    Insert the fill unless its intent has one; only then write balance, position and
    snapshot, and finalize the intent. A failed finalization leaves the rows written:
    the caller rolls back.
   */
  function ApplyExecution(t: Tables, intentId: nat, o: Order): (Tables, Result<(Fill, bool), Error>) {
    match FillFor(t.fills, intentId)
    case Some(existing) => (t, Ok((existing, false)))
    case None =>
      var posted := Posted(t, o);
      match UpdateStatus(posted, intentId, Approved, Filled, o.fill.executedAt)
      case None => (posted, Err(FillNotFinalized))
      case Some(finalized) => (finalized, Ok((o.fill, true)))
  }

  // ---------- facts ----------

  lemma {:induction false} FillForAppend(fills: seq<Fill>, f: Fill, intentId: nat)
    ensures FillFor(fills + [f], intentId) ==
            if FillFor(fills, intentId).Some? then FillFor(fills, intentId)
            else if f.intentId == intentId then Some(f) else None
  {
    if |fills| > 0 {
      assert (fills + [f])[1..] == fills[1..] + [f];
      FillForAppend(fills[1..], f, intentId);
    }
  }

  lemma {:induction false} FillForMember(fills: seq<Fill>, intentId: nat)
    ensures FillFor(fills, intentId).Some? <==> exists i :: 0 <= i < |fills| && fills[i].intentId == intentId
    ensures FillFor(fills, intentId).Some? ==>
              FillFor(fills, intentId).value in fills && FillFor(fills, intentId).value.intentId == intentId
  {
    if |fills| > 0 && fills[0].intentId != intentId {
      FillForMember(fills[1..], intentId);
      assert forall i :: 1 <= i < |fills| ==> fills[i] == fills[1..][i - 1];
      if FillFor(fills, intentId).Some? {
        var i :| 0 <= i < |fills[1..]| && fills[1..][i].intentId == intentId;
        assert fills[i + 1].intentId == intentId;
      }
    }
  }

  /** The latest snapshot has the greatest timestamp, and of several with it the last row is taken. */
  lemma {:induction false} LatestIsGreatest(snapshots: seq<Snapshot>) returns (n: nat)
    requires |snapshots| > 0
    ensures n < |snapshots| && LatestSnapshot(snapshots) == Some(snapshots[n])
    ensures forall m :: 0 <= m < |snapshots| ==> snapshots[m].timestamp <= snapshots[n].timestamp
    ensures forall m :: n < m < |snapshots| ==> snapshots[m].timestamp < snapshots[n].timestamp
  {
    n := |snapshots| - 1;
    if n > 0 {
      var k := LatestIsGreatest(snapshots[..n]);
      if snapshots[n].timestamp < snapshots[k].timestamp {
        n := k;
      }
    }
  }

  /** Fills are listed by execution time, and those of the same time by their id; all of them are listed. */
  lemma ListedByTime(t: Tables)
    ensures multiset(ListFills(t)) == multiset(t.fills)
    ensures forall i, j :: 0 <= i < j < |ListFills(t)| ==>
              var f, g := ListFills(t)[i], ListFills(t)[j];
              f.executedAt < g.executedAt || (f.executedAt == g.executedAt && f.id <= g.id)
  {
    SortSorts(FillKey, t.fills);
    hide Sort;
    var fills := ListFills(t);
    forall i, j | 0 <= i < j < |fills|
      ensures fills[i].executedAt < fills[j].executedAt ||
              (fills[i].executedAt == fills[j].executedAt && fills[i].id <= fills[j].id)
    {
      assert KeyLeq(FillKey(fills[i]), FillKey(fills[j]));
    }
  }
}
