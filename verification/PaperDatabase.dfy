/**
  One database session over the rows: tables that repository calls update in place, the
  last committed contents, commit and rollback (unit_of_work.py and the repositories).
 */
module PaperDatabase {
  import opened PaperDomain
  import opened PaperRepositories
  import opened Wrappers

  class Database {
    var intents: map<nat, Intent>
    var intentIds: map<ClientOrderId, nat>
    var fills: seq<Fill>
    var balances: map<string, Balance>
    var positions: map<MarketKey, Position>
    var positionRows: seq<MarketKey>
    var snapshots: seq<Snapshot>
    var risk: Option<RiskState>
    var events: seq<Event>

    /** What a new session would see. */
    var committed: Tables

    /** Every committed state, in order. */
    ghost var history: seq<Tables>

    /** What this session sees. */
    function Work(): Tables
      reads this
    {
      Tables(intents, intentIds, fills, balances, positions, positionRows, snapshots, risk, events)
    }

    constructor ()
      ensures Work() == committed == EMPTY_TABLES && history == []
    {
      committed := EMPTY_TABLES;
      intents, intentIds, fills, balances, positions := map[], map[], [], map[], map[];
      positionRows, snapshots, risk, events := [], [], None, [];
      history := [];
    }

    method Commit()
      modifies `committed, `history
      ensures committed == Work() && history == old(history) + [Work()]
    {
      committed := Tables(intents, intentIds, fills, balances, positions, positionRows, snapshots, risk, events);
      history := history + [committed];
    }

    /** Also what a crash followed by a new session amounts to. */
    method Rollback()
      modifies this
      ensures Work() == committed == old(committed) && history == old(history)
    {
      intents, intentIds, fills := committed.intents, committed.intentIds, committed.fills;
      balances, positions, positionRows := committed.balances, committed.positions, committed.positionRows;
      snapshots, risk, events := committed.snapshots, committed.risk, committed.events;
    }

    // ---------- order intents ----------

    method CreateOrGet(intent: Intent) returns (r: Result<(Intent, bool), Error>)
      modifies `intents, `intentIds
      ensures (Work(), r) == PaperRepositories.CreateOrGet(old(Work()), intent)
    {
      if intent.clientOrderId !in intentIds {
        intents := intents[intent.id := intent];
        intentIds := intentIds[intent.clientOrderId := intent.id];
        return Ok((intent, true));
      }
      var id := intentIds[intent.clientOrderId];
      if id !in intents {
        return Err(IntentNotPersisted);
      }
      if SignatureOf(intents[id]) != SignatureOf(intent) {
        return Err(IdempotencyConflict);
      }
      r := Ok((intents[id], false));
    }

    method UpdateStatus(id: nat, expected: IntentStatus, status: IntentStatus, at: int) returns (matched: bool)
      modifies `intents
      ensures match PaperRepositories.UpdateStatus(old(Work()), id, expected, status, at)
              case Some(t) => matched && Work() == t
              case None => !matched && Work() == old(Work())
    {
      matched := id in intents && intents[id].status == expected;
      if matched {
        intents := intents[id := intents[id].(status := status, updatedAt := at)];
      }
    }

    // ---------- the portfolio ----------

    method SetBalance(asset: string, balance: Balance)
      modifies `balances
      ensures Work() == WithBalance(old(Work()), asset, balance)
    {
      balances := balances[asset := balance];
    }

    method UpsertPosition(key: MarketKey, position: Position)
      modifies `positions, `positionRows
      ensures Work() == WithPosition(old(Work()), key, position)
    {
      if key !in positions {
        positionRows := positionRows + [key];
      }
      positions := positions[key := position];
    }

    method ApplyExecution(intentId: nat, order: Order) returns (r: Result<(Fill, bool), Error>)
      modifies `intents, `fills, `balances, `positions, `positionRows, `snapshots
      ensures (Work(), r) == PaperRepositories.ApplyExecution(old(Work()), intentId, order)
    {
      var existing := FillFor(fills, intentId);
      if existing.Some? {
        return Ok((existing.value, false));
      }
      fills := fills + [order.fill];
      SetBalance(order.quoteAsset, order.balance);
      UpsertPosition(order.fill.key, order.position);
      snapshots := snapshots + [order.snapshot];
      assert Work() == Posted(old(Work()), order);
      var finalized := UpdateStatus(intentId, Approved, Filled, order.fill.executedAt);
      if !finalized {
        return Err(FillNotFinalized);
      }
      r := Ok((order.fill, true));
    }

    // ---------- risk state and events ----------

    method SaveRisk(state: RiskState)
      modifies `risk
      ensures Work() == old(Work()).(risk := Some(state))
    {
      risk := Some(state);
    }

    method AppendEvent(event: Event)
      modifies `events
      ensures Work() == old(Work()).(events := old(events) + [event])
    {
      events := events + [event];
    }
  }
}
