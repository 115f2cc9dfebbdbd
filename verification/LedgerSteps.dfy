/** Storing an intent and booking a fill keep the ledger invariant. */
module LedgerSteps {
  import opened LedgerInvariant
  import opened PaperDomain
  import opened PaperExecution
  import opened PaperLedger
  import opened PaperRepositories
  import opened Reals
  import opened ReconciliationProperties
  import opened Wrappers

  predicate SameBooks(a: Tables, b: Tables) {
    && a.fills == b.fills && a.balances == b.balances && a.positions == b.positions
    && a.positionRows == b.positionRows && a.snapshots == b.snapshots
  }

  lemma BooksFrame(cfg: Config, a: Tables, b: Tables)
    requires Books(cfg, a) && SameBooks(b, a)
    ensures Books(cfg, b)
  {
    hide NeverNegative, Total, ReplayQuantity, ReplayRealized, ReplayCash, RowsDistinct, SingleMarket, EquityExplained,
      HasFillIn, ValidPosition;
    forall key ensures HeldPosition(b, key) == HeldPosition(a, key) {}
  }

  // ---------- storing an intent ----------

  lemma NewIntentIndexed(t: Tables, intent: Intent)
    requires IntentsIndexed(t) && intent.id !in t.intents && intent.clientOrderId !in t.intentIds
    ensures IntentsIndexed(CreateOrGet(t, intent).0)
  {}

  lemma NewIntentSound(t: Tables, intent: Intent)
    requires IntentsSound(t) && IntentSound(intent)
    ensures IntentsSound(CreateOrGet(t, intent).0)
  {
    hide IntentSound;
  }

  lemma NewIntentMatches(cfg: Config, t: Tables, intent: Intent)
    requires FillsMatchIntents(cfg, t) && intent.id !in t.intents && intent.status != Filled
    ensures FillsMatchIntents(cfg, CreateOrGet(t, intent).0)
  {
    hide FillSound, FillFor, DistinctIntents;
  }

  /** First write wins: the call stores a fresh intent or leaves everything. */
  lemma CreateOrGetKeeps(cfg: Config, t: Tables, intent: Intent)
    requires LedgerSound(cfg, t) && IntentSound(intent) && intent.status != Filled && intent.id !in t.intents
    ensures LedgerSound(cfg, CreateOrGet(t, intent).0)
  {
    if intent.clientOrderId !in t.intentIds {
      NewIntentIndexed(t, intent);
      NewIntentSound(t, intent);
      NewIntentMatches(cfg, t, intent);
      BooksFrame(cfg, t, CreateOrGet(t, intent).0);
    }
    hide Books, IntentSound, IntentsSound, IntentsIndexed, FillsMatchIntents;
  }

  lemma CreateOrGetAnswers(t: Tables, intent: Intent)
    requires IntentsIndexed(t) && intent.id !in t.intents
    ensures var (after, r) := CreateOrGet(t, intent);
            && (forall id :: id in t.intents ==> id in after.intents && after.intents[id] == t.intents[id])
            && after.intents.Keys <= t.intents.Keys + {intent.id}
            && (r.Ok? ==> var (stored, created) := r.value;
                 stored.id in after.intents && after.intents[stored.id] == stored &&
                 SignatureOf(stored) == SignatureOf(intent)
                 && stored.clientOrderId == intent.clientOrderId && created == (intent.clientOrderId !in t.intentIds))
            && (r.Err? ==> r.error == IdempotencyConflict && after == t)
  {}

  // ---------- booking a fill ----------

  /** What `Prepare` promises about an order it hands out. */
  ghost predicate OrderSound(cfg: Config, t: Tables, intent: Intent, last: real, o: Order) {
    var f := o.fill;
    && FillFor(t.fills, intent.id).None?
    && intent.status == Approved && intent.decision.approved && intent.decision.approvedSize > 0.0
    && f.intentId == f.eventId.intentId == intent.id && f.clientOrderId == intent.clientOrderId
    && f.key == intent.key && f.side == intent.side && f.quantity == intent.decision.approvedSize
    && f.price > 0.0 && f.notional == Worth(f.quantity, f.price) && f.fee == FeeOf(f.notional, cfg.feeRate)
    && o.quoteAsset in t.balances
    && Apply(f.side, f.quantity, f.notional, f.fee, t.balances[o.quoteAsset], HeldPosition(t, f.key), f.executedAt)
       == Ok(Applied(o.balance, o.position, f.realizedPnl))
    && o.snapshot == SnapshotOf(o.quoteAsset, o.balance, o.position, last, f.executedAt)
  }

  lemma PrepareMeans(cfg: Config, t: Tables, intent: Intent, market: Market, ticker: Ticker, fillId: nat, now: int)
    ensures var r := Prepare(cfg, t, intent, market, ticker, fillId, now);
            && (r.Ok? && r.value.Ready? ==>
                  && OrderSound(cfg, t, intent, ticker.last, r.value.order)
                  && intent.id in t.intents && SignatureOf(t.intents[intent.id]) == SignatureOf(intent)
                  && r.value.order.quoteAsset == market.quoteAsset
                  && r.value.order.fill.price == ExecutionPrice(ticker, intent.side, cfg.slippageBps)
                  && r.value.order.fill.id == fillId && r.value.order.fill.executedAt == now
                  && t.risk.Some? && t.risk.value.systemState == Enabled)
            && (r.Ok? && r.value.Existing? ==> FillFor(t.fills, intent.id) == Some(r.value.fill))
  {
    hide ExecutionPrice, Worth, FeeOf, Apply, SnapshotOf, FillFor;
  }

  /** The arithmetic of one sound order. */
  lemma OrderArithmetic(cfg: Config, t: Tables, intent: Intent, last: real, o: Order)
    requires OrderSound(cfg, t, intent, last, o)
    requires t.balances[o.quoteAsset].available >= 0.0 && ValidPosition(HeldPosition(t, o.fill.key))
    ensures var before, after := HeldPosition(t, o.fill.key), o.position;
            && ValidPosition(after) && o.balance.available >= 0.0
            && o.balance.available == t.balances[o.quoteAsset].available + CashFlow(o.fill)
            && after.quantity == before.quantity + Signed(o.fill)
            && after.realizedPnl == before.realizedPnl + o.fill.realizedPnl
            && o.balance.available + BookValue(after) ==
               t.balances[o.quoteAsset].available + BookValue(before) + o.fill.realizedPnl
            && (o.fill.side == Buy ==> o.fill.realizedPnl == 0.0)
  {
    hide Worth, FeeOf, Apply, SnapshotOf, FillFor, BookValue;
    var f := o.fill;
    FeeWithinNotional(f.price, f.quantity, cfg.feeRate);
    ApplyConserves(f.side, f.quantity, f.notional, f.fee, t.balances[o.quoteAsset], HeldPosition(t, f.key),
                   f.executedAt);
  }

  lemma HeldPositionValid(t: Tables, key: MarketKey)
    requires forall k :: k in t.positions ==> ValidPosition(t.positions[k])
    ensures ValidPosition(HeldPosition(t, key))
  {}

  lemma RowsPosted(t: Tables, o: Order)
    requires Rows(t) && ValidPosition(o.position)
    ensures Rows(Posted(t, o))
  {
    hide ValidPosition, HasFillIn;
    var after := Posted(t, o);
    forall key ensures HasFillIn(after.fills, key) <==> HasFillIn(t.fills, key) || key == o.fill.key {
      HasFillAppend(t.fills, o.fill, key);
    }
    assert o.fill.key in after.positions;
  }

  lemma HasFillAppend(fills: seq<Fill>, f: Fill, key: MarketKey)
    ensures HasFillIn(fills + [f], key) <==> HasFillIn(fills, key) || key == f.key
  {
    assert (fills + [f])[|fills|] == f;
    if HasFillIn(fills, key) {
      var i :| 0 <= i < |fills| && fills[i].key == key;
      assert (fills + [f])[i].key == key;
    }
  }

  lemma ReplaysPosted(cfg: Config, t: Tables, o: Order)
    requires Replays(cfg, t) && o.quoteAsset == cfg.quoteAsset
    requires o.balance.available == t.balances[o.quoteAsset].available + CashFlow(o.fill)
    requires o.position.quantity == HeldPosition(t, o.fill.key).quantity + Signed(o.fill)
    requires o.position.realizedPnl == HeldPosition(t, o.fill.key).realizedPnl + o.fill.realizedPnl
    ensures Replays(cfg, Posted(t, o))
  {
    hide ReplayCash, ReplayQuantity, ReplayRealized, CashFlow, Signed;
    var after := Posted(t, o);
    ReplayAppend(cfg.initialBalance, t.fills, o.fill, o.fill.key);
    forall key
      ensures HeldPosition(after, key).quantity == ReplayQuantity(after.fills, key)
      ensures HeldPosition(after, key).realizedPnl == ReplayRealized(after.fills, key)
    {
      ReplayAppend(cfg.initialBalance, t.fills, o.fill, key);
    }
  }

  /** Changing one position changes the sum by the difference, once. */
  lemma {:induction false} TotalUpdate(
      value: Position -> real, positions: map<MarketKey, Position>, rows: seq<MarketKey>, key: MarketKey, p: Position)
    requires RowsDistinct(rows)
    ensures Total(value, positions[key := p], rows) ==
            Total(value, positions, rows) + if key in rows then value(p) - ValueAt(value, positions, key) else 0.0
  {
    if |rows| > 0 {
      var init, last := rows[..|rows| - 1], rows[|rows| - 1];
      assert rows == init + [last];
      TotalUpdate(value, positions, init, key, p);
      if last == key {
        assert key !in init;
      }
    }
  }

  lemma TotalPosted(value: Position -> real, t: Tables, key: MarketKey, p: Position)
    requires RowsDistinct(t.positionRows) && RowsListed(t)
    ensures var after := WithPosition(t, key, p);
            Total(value, after.positions, after.positionRows) ==
            Total(value, t.positions, t.positionRows) + value(p) - ValueAt(value, t.positions, key)
  {
    TotalUpdate(value, t.positions, t.positionRows, key, p);
    if key !in t.positions {
      assert (t.positionRows + [key])[..|t.positionRows|] == t.positionRows;
    }
  }

  lemma ConservesPosted(cfg: Config, t: Tables, o: Order)
    requires Rows(t) && cfg.quoteAsset in t.balances && Conserves(cfg, t) && o.quoteAsset == cfg.quoteAsset
    requires o.balance.available >= 0.0
    requires o.position.realizedPnl == HeldPosition(t, o.fill.key).realizedPnl + o.fill.realizedPnl
    requires o.balance.available + BookValue(o.position) ==
             t.balances[o.quoteAsset].available + BookValue(HeldPosition(t, o.fill.key)) + o.fill.realizedPnl
    ensures Conserves(cfg, Posted(t, o))
  {
    hide Total, HasFillIn, ValidPosition, RowsDistinct, RowsListed;
    var key := o.fill.key;
    TotalPosted(BookValue, t, key, o.position);
    TotalPosted(RealizedOf, t, key, o.position);
    var after := Posted(t, o);
    var step := WithPosition(t, key, o.position);
    assert after.positions == step.positions && after.positionRows == step.positionRows;
    NothingHeld();
  }

  lemma NothingHeld()
    ensures BookValue(NO_POSITION) == 0.0
  {}

  lemma NeverNegativePosted(fills: seq<Fill>, f: Fill)
    requires NeverNegative(fills) && ReplayQuantity(fills + [f], f.key) >= 0.0
    ensures NeverNegative(fills + [f])
  {
    hide ReplayQuantity;
    var after := fills + [f];
    forall n, key | 0 <= n <= |after| ensures ReplayQuantity(after[..n], key) >= 0.0 {
      if n <= |fills| {
        assert after[..n] == fills[..n];
      } else {
        assert after[..n] == after && fills[..|fills|] == fills;
        ReplayAppend(0.0, fills, f, key);
        assert ReplayQuantity(fills[..|fills|], key) >= 0.0;
      }
    }
  }

  /** Marking one position to the market explains the equity by realized and unrealized result. */
  lemma SnapshotExplained(cfg: Config, balance: Balance, p: Position, last: real, now: int)
    requires p.quantity >= 0.0
    requires balance.available + BookValue(p) == cfg.initialBalance + p.realizedPnl
    ensures EquityExplained(cfg, SnapshotOf(cfg.quoteAsset, balance, p, last, now))
  {
    hide Worth, UnrealizedOf;
    MarkToMarket(p.quantity, last, p.averageCost);
  }

  lemma MarkToMarket(quantity: real, last: real, averageCost: real)
    requires quantity >= 0.0
    ensures Worth(quantity, last) == Worth(quantity, averageCost) + UnrealizedOf(quantity, last, averageCost)
  {
    if quantity == 0.0 {
      assert 0.0 * last == 0.0 && 0.0 * averageCost == 0.0;
    } else {
      Distribute(last, averageCost, quantity);
    }
  }

  lemma OneRow(t: Tables, key: MarketKey)
    requires Rows(t) && SingleMarket(t.fills) && HasFillIn(t.fills, key)
    ensures t.positionRows == [key] && key in t.positions
  {
    hide ValidPosition;
    forall k | k in t.positionRows ensures k == key {
      assert HasFillIn(t.fills, k);
    }
    var rows := t.positionRows;
    assert |rows| > 1 ==> rows[0] != rows[1];
    assert key in rows;
    forall i | 0 <= i < |rows| ensures rows[i] == key {
      assert rows[i] in rows;
    }
  }

  lemma SnapshotsPosted(cfg: Config, t: Tables, o: Order, last: real)
    requires Rows(Posted(t, o)) && cfg.quoteAsset in t.balances && Conserves(cfg, Posted(t, o))
    requires SnapshotsExplained(cfg, t)
    requires o.quoteAsset == cfg.quoteAsset
    requires o.snapshot == SnapshotOf(o.quoteAsset, o.balance, o.position, last, o.fill.executedAt)
    ensures SnapshotsExplained(cfg, Posted(t, o))
  {
    hide EquityExplained, SnapshotOf;
    var after := Posted(t, o);
    if SingleMarket(after.fills) {
      assert SingleMarket(t.fills) by {
        assert forall i :: 0 <= i < |t.fills| ==> after.fills[i] == t.fills[i];
      }
      assert HasFillIn(after.fills, o.fill.key) by {
        HasFillAppend(t.fills, o.fill, o.fill.key);
      }
      OneRow(after, o.fill.key);
      assert after.positionRows[..0] == [];
      assert Total(BookValue, after.positions, after.positionRows) == BookValue(o.position);
      assert Total(RealizedOf, after.positions, after.positionRows) == o.position.realizedPnl;
      SnapshotExplained(cfg, o.balance, o.position, last, o.fill.executedAt);
    }
  }

  /** Booking a sound order keeps the books. */
  lemma BooksPosted(cfg: Config, t: Tables, intent: Intent, last: real, o: Order)
    requires Books(cfg, t) && OrderSound(cfg, t, intent, last, o)
    ensures o.quoteAsset == cfg.quoteAsset && Books(cfg, Posted(t, o))
  {
    assert o.quoteAsset == cfg.quoteAsset;
    HeldPositionValid(t, o.fill.key);
    OrderArithmetic(cfg, t, intent, last, o);
    RowsPosted(t, o);
    ReplaysPosted(cfg, t, o);
    ConservesPosted(cfg, t, o);
    SnapshotsPosted(cfg, t, o, last);
    assert HeldPosition(Posted(t, o), o.fill.key).quantity == ReplayQuantity(t.fills + [o.fill], o.fill.key);
    NeverNegativePosted(t.fills, o.fill);
    hide Rows, Replays, Conserves, SnapshotsExplained, NeverNegative, ReplayQuantity;
  }

  // ---------- finalizing the intent ----------

  /** The rows after a fill was booked and its intent finalized. */
  function Finalized(t: Tables, intent: Intent, o: Order): Tables {
    Posted(t, o).(intents := t.intents[intent.id := intent.(status := Filled, updatedAt := o.fill.executedAt)])
  }

  lemma FinalizedIndexed(t: Tables, intent: Intent, o: Order)
    requires IntentsIndexed(t) && intent.id in t.intents && t.intents[intent.id] == intent
    ensures IntentsIndexed(Finalized(t, intent, o))
  {}

  lemma FinalizedSound(t: Tables, intent: Intent, o: Order)
    requires IntentsSound(t) && intent.id in t.intents && t.intents[intent.id] == intent && intent.status == Approved
    ensures IntentsSound(Finalized(t, intent, o))
  {}

  lemma DistinctPosted(fills: seq<Fill>, f: Fill)
    requires DistinctIntents(fills) && FillFor(fills, f.intentId).None?
    ensures DistinctIntents(fills + [f])
  {
    FillForMember(fills, f.intentId);
  }

  lemma CarryOutPosted(cfg: Config, t: Tables, intent: Intent, last: real, o: Order)
    requires FillsCarryOut(cfg, t) && FillFor(t.fills, intent.id).None? && OrderSound(cfg, t, intent, last, o)
    requires IntentSound(intent)
    requires intent.id in t.intents && t.intents[intent.id] == intent
    ensures FillsCarryOut(cfg, Finalized(t, intent, o))
  {
    var after := Finalized(t, intent, o);
    FillForMember(t.fills, intent.id);
    hide SnapshotOf, FillFor, Worth, FeeOf;
    assert FillSound(cfg, o.fill, after.intents[intent.id]);
    hide FillSound;
    forall n | 0 <= n < |after.fills|
      ensures after.fills[n].intentId in after.intents
      ensures FillSound(cfg, after.fills[n], after.intents[after.fills[n].intentId])
    {
      if n < |t.fills| {
        assert after.fills[n] == t.fills[n] && t.fills[n].intentId != intent.id;
      }
    }
  }

  lemma FilledPosted(t: Tables, intent: Intent, o: Order)
    requires FilledHaveFills(t) && o.fill.intentId == intent.id
    ensures FilledHaveFills(Finalized(t, intent, o))
  {
    hide FillFor;
    var after := Finalized(t, intent, o);
    forall id | id in after.intents && after.intents[id].status == Filled ensures FillFor(after.fills, id).Some? {
      FillForAppend(t.fills, o.fill, id);
    }
  }

  /** A sound order for a stored, approved intent is booked, finalizes it, and keeps the ledger invariant. */
  lemma ApplyExecutionKeeps(cfg: Config, t: Tables, intent: Intent, last: real, o: Order)
    requires LedgerSound(cfg, t) && OrderSound(cfg, t, intent, last, o)
    requires intent.id in t.intents && t.intents[intent.id] == intent
    ensures ApplyExecution(t, intent.id, o) == (Finalized(t, intent, o), Ok((o.fill, true)))
    ensures LedgerSound(cfg, Finalized(t, intent, o))
  {
    hide Apply, SnapshotOf, FillFor, Worth, FeeOf, Books, IntentsIndexed, FillSound;
    assert IntentSound(intent);
    hide IntentSound;
    FinalizedIndexed(t, intent, o);
    FinalizedSound(t, intent, o);
    DistinctPosted(t.fills, o.fill);
    CarryOutPosted(cfg, t, intent, last, o);
    FilledPosted(t, intent, o);
    BooksPosted(cfg, t, intent, last, o);
    BooksFrame(cfg, Posted(t, o), Finalized(t, intent, o));
    hide IntentsSound, FillsCarryOut, FilledHaveFills, DistinctIntents;
  }
}
