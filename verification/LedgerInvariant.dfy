/**
  What the rows of a PAPER account always satisfy, whatever the clock does, and why every
  repository write that a cycle makes keeps it.
 */
module LedgerInvariant {
  import opened PaperDomain
  import opened PaperExecution
  import opened PaperLedger
  import opened PaperRepositories
  import opened ReconciliationProperties
  import opened Wrappers

  // ---------- intents and fills ----------

  /** The unique index on the client order id and the primary key agree. */
  ghost predicate IntentsIndexed(t: Tables) {
    && (forall id :: id in t.intents ==>
          t.intents[id].id == id && t.intents[id].clientOrderId in t.intentIds &&
          t.intentIds[t.intents[id].clientOrderId] == id)
    && (forall c :: c in t.intentIds ==> t.intentIds[c] in t.intents && t.intents[t.intentIds[c]].clientOrderId == c)
  }

  /** Status and approved size follow the first decision; the id is the hash of the intent's own parts. */
  predicate IntentSound(i: Intent) {
    && i.quantity > 0.0
    && i.notional == Worth(i.quantity, i.referencePrice)
    && i.decision.requestedSize == i.quantity
    && (i.decision.approved ==> i.decision.approvedSize == i.quantity)
    && (i.status == Approved || i.status == Rejected || i.status == Filled)
    && (i.status == Rejected <==> !i.decision.approved)
    && i.clientOrderId == ClientOrderId(i.signalId, i.key, i.side, i.quantity, i.strategy, i.version)
  }

  ghost predicate IntentsSound(t: Tables) {
    forall id :: id in t.intents ==> IntentSound(t.intents[id])
  }

  /** A fill carries out its whole intent. */
  predicate FillSound(cfg: Config, f: Fill, i: Intent) {
    && f.intentId == f.eventId.intentId == i.id
    && f.clientOrderId == i.clientOrderId && f.key == i.key && f.side == i.side
    && f.quantity == i.quantity && f.price > 0.0
    && f.notional == Worth(f.quantity, f.price) && f.fee == FeeOf(f.notional, cfg.feeRate)
    && (f.side == Buy ==> f.realizedPnl == 0.0)
    && i.status == Filled && i.updatedAt == f.executedAt
  }

  ghost predicate FillsCarryOut(cfg: Config, t: Tables) {
    forall n :: 0 <= n < |t.fills| ==>
      t.fills[n].intentId in t.intents && FillSound(cfg, t.fills[n], t.intents[t.fills[n].intentId])
  }

  ghost predicate FilledHaveFills(t: Tables) {
    forall id :: id in t.intents && t.intents[id].status == Filled ==> FillFor(t.fills, id).Some?
  }

  /** Fills and FILLED intents correspond one to one. */
  ghost predicate FillsMatchIntents(cfg: Config, t: Tables) {
    DistinctIntents(t.fills) && FillsCarryOut(cfg, t) && FilledHaveFills(t)
  }

  // ---------- the books ----------

  function ValueAt(value: Position -> real, positions: map<MarketKey, Position>, key: MarketKey): real {
    if key in positions then value(positions[key]) else 0.0
  }

  /** Sum over the listed positions. */
  function Total(value: Position -> real, positions: map<MarketKey, Position>, rows: seq<MarketKey>): real {
    if |rows| == 0 then 0.0
    else Total(value, positions, rows[..|rows| - 1]) + ValueAt(value, positions, rows[|rows| - 1])
  }

  function RealizedOf(p: Position): real {
    p.realizedPnl
  }

  predicate RowsDistinct(rows: seq<MarketKey>) {
    forall i, j :: 0 <= i < j < |rows| ==> rows[i] != rows[j]
  }

  ghost predicate Rows(t: Tables) {
    && RowsListed(t) && RowsDistinct(t.positionRows)
    && (forall key :: key in t.positions <==> HasFillIn(t.fills, key))
    && (forall key :: key in t.positions ==> ValidPosition(t.positions[key]))
  }

  /** The replay of the fills gives the stored cash, quantities and realized results. */
  ghost predicate Replays(cfg: Config, t: Tables) {
    && t.balances.Keys == {cfg.quoteAsset}
    && t.balances[cfg.quoteAsset].available == ReplayCash(cfg.initialBalance, t.fills)
    && (forall key :: HeldPosition(t, key).quantity == ReplayQuantity(t.fills, key))
    && (forall key :: HeldPosition(t, key).realizedPnl == ReplayRealized(t.fills, key))
  }

  /** Cash plus what the positions stand for is the initial balance plus everything realized. */
  ghost predicate Conserves(cfg: Config, t: Tables)
    requires cfg.quoteAsset in t.balances
  {
    && t.balances[cfg.quoteAsset].available >= 0.0
    && t.balances[cfg.quoteAsset].available + Total(BookValue, t.positions, t.positionRows) ==
       cfg.initialBalance + Total(RealizedOf, t.positions, t.positionRows)
  }

  predicate SingleMarket(fills: seq<Fill>) {
    forall i, j :: 0 <= i < |fills| && 0 <= j < |fills| ==> fills[i].key == fills[j].key
  }

  predicate EquityExplained(cfg: Config, s: Snapshot) {
    s.totalEquity == cfg.initialBalance + s.realizedPnl + s.unrealizedPnl
  }

  /**
    While only one market was traded, every snapshot's equity is the initial balance plus
    realized and unrealized result.
   */
  ghost predicate SnapshotsExplained(cfg: Config, t: Tables) {
    SingleMarket(t.fills) ==> forall n :: 0 <= n < |t.snapshots| ==> EquityExplained(cfg, t.snapshots[n])
  }

  ghost predicate Books(cfg: Config, t: Tables) {
    && Rows(t) && Replays(cfg, t) && Conserves(cfg, t) && NeverNegative(t.fills)
    && |t.snapshots| == |t.fills| && SnapshotsExplained(cfg, t)
  }

  ghost predicate LedgerSound(cfg: Config, t: Tables) {
    IntentsIndexed(t) && IntentsSound(t) && FillsMatchIntents(cfg, t) && Books(cfg, t)
  }

  lemma OneBalance(cfg: Config, t: Tables)
    requires LedgerSound(cfg, t)
    ensures forall asset :: asset in t.balances <==> asset == cfg.quoteAsset
  {
    assert forall asset :: asset in t.balances <==> asset in t.balances.Keys;
  }

  /** The tables that the invariant speaks about are the same. */
  predicate SameLedger(a: Tables, b: Tables) {
    a == b.(risk := a.risk, events := a.events)
  }

  lemma LedgerFrame(cfg: Config, a: Tables, b: Tables)
    requires LedgerSound(cfg, a) && SameLedger(b, a)
    ensures LedgerSound(cfg, b)
  {
    hide NeverNegative, Total, ReplayQuantity, ReplayRealized, ReplayCash, FillFor, FillSound, IntentSound,
      DistinctIntents,
      RowsDistinct, SingleMarket, EquityExplained, HasFillIn, ValidPosition;
    forall key ensures HeldPosition(b, key) == HeldPosition(a, key) {}
  }
}
