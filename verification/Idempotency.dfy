/** Retries and crashes: what a stored intent fixes for every later cycle. */
module Idempotency {
  import opened CycleSteps
  import opened LedgerInvariant
  import opened LedgerSteps
  import opened PaperDomain
  import opened PaperExecution
  import opened PaperLedger
  import opened PaperRepositories
  import opened Reconciliation
  import opened RiskEngine
  import opened TradingCycle
  import opened TradingRuns
  import opened Wrappers

  // ---------- the first decision sticks ----------

  /** An intent never changes, except that an approved one is finalized. */
  predicate Kept(was: Intent, i: Intent) {
    i == was || (was.status == Approved && i == was.(status := Filled, updatedAt := i.updatedAt))
  }

  ghost predicate IntentsKept(a: Tables, b: Tables) {
    forall id :: id in a.intents ==> id in b.intents && Kept(a.intents[id], b.intents[id])
  }

  lemma KeptTwice(a: Tables, b: Tables, c: Tables)
    requires IntentsKept(a, b) && IntentsKept(b, c)
    ensures IntentsKept(a, c)
  {
    forall id | id in a.intents ensures id in c.intents && Kept(a.intents[id], c.intents[id]) {
      assert Kept(a.intents[id], b.intents[id]) && Kept(b.intents[id], c.intents[id]);
    }
  }

  lemma BookKeepsIntents(cfg: Config, o: Opening, input: CycleInput)
    requires o.Decided? && LedgerSound(cfg, o.tables)
    requires o.intent.id in o.tables.intents && o.tables.intents[o.intent.id] == o.intent
    ensures BookOf(cfg, o, input).Ok? ==> IntentsKept(o.tables, BookOf(cfg, o, input).value.0)
  {
    hide LedgerSound, Book, Prepare, FillFor, RecordExecution, Apply, SnapshotOf, Worth, FeeOf;
    BookMeans(cfg, o.tables, o.intent, o.market, o.ticker, input.fillId, input.now);
  }

  lemma OpenKeepsIntents(cfg: Config, t: Tables, input: CycleInput)
    requires LedgerSound(cfg, t) && input.intentId !in t.intents
    ensures var o := Open(cfg, t, input); !o.Refused? ==> IntentsKept(t, o.tables)
  {
    hide LedgerSound, Open, SameBooks, Permits, ContextIn, ResetRisk, Tradable, OpeningKind;
    OpenMeans(cfg, t, input);
  }

  lemma SameIntentsKept(a: Tables, b: Tables, c: Tables)
    requires IntentsKept(a, b) && c.intents == b.intents
    ensures IntentsKept(a, c)
  {}

  lemma CycleKeepsIntents(cfg: Config, t: Tables, input: CycleInput)
    requires LedgerSound(cfg, t) && input.intentId !in t.intents
    ensures var commits := Cycle(cfg, t, input).0;
            forall n :: 0 <= n < |commits| ==> IntentsKept(t, commits[n])
  {
    hide LedgerSound, IntentsKept, Cycle, Open, Book, Reconcile, SameBooks, Permits, ContextIn, ResetRisk, Tradable,
      OpeningKind;
    CycleStages(cfg, t, input);
    OpenMeans(cfg, t, input);
    OpenKeepsIntents(cfg, t, input);
    var commits, o := Cycle(cfg, t, input).0, Open(cfg, t, input);
    if |commits| == 2 {
      SameIntentsKept(t, commits[0], commits[1]);
    } else if |commits| == 3 {
      BookKeepsIntents(cfg, o, input);
      KeptTwice(t, commits[0], commits[1]);
      ReconcileFrame(cfg, commits[1], input.correlationId, input.now);
      SameIntentsKept(t, commits[1], commits[2]);
    }
  }

  lemma NextKeepsIntents(cfg: Config, t: Tables, step: Step)
    requires LedgerSound(cfg, t) && Fresh(t, step)
    ensures IntentsKept(t, Next(cfg, t, step))
  {
    hide LedgerSound, Cycle, ReportOn;
    if step.Trading? {
      CycleKeepsIntents(cfg, t, step.input);
    }
  }

  lemma {:induction false} RunKeepsIntents(cfg: Config, t: Tables, steps: seq<Step>)
    requires LedgerSound(cfg, t) && t.risk.Some? && Possible(cfg, t, steps)
    ensures IntentsKept(t, Run(cfg, t, steps))
    decreases |steps|
  {
    hide LedgerSound, Next;
    if |steps| > 0 {
      NextKeepsIntents(cfg, t, steps[0]);
      NextSound(cfg, t, steps[0]);
      NextKeepsRisk(cfg, t, steps[0]);
      RunKeepsIntents(cfg, Next(cfg, t, steps[0]), steps[1..]);
      KeptTwice(t, Next(cfg, t, steps[0]), Run(cfg, t, steps));
    }
  }

  lemma FilledByItsIntent(cfg: Config, t: Tables, id: nat)
    requires LedgerSound(cfg, t) && id in t.intents
    ensures FillFor(t.fills, id).Some? <==> t.intents[id].status == Filled
    ensures FillFor(t.fills, id).Some? ==> FillSound(cfg, FillFor(t.fills, id).value, t.intents[id])
  {
    hide FillSound, Books, IntentsIndexed, IntentsSound;
    FillForMember(t.fills, id);
    if FillFor(t.fills, id).Some? {
      var f := FillFor(t.fills, id).value;
      var n :| 0 <= n < |t.fills| && t.fills[n] == f;
      FillSoundMeans(cfg, f, t.intents[id]);
    }
  }

  lemma FillSoundMeans(cfg: Config, f: Fill, i: Intent)
    requires FillSound(cfg, f, i)
    ensures i.status == Filled
  {}

  /**
    The first decision is final: whatever later cycles decide, an intent first stored
    REJECTED is never filled, and one stored approved is filled, if ever, in exactly the
    quantity that was approved first.
   */
  lemma FirstDecisionIsFinal(cfg: Config, t: Tables, steps: seq<Step>, id: nat)
    requires LedgerSound(cfg, t) && t.risk.Some? && Possible(cfg, t, steps) && id in t.intents
    ensures var after := Run(cfg, t, steps);
            && id in after.intents && after.intents[id].decision == t.intents[id].decision
            && (t.intents[id].status == Rejected ==>
                  after.intents[id] == t.intents[id] && FillFor(after.fills, id).None?)
            && (FillFor(after.fills, id).Some? ==>
                  t.intents[id].decision.approved &&
                  FillFor(after.fills, id).value.quantity == t.intents[id].decision.approvedSize)
  {
    hide LedgerSound, Run, FillFor, Possible, Worth, FeeOf;
    RunKeepsIntents(cfg, t, steps);
    RunSound(cfg, t, steps);
    FilledByItsIntent(cfg, Run(cfg, t, steps), id);
    StoredIntentSound(cfg, t, id);
  }

  lemma StoredIntentSound(cfg: Config, t: Tables, id: nat)
    requires LedgerSound(cfg, t) && id in t.intents
    ensures IntentSound(t.intents[id]) && t.intents[id].clientOrderId in t.intentIds
    ensures t.intentIds[t.intents[id].clientOrderId] == id
  {}

  // ---------- retrying a stored intent ----------

  /** The intent that this input asks for was stored by an earlier cycle. */
  predicate Stored(t: Tables, input: CycleInput) {
    && Tradable(t, input)
    && ClientOrderIdOf(input, input.signal.value) in t.intentIds
    && t.intentIds[ClientOrderIdOf(input, input.signal.value)] in t.intents
  }

  function StoredIntent(t: Tables, input: CycleInput): Intent
    requires Stored(t, input)
  {
    t.intents[t.intentIds[ClientOrderIdOf(input, input.signal.value)]]
  }

  /** The client order id fixes the whole signature except the reference price. */
  lemma SignatureIsPrice(i: Intent, j: Intent)
    requires i.clientOrderId == j.clientOrderId
    requires i.clientOrderId == ClientOrderId(i.signalId, i.key, i.side, i.quantity, i.strategy, i.version)
    requires j.clientOrderId == ClientOrderId(j.signalId, j.key, j.side, j.quantity, j.strategy, j.version)
    requires i.notional == Worth(i.quantity, i.referencePrice) && j.notional == Worth(j.quantity, j.referencePrice)
    ensures SignatureOf(i) == SignatureOf(j) <==> i.referencePrice == j.referencePrice
  {}

  lemma StoredAnswer(cfg: Config, t: Tables, t1: Tables, input: CycleInput, decision: RiskDecision)
    requires LedgerSound(cfg, t) && Stored(t, input) && t1 == t.(risk := t1.risk)
    ensures var intent := IntentOf(input, input.signal.value, input.ticker.value.last, decision);
            var stored := StoredIntent(t, input);
            CreateOrGet(t1, intent) ==
            (t1,
             if stored.referencePrice == input.ticker.value.last then Ok((stored, false))
             else Err(IdempotencyConflict))
  {
    var stored := StoredIntent(t, input);
    StoredIntentSound(cfg, t, stored.id);
    SignatureIsPrice(stored, IntentOf(input, input.signal.value, input.ticker.value.last, decision));
    hide Worth, FillsMatchIntents, Books;
  }

  /**
    A retry meets a conflict exactly when the last price moved since the intent was stored,
    and then it commits nothing; otherwise it continues with the stored intent.
   */
  lemma RetryConflictsIffPriceMoved(cfg: Config, t: Tables, input: CycleInput)
    requires LedgerSound(cfg, t) && Stored(t, input) && cfg.mode == PaperMode && ValidContext(ContextIn(t, input))
    ensures var o := Open(cfg, t, input);
            if StoredIntent(t, input).referencePrice != input.ticker.value.last then
              Cycle(cfg, t, input) == ([], Conflict(IdempotencyConflict))
            else
              && o.Decided? && o.intent == StoredIntent(t, input) && o.market == input.market.value
              && o.ticker == input.ticker.value
              && SameBooks(o.tables, t) && o.tables.intents == t.intents && o.tables.intentIds == t.intentIds
              && o.tables.risk == ResetRisk(t, ContextIn(t, input).portfolioEquity, input.now)
              && (o.decision.approved <==>
                    t.risk.Some? && Permits(cfg, input.quantity, ContextIn(t, input), o.tables.risk.value))
  {
    hide LedgerSound, Permits, EvaluateRisk, SpreadBps, EquityOf, CreateOrGet, ValidContext, IntentOf, StoredIntent;
    var c := ContextIn(t, input);
    EvaluateRiskMeans(cfg, t, input.quantity, c);
    var (t1, d) := EvaluateRisk(cfg, t, input.quantity, c);
    StoredAnswer(cfg, t, t1, input, d);
  }

  /** The retry can go on with the stored intent. */
  predicate CanContinue(cfg: Config, t: Tables, input: CycleInput) {
    && Stored(t, input) && cfg.mode == PaperMode && ValidContext(ContextIn(t, input))
    && StoredIntent(t, input).referencePrice == input.ticker.value.last
  }

  predicate NothingBooked(t: Tables, commits: seq<Tables>) {
    forall n :: 0 <= n < |commits| ==> SameBooks(commits[n], t) && commits[n].intents == t.intents
  }

  /** The answer is the existing fill with the rows as they are, and nothing new. */
  ghost predicate HandsOut(t: Tables, input: CycleInput, outcome: Outcome)
    requires Stored(t, input)
  {
    && outcome.Finished? && FillFor(t.fills, StoredIntent(t, input).id) == Some(outcome.execution.fill)
    && var e := outcome.execution;
    && !e.created && e.fill.key in t.positions && e.position == t.positions[e.fill.key]
    && e.balance == t.balances[input.market.value.quoteAsset] && LatestSnapshot(t.snapshots) == Some(e.snapshot)
  }

  /** On a reachable account a risk context is valid exactly when the equity is positive. */
  lemma ValidIffEquity(cfg: Config, t: Tables, input: CycleInput)
    requires LedgerSound(cfg, t) && Tradable(t, input)
    ensures ValidContext(ContextIn(t, input)) <==> ContextIn(t, input).portfolioEquity > 0.0
  {
    SpreadWithin(input.ticker.value, 0.0);
    NothingNegative(cfg, t, input.market.value.quoteAsset, input.signal.value.key);
    hide LedgerSound, SpreadBps, EquityOf, HeldPosition;
  }

  lemma NothingNegative(cfg: Config, t: Tables, asset: string, key: MarketKey)
    requires LedgerSound(cfg, t) && asset in t.balances
    ensures t.balances[asset].available >= 0.0 && HeldPosition(t, key).quantity >= 0.0
  {
    assert asset in t.balances.Keys;
    HeldPositionValid(t, key);
  }

  lemma InvalidContextRefuses(cfg: Config, t: Tables, input: CycleInput)
    requires Tradable(t, input) && cfg.mode == PaperMode && !ValidContext(ContextIn(t, input))
    ensures Cycle(cfg, t, input) == ([], ContextInvalid)
  {
    hide ValidContext, EvaluateRisk, EquityOf, SpreadBps;
  }

  /**
    A retry after the fill was committed books nothing. Unlike what the documentation
    promises, it hands out the existing fill if and only if there is equity and the risk
    rules permit the trade once more; otherwise it is refused. Nothing else can happen.
   */
  lemma RetryAfterFill(cfg: Config, t: Tables, input: CycleInput)
    requires LedgerSound(cfg, t) && Stored(t, input) && cfg.mode == PaperMode
    requires StoredIntent(t, input).status == Filled && StoredIntent(t, input).referencePrice == input.ticker.value.last
    ensures var (commits, outcome) := Cycle(cfg, t, input);
            var solvent := ContextIn(t, input).portfolioEquity > 0.0;
            && NothingBooked(t, commits)
            && (HandsOut(t, input, outcome) <==> solvent && MayTrade(cfg, t, input))
            && (outcome.RiskRefused? <==> solvent && !MayTrade(cfg, t, input))
            && (outcome.ContextInvalid? <==> !solvent)
  {
    hide LedgerSound, Cycle, ContextIn, ValidContext, MayTrade, FillFor, StoredIntent, LatestSnapshot;
    ValidIffEquity(cfg, t, input);
    if ValidContext(ContextIn(t, input)) {
      RetryInContext(cfg, t, input);
    } else {
      InvalidContextRefuses(cfg, t, input);
    }
  }

  lemma RetryInContext(cfg: Config, t: Tables, input: CycleInput)
    requires LedgerSound(cfg, t) && CanContinue(cfg, t, input) && StoredIntent(t, input).status == Filled
    ensures var (commits, outcome) := Cycle(cfg, t, input);
            && NothingBooked(t, commits) && !outcome.ContextInvalid?
            && (HandsOut(t, input, outcome) <==> MayTrade(cfg, t, input))
            && (outcome.RiskRefused? <==> !MayTrade(cfg, t, input))
  {
    hide LedgerSound, Open, Book, Reconcile, Permits, ContextIn, FillFor, ValidContext, ResetForDay, LatestSnapshot;
    CycleStages(cfg, t, input);
    RetryConflictsIffPriceMoved(cfg, t, input);
    var o, stored := Open(cfg, t, input), StoredIntent(t, input);
    StoredIntentHere(cfg, t, input);
    FilledByItsIntent(cfg, t, stored.id);
    FillIsComplete(cfg, t, stored.id);
    FilledIsReloaded(cfg, o, input);
    var b := BookOf(cfg, o, input);
    if b.Ok? {
      ReconcileFrame(cfg, b.value.0, input.correlationId, input.now);
    }
  }

  /** Every stored fill has its position, and a snapshot was taken. */
  lemma FillIsComplete(cfg: Config, t: Tables, id: nat)
    requires LedgerSound(cfg, t) && FillFor(t.fills, id).Some?
    ensures FillFor(t.fills, id).value.key in t.positions && LatestSnapshot(t.snapshots).Some?
  {
    hide IntentsIndexed, IntentsSound, FillsMatchIntents, Replays, Conserves, NeverNegative, SnapshotsExplained,
      ValidPosition;
    FillForMember(t.fills, id);
    var fill := FillFor(t.fills, id).value;
    var n :| 0 <= n < |t.fills| && t.fills[n] == fill;
    assert HasFillIn(t.fills, fill.key);
  }

  /** The rules permit the trade now, on the risk row reset for the day. */
  predicate MayTrade(cfg: Config, t: Tables, input: CycleInput)
    requires Tradable(t, input)
  {
    var c := ContextIn(t, input);
    t.risk.Some? &&
    Permits(cfg, input.quantity, c, ResetForDay(t.risk.value, Day(input.now), c.portfolioEquity, input.now))
  }

  lemma StoredIntentHere(cfg: Config, t: Tables, input: CycleInput)
    requires LedgerSound(cfg, t) && Stored(t, input)
    ensures var i := StoredIntent(t, input); i.id in t.intents && t.intents[i.id] == i
  {}

  lemma FilledIsReloaded(cfg: Config, o: Opening, input: CycleInput)
    requires o.Decided? && o.intent.id in o.tables.intents && o.tables.intents[o.intent.id] == o.intent
    requires FillFor(o.tables.fills, o.intent.id).Some?
    requires FillFor(o.tables.fills, o.intent.id).value.key in o.tables.positions
    requires LatestSnapshot(o.tables.snapshots).Some?
    requires o.market.quoteAsset in o.tables.balances
    ensures var t, fill := o.tables, FillFor(o.tables.fills, o.intent.id).value;
            BookOf(cfg, o, input) ==
            Ok((t, Execution(fill, t.balances[o.market.quoteAsset], t.positions[fill.key],
                             LatestSnapshot(t.snapshots).value, false)))
  {
    hide FillFor, LatestSnapshot;
  }

  // ---------- a crash, then a retry ----------

  /** The same request, sent again: a fresh quote, new row ids, another correlation id and time. */
  predicate SameRequest(a: CycleInput, b: CycleInput) {
    && a.signalId == b.signalId && a.signal == b.signal && a.market == b.market && a.quantity == b.quantity
  }

  /** Both have a quote, and the last price is the same; bid, ask and time may differ. */
  predicate SameLast(a: CycleInput, b: CycleInput) {
    a.ticker.Some? && b.ticker.Some? && a.ticker.value.last == b.ticker.value.last
  }

  function PriceOf(cfg: Config, input: CycleInput): real
    requires input.signal.Some? && input.signal.value.action != HoldSignal && input.ticker.Some?
  {
    ExecutionPrice(input.ticker.value, SideOf(input.signal.value.action), cfg.slippageBps)
  }

  function AppliedTo(cfg: Config, t: Tables, input: CycleInput): Result<Applied, Error>
    requires Tradable(t, input)
  {
    var notional := Worth(input.quantity, PriceOf(cfg, input));
    Apply(SideOf(input.signal.value.action), input.quantity, notional, FeeOf(notional, cfg.feeRate),
          t.balances[input.market.value.quoteAsset], HeldPosition(t, input.signal.value.key), input.now)
  }

  /** What execution asks for besides the approval. */
  predicate Bookable(cfg: Config, t: Tables, input: CycleInput)
    requires Tradable(t, input)
  {
    && input.market.value.active && input.market.value.key == input.ticker.value.key == input.signal.value.key
    && PriceOf(cfg, input) > 0.0
    && AppliedTo(cfg, t, input).Ok?
  }

  lemma ApplyTwice(
      side: Side, quantity: real, notional: real, fee: real, balance: Balance, position: Position, now: int, later: int)
    requires quantity > 0.0
    ensures var a := Apply(side, quantity, notional, fee, balance, position, now);
            var b := Apply(side, quantity, notional, fee, balance, position, later);
            if a.Err? then b == a
            else
              && b.Ok?
              && b.value == Applied(
                   a.value.balance.(updatedAt := later), a.value.position.(updatedAt := later), a.value.realized)
  {
    hide Worth, AverageOver;
  }

  /** The same order at another time. */
  predicate SameOrder(a: Order, b: Order) {
    && b.fill == a.fill.(id := b.fill.id, executedAt := b.fill.executedAt)
    && b.quoteAsset == a.quoteAsset
    && b.balance.available == a.balance.available
    && b.position == a.position.(updatedAt := b.position.updatedAt)
    && b.snapshot == a.snapshot.(timestamp := b.snapshot.timestamp)
  }

  /** Preparing the same stored intent on the same books gives the same order, event id included. */
  lemma PrepareTwice(
      cfg: Config, a: Tables, b: Tables, intent: Intent, market: Market, ticker: Ticker, idA: nat, idB: nat, now: int,
      later: int)
    requires SameBooks(a, b) && intent.id in b.intents && b.intents[intent.id] == intent
    requires b.risk.Some? && b.risk.value.systemState == Enabled
    requires var p := Prepare(cfg, a, intent, market, ticker, idA, now); p.Ok? && p.value.Ready?
    ensures var p := Prepare(cfg, a, intent, market, ticker, idA, now);
            var q := Prepare(cfg, b, intent, market, ticker, idB, later);
            q.Ok? && q.value.Ready? && SameOrder(p.value.order, q.value.order)
  {
    hide ExecutionPrice, Worth, FeeOf, Apply, FillFor, UnrealizedOf;
    var quantity := intent.decision.approvedSize;
    var notional := Worth(quantity, ExecutionPrice(ticker, intent.side, cfg.slippageBps));
    ApplyTwice(intent.side, quantity, notional, FeeOf(notional, cfg.feeRate), a.balances[market.quoteAsset],
               HeldPosition(a, intent.key), now, later);
  }

  /** The same money: everything but row ids and times. */
  ghost predicate SameMoney(a: Tables, b: Tables) {
    && a.balances.Keys == b.balances.Keys
    && (forall k :: k in a.balances ==> a.balances[k].available == b.balances[k].available)
    && a.positions.Keys == b.positions.Keys
    && (forall k :: k in a.positions ==> b.positions[k] == a.positions[k].(updatedAt := b.positions[k].updatedAt))
    && |a.snapshots| == |b.snapshots|
    && (forall n :: 0 <= n < |a.snapshots| ==> b.snapshots[n] == a.snapshots[n].(timestamp := b.snapshots[n].timestamp))
    && |a.fills| == |b.fills|
    && (forall n :: 0 <= n < |a.fills| ==>
          b.fills[n] == a.fills[n].(id := b.fills[n].id, executedAt := b.fills[n].executedAt))
  }

  lemma SameMoneyPosted(a: Tables, b: Tables, intent: Intent, o: Order, p: Order)
    requires SameBooks(a, b) && SameOrder(o, p)
    ensures SameMoney(Finalized(a, intent, o), Finalized(b, intent, p))
  {}

  lemma SameMoneyFrame(a: Tables, b: Tables, c: Tables, d: Tables)
    requires SameMoney(a, b) && SameLedger(c, a) && SameLedger(d, b)
    ensures SameMoney(c, d)
  {}

  lemma DecidedIsValid(cfg: Config, t: Tables, input: CycleInput)
    ensures Open(cfg, t, input).Decided? ==>
              cfg.mode == PaperMode && Tradable(t, input) && ValidContext(ContextIn(t, input))
  {
    hide ValidContext, EvaluateRisk, CreateOrGet, SpreadBps, EquityOf;
  }

  /** What the first transaction committed is all that a retry needs. */
  lemma CrashedReplays(cfg: Config, t: Tables, input: CycleInput, retry: CycleInput)
    requires LedgerSound(cfg, t) && input.intentId !in t.intents && SameRequest(input, retry) && retry.ticker.Some?
    requires Open(cfg, t, input).Decided?
    ensures var o := Open(cfg, t, input);
            && cfg.mode == PaperMode && Stored(o.tables, retry) && ValidContext(ContextIn(o.tables, retry))
            && StoredIntent(o.tables, retry) == o.intent && o.intent.referencePrice == o.ticker.last
            && o.ticker == input.ticker.value
            && (SameLast(input, retry) ==> CanContinue(cfg, o.tables, retry))
  {
    hide LedgerSound, Open, Permits, ValidContext, SpreadBps, EquityOf, ResetRisk;
    OpenMeans(cfg, t, input);
    DecidedIsValid(cfg, t, input);
    var o := Open(cfg, t, input);
    StoredIntentSound(cfg, o.tables, o.intent.id);
    SameContext(t, o.tables, input, retry);
    SpreadWithin(retry.ticker.value, 0.0);
    ValidAtAnyQuote(ContextIn(t, input), ContextIn(o.tables, retry));
  }

  lemma SameContext(a: Tables, b: Tables, input: CycleInput, retry: CycleInput)
    requires SameBooks(b, a) && Tradable(a, input) && SameRequest(input, retry) && retry.ticker.Some?
    ensures Tradable(b, retry)
    ensures var quote := retry.ticker.value;
            ContextIn(b, retry) ==
            ContextIn(a, input).(referencePrice := quote.last, spreadBps := Some(SpreadBps(quote)),
                                 marketDataAt := Some(quote.timestamp), now := retry.now)
  {
    hide SpreadBps, LatestSnapshot;
  }

  /** Only the account can make a context invalid: a quote is positive and its spread not negative. */
  lemma ValidAtAnyQuote(c: RiskContext, d: RiskContext)
    requires ValidContext(c) && d.referencePrice > 0.0 && d.spreadBps.Some? && d.spreadBps.value >= 0.0
    requires d == c.(referencePrice := d.referencePrice, spreadBps := d.spreadBps, marketDataAt := d.marketDataAt,
                     now := d.now)
    ensures ValidContext(d)
  {}

  /** Booking the same intent on the same books, once with and once without a crash before it. */
  lemma BookTwice(cfg: Config, o: Opening, input: CycleInput, p: Opening, retry: CycleInput)
    requires o.Decided? && p.Decided? && LedgerSound(cfg, o.tables) && LedgerSound(cfg, p.tables)
    requires SameBooks(o.tables, p.tables)
    requires p.intent == o.intent && p.market == o.market && p.ticker == o.ticker
    requires o.intent.id in o.tables.intents && o.tables.intents[o.intent.id] == o.intent
    requires o.intent.id in p.tables.intents && p.tables.intents[o.intent.id] == o.intent
    requires o.tables.risk.Some? && p.tables.risk.Some?
    requires p.tables.risk.value.systemState == o.tables.risk.value.systemState
    requires BookOf(cfg, o, input).Ok? && BookOf(cfg, o, input).value.1.created
    ensures var b := BookOf(cfg, p, retry);
            b.Ok? && b.value.1.created && SameMoney(BookOf(cfg, o, input).value.0, b.value.0)
  {
    hide LedgerSound, Prepare, FillFor, RecordExecution, Apply, SnapshotOf, Worth, FeeOf, Execute, OrderSound,
      Finalized;
    BookMeans(cfg, o.tables, o.intent, o.market, o.ticker, input.fillId, input.now);
    PrepareTwice(cfg, o.tables, p.tables, o.intent, o.market, o.ticker, input.fillId, retry.fillId, input.now,
                 retry.now);
    BookMeans(cfg, p.tables, o.intent, o.market, o.ticker, retry.fillId, retry.now);
    ReadyIsBooked(cfg, p.tables, o.intent, o.market, o.ticker, retry.fillId, retry.now);
    var x := Prepare(cfg, o.tables, o.intent, o.market, o.ticker, input.fillId, input.now).value.order;
    var y := Prepare(cfg, p.tables, o.intent, o.market, o.ticker, retry.fillId, retry.now).value.order;
    SameMoneyPosted(o.tables, p.tables, o.intent, x, y);
    SameMoneyFrame(Finalized(o.tables, o.intent, x), Finalized(p.tables, o.intent, y), BookOf(cfg, o, input).value.0,
                   BookOf(cfg, p, retry).value.0);
  }

  /** What execution prepares for a stored, approved intent is an order exactly when it can be booked. */
  lemma StoredPrepares(cfg: Config, p: Opening, input: CycleInput)
    requires p.Decided? && Tradable(p.tables, input)
    requires p.market == input.market.value && p.ticker == input.ticker.value
    requires p.intent.id in p.tables.intents && p.tables.intents[p.intent.id] == p.intent
    requires FillFor(p.tables.fills, p.intent.id).None? && p.intent.status == Approved && p.intent.decision.approved
    requires p.intent.key == input.signal.value.key && p.intent.side == SideOf(input.signal.value.action)
    requires p.intent.decision.approvedSize == input.quantity
    requires p.tables.risk.Some? && p.tables.risk.value.systemState == Enabled
    ensures var r := Prepare(cfg, p.tables, p.intent, p.market, p.ticker, input.fillId, input.now);
            && (r.Ok? <==> Bookable(cfg, p.tables, input))
            && (r.Ok? ==>
                  && r.value.Ready? && r.value.order.fill.price == PriceOf(cfg, input)
                  && r.value.order.fill.quantity == input.quantity
                  && var o := r.value.order;
                  AppliedTo(cfg, p.tables, input) == Ok(Applied(o.balance, o.position, o.fill.realizedPnl)))
  {
    hide ExecutionPrice, Worth, FeeOf, Apply, SnapshotOf, FillFor;
  }

  /** One fill, at the request's own quote and time, carries out the whole intent; nothing else moves money. */
  ghost predicate BookedInFull(cfg: Config, t: Tables, input: CycleInput, intent: Intent, fill: Fill, after: Tables)
    requires Tradable(t, input)
  {
    var asset, key, applied := input.market.value.quoteAsset, input.signal.value.key, AppliedTo(cfg, t, input);
    && fill.intentId == intent.id && fill.key == key && fill.side == intent.side
    && fill.quantity == intent.quantity == input.quantity
    && fill.price == PriceOf(cfg, input) && fill.executedAt == input.now
    && after.fills == t.fills + [fill]
    && intent.id in after.intents && after.intents[intent.id].status == Filled && Kept(intent, after.intents[intent.id])
    && applied.Ok? && fill.realizedPnl == applied.value.realized
    && after.balances == t.balances[asset := applied.value.balance]
    && after.positions == t.positions[key := applied.value.position]
  }

  /** What the stored intent of a retry has in common with it. */
  lemma StoredIntentFits(cfg: Config, t: Tables, input: CycleInput)
    requires LedgerSound(cfg, t) && Stored(t, input)
    ensures var i := StoredIntent(t, input);
            && i.id in t.intents && t.intents[i.id] == i
            && i.key == input.signal.value.key && i.side == SideOf(input.signal.value.action)
            && i.quantity == input.quantity
            && (i.status == Approved ==>
                  i.decision.approved && i.decision.approvedSize == input.quantity && FillFor(t.fills, i.id).None?)
  {
    hide Worth, Books, FillsMatchIntents;
    var i := StoredIntent(t, input);
    StoredIntentSound(cfg, t, i.id);
    FilledByItsIntent(cfg, t, i.id);
  }

  /** The second transaction of a retry that is permitted. */
  lemma RetryBooks(cfg: Config, t: Tables, p: Opening, retry: CycleInput)
    requires p.Decided? && LedgerSound(cfg, p.tables) && LedgerSound(cfg, t) && SameBooks(p.tables, t)
    requires p.tables.intents == t.intents && p.tables.intentIds == t.intentIds
    requires Stored(t, retry) && p.intent == StoredIntent(t, retry) && p.intent.status == Approved
    requires p.market == retry.market.value && p.ticker == retry.ticker.value
    requires p.tables.risk.Some? && p.tables.risk.value.systemState == Enabled
    ensures var b := BookOf(cfg, p, retry);
            && (b.Ok? <==> Bookable(cfg, t, retry))
            && (b.Ok? ==> b.value.1.created && BookedInFull(cfg, t, retry, p.intent, b.value.1.fill, b.value.0))
  {
    hide LedgerSound, Book, Prepare, RecordExecution, FillFor, Apply, ExecutionPrice, Worth, FeeOf, SnapshotOf, Execute;
    StoredIntentFits(cfg, t, retry);
    SameAppliedTo(cfg, p.tables, t, retry);
    StoredPrepares(cfg, p, retry);
    NotReadyChangesNothing(cfg, p.tables, p.intent, p.market, p.ticker, retry.fillId, retry.now);
    ReadyIsBooked(cfg, p.tables, p.intent, p.market, p.ticker, retry.fillId, retry.now);
    BookMeans(cfg, p.tables, p.intent, p.market, p.ticker, retry.fillId, retry.now);
    ExecutedIsBooked(cfg, p, retry);
  }

  lemma ExecutedIsBooked(cfg: Config, o: Opening, input: CycleInput)
    requires o.Decided?
    ensures var r := Execute(cfg, o.tables, o.intent, o.market, o.ticker, input.fillId, input.now).1;
            && (r.Ok? <==> BookOf(cfg, o, input).Ok?)
            && (r.Ok? ==> BookOf(cfg, o, input).value.1 == r.value)
  {
    hide Execute, RecordExecution;
  }

  lemma SameAppliedTo(cfg: Config, a: Tables, b: Tables, input: CycleInput)
    requires SameBooks(a, b) && Tradable(b, input)
    ensures Tradable(a, input) && AppliedTo(cfg, a, input) == AppliedTo(cfg, b, input)
  {
    hide Apply, Worth, FeeOf, ExecutionPrice;
  }

  /**
    A cycle that dies after its first commit loses nothing: the same request can be sent
    again at any later time. Without a quote or at another last price it is turned away and
    leaves no trace; refused by the rules or by execution it books nothing; in every other
    case the intent that was stored before the crash is booked in full, at the adverse price
    of the fresh quote.
   */
  lemma CrashThenRetry(cfg: Config, t: Tables, input: CycleInput, retry: CycleInput)
    requires LedgerSound(cfg, t) && t.risk.Some? && input.intentId !in t.intents && SameRequest(input, retry)
    requires var o := Open(cfg, t, input); o.Decided? && o.intent.status == Approved
    requires retry.intentId !in Next(cfg, t, Trading(input, 1)).intents
    ensures var o, crashed := Open(cfg, t, input), Next(cfg, t, Trading(input, 1));
            var (again, outcome) := Cycle(cfg, crashed, retry);
            if retry.ticker.None? then again == [] && outcome == QuoteUnavailable
            else if retry.ticker.value.last != o.ticker.last then
              again == [] && outcome == Conflict(IdempotencyConflict)
            else
              && Tradable(crashed, retry)
              && if !MayTrade(cfg, crashed, retry) then outcome.RiskRefused? && NothingBooked(crashed, again)
                 else if !Bookable(cfg, crashed, retry) then outcome.FailedSafely? && NothingBooked(crashed, again)
                 else
                   && outcome.Finished? && outcome.execution.created
                   && BookedInFull(cfg, crashed, retry, o.intent, outcome.execution.fill, LastOf(crashed, again))
  {
    hide LedgerSound, Cycle, Open, Book, MayTrade, Bookable, BookedInFull, NothingBooked, Stored, StoredIntent;
    FirstCommit(cfg, t, input);
    OpenMeans(cfg, t, input);
    OpenEffect(cfg, t, input);
    var o := Open(cfg, t, input);
    if retry.ticker.None? {
      NoQuoteRefuses(cfg, t, input, retry);
    } else {
      CrashedReplays(cfg, t, input, retry);
      RetryConflictsIffPriceMoved(cfg, o.tables, retry);
      if retry.ticker.value.last == o.ticker.last {
        RetryContinues(cfg, o.tables, retry);
      }
    }
  }

  lemma FirstCommit(cfg: Config, t: Tables, input: CycleInput)
    requires Open(cfg, t, input).Decided?
    ensures Next(cfg, t, Trading(input, 1)) == Open(cfg, t, input).tables
  {
    hide Open, Trade;
    var commits := Cycle(cfg, t, input).0;
    assert |commits| > 1 ==> commits[..1] == [commits[0]];
  }

  lemma NoQuoteRefuses(cfg: Config, t: Tables, input: CycleInput, retry: CycleInput)
    requires Open(cfg, t, input).Decided? && SameRequest(input, retry) && retry.ticker.None?
    ensures forall after :: Cycle(cfg, after, retry) == ([], QuoteUnavailable)
  {
    hide OpenTrade;
  }

  /** A retry that continues with a stored, approved intent. */
  lemma RetryContinues(cfg: Config, t: Tables, retry: CycleInput)
    requires LedgerSound(cfg, t) && t.risk.Some? && retry.intentId !in t.intents
    requires CanContinue(cfg, t, retry) && StoredIntent(t, retry).status == Approved
    ensures var (again, outcome) := Cycle(cfg, t, retry);
            if !MayTrade(cfg, t, retry) then outcome.RiskRefused? && NothingBooked(t, again)
            else if !Bookable(cfg, t, retry) then outcome.FailedSafely? && NothingBooked(t, again)
            else
              && outcome.Finished? && outcome.execution.created
              && BookedInFull(cfg, t, retry, StoredIntent(t, retry), outcome.execution.fill, LastOf(t, again))
  {
    hide LedgerSound, Cycle, Open, Book, Reconcile, ContextIn, ValidContext, ResetForDay, Bookable, BookedInFull,
      StoredIntent;
    CycleStages(cfg, t, retry);
    RetryConflictsIffPriceMoved(cfg, t, retry);
    OpenMeans(cfg, t, retry);
    var p := Open(cfg, t, retry);
    if p.decision.approved {
      PermitsNeedsEnabled(cfg, retry.quantity, ContextIn(t, retry), p.tables.risk.value);
      hide Permits;
      RetryBooks(cfg, t, p, retry);
      var b := BookOf(cfg, p, retry);
      if b.Ok? {
        ReconcileFrame(cfg, b.value.0, retry.correlationId, retry.now);
        BookedFrame(cfg, t, retry, p.intent, b.value.1.fill, b.value.0,
                    Reconcile(cfg, b.value.0, retry.correlationId, retry.now).0);
      }
    }
  }

  lemma PermitsNeedsEnabled(cfg: Config, size: real, c: RiskContext, s: RiskState)
    requires Permits(cfg, size, c, s)
    ensures s.systemState == Enabled
  {}

  lemma BookedFrame(
      cfg: Config, t: Tables, input: CycleInput, intent: Intent, fill: Fill, a: Tables, b: Tables)
    requires Tradable(t, input) && BookedInFull(cfg, t, input, intent, fill, a) && SameLedger(b, a)
    ensures BookedInFull(cfg, t, input, intent, fill, b)
  {
    hide AppliedTo, PriceOf;
  }

  /** The same retry at the same quote leaves exactly the money that the uninterrupted cycle would have left. */
  lemma CrashLosesNothing(cfg: Config, t: Tables, input: CycleInput, retry: CycleInput)
    requires LedgerSound(cfg, t) && t.risk.Some? && input.intentId !in t.intents && SameRequest(input, retry)
    requires retry.ticker == input.ticker
    requires var outcome := Cycle(cfg, t, input).1; outcome.Finished? && outcome.execution.created
    requires retry.intentId !in Next(cfg, t, Trading(input, 1)).intents
    ensures var crashed := Next(cfg, t, Trading(input, 1));
            var (again, outcome) := Cycle(cfg, crashed, retry);
            && Tradable(crashed, retry)
            && if MayTrade(cfg, crashed, retry) then
                 outcome.Finished? && outcome.execution.created &&
                 SameMoney(Next(cfg, t, Trading(input, 3)), LastOf(crashed, again))
               else
                 outcome.RiskRefused? && NothingBooked(crashed, again)
  {
    hide LedgerSound, Cycle, Open, Book, Reconcile, Permits, ContextIn, ValidContext, ResetForDay, SameMoney,
      SpreadBps, EquityOf;
    CycleStages(cfg, t, input);
    OpenMeans(cfg, t, input);
    var o := Open(cfg, t, input);
    CrashedReplays(cfg, t, input, retry);
    OpenMeans(cfg, o.tables, retry);
    RetryConflictsIffPriceMoved(cfg, o.tables, retry);
    CycleStages(cfg, o.tables, retry);
    OpenEffect(cfg, t, input);
    OpenEffect(cfg, o.tables, retry);
    var p := Open(cfg, o.tables, retry);
    if p.decision.approved {
      BookTwice(cfg, o, input, p, retry);
      var x, y := BookOf(cfg, o, input).value.0, BookOf(cfg, p, retry).value.0;
      ReconcileFrame(cfg, x, input.correlationId, input.now);
      ReconcileFrame(cfg, y, retry.correlationId, retry.now);
      SameMoneyFrame(x, y, Reconcile(cfg, x, input.correlationId, input.now).0,
                     Reconcile(cfg, y, retry.correlationId, retry.now).0);
    }
  }

  // ---------- retrying what was filled ----------

  lemma BookedIsFilled(cfg: Config, o: Opening, input: CycleInput)
    requires o.Decided? && LedgerSound(cfg, o.tables)
    requires o.intent.id in o.tables.intents && o.tables.intents[o.intent.id] == o.intent
    ensures var b := BookOf(cfg, o, input);
            b.Ok? ==>
              && b.value.0.intentIds == o.tables.intentIds && o.intent.id in b.value.0.intents
              && b.value.0.intents[o.intent.id].status == Filled && Kept(o.intent, b.value.0.intents[o.intent.id])
  {
    hide LedgerSound, Book, Prepare, FillFor, RecordExecution, Apply, SnapshotOf, Worth, FeeOf;
    BookMeans(cfg, o.tables, o.intent, o.market, o.ticker, input.fillId, input.now);
    FilledByItsIntent(cfg, o.tables, o.intent.id);
  }

  lemma SameAsset(cfg: Config, a: Tables, b: Tables, asset: string)
    requires LedgerSound(cfg, a) && LedgerSound(cfg, b) && asset in a.balances
    ensures asset in b.balances
  {
    assert asset in a.balances.Keys;
    assert b.balances.Keys == a.balances.Keys;
  }

  /** A request whose cycle finished can be sent again: it meets its own intent, FILLED. */
  lemma FinishedCanBeRetried(cfg: Config, t: Tables, input: CycleInput, retry: CycleInput)
    requires LedgerSound(cfg, t) && input.intentId !in t.intents && SameRequest(input, retry)
    requires Cycle(cfg, t, input).1.Finished? && SameLast(input, retry)
    ensures var after := Next(cfg, t, Trading(input, 3));
            Stored(after, retry) && StoredIntent(after, retry).status == Filled &&
            (ValidContext(ContextIn(after, retry)) ==> CanContinue(cfg, after, retry))
  {
    hide LedgerSound, Cycle, Open, Book, Reconcile, Permits, ContextIn, ValidContext, SameBooks, ResetRisk, OpeningKind;
    CycleStages(cfg, t, input);
    OpenMeans(cfg, t, input);
    CycleSound(cfg, t, input);
    CrashedReplays(cfg, t, input, retry);
    var o, after := Open(cfg, t, input), Next(cfg, t, Trading(input, 3));
    BookedIsFilled(cfg, o, input);
    SameAsset(cfg, t, after, input.market.value.quoteAsset);
    ReconcileFrame(cfg, BookOf(cfg, o, input).value.0, input.correlationId, input.now);
    CrashedIndex(cfg, o.tables, retry, o.intent);
  }

  lemma CrashedIndex(cfg: Config, t: Tables, retry: CycleInput, intent: Intent)
    requires LedgerSound(cfg, t) && Stored(t, retry) && StoredIntent(t, retry) == intent
    ensures t.intentIds[ClientOrderIdOf(retry, retry.signal.value)] == intent.id
  {}
}
