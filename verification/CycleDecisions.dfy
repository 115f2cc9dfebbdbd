/**
  How a cycle opens, told by the request, the quote and the rows: every refusal, the approval
  and the stored intent.
 */
module CycleDecisions {
  import opened CycleSteps
  import opened Idempotency
  import opened LedgerInvariant
  import opened LedgerSteps
  import opened PaperDomain
  import opened PaperExecution
  import opened PaperLedger
  import opened PaperRepositories
  import opened RiskEngine
  import opened TradingCycle
  import opened Wrappers

  /** The equity that counts: that of the latest snapshot, or the cash before the first one. */
  ghost predicate EquityNow(t: Tables, cash: real, equity: real) {
    if |t.snapshots| == 0 then equity == cash
    else
      exists n :: 0 <= n < |t.snapshots| && equity == t.snapshots[n].totalEquity &&
        (forall m :: 0 <= m < |t.snapshots| ==> t.snapshots[m].timestamp <= t.snapshots[n].timestamp) &&
        (forall m :: n < m < |t.snapshots| ==> t.snapshots[m].timestamp < t.snapshots[n].timestamp)
  }

  /** The limits that a purchase or a sale of `size` has to keep, on a risk row of today. */
  predicate WithinAllLimits(
      cfg: Config, s: RiskState, side: Side, size: real, cash: real, held: real, equity: real, ticker: Ticker, now: int)
  {
    && s.systemState == Enabled
    && (side == Buy ==>
          && (held + size) * ticker.last <= equity * cfg.maxPositionPct && size * ticker.last <= cash
          && (held > 0.0 || s.openPositions < cfg.maxOpenPositions))
    && (side == Sell ==> size <= held && (held - size) * ticker.last <= equity * cfg.maxPositionPct)
    && 0.0 < s.startingEquity * cfg.maxDailyLossPct && -s.realizedPnl < s.startingEquity * cfg.maxDailyLossPct
    && (ticker.ask - ticker.bid) * 20000.0 <= cfg.maxSpreadBps * (ticker.ask + ticker.bid)
    && ticker.timestamp <= now <= ticker.timestamp + cfg.staleSeconds * 1_000_000
    && (s.cooldownUntil.None? || s.cooldownUntil.value <= now)
  }

  /** The row of today: as it was, or started over with this equity when the UTC day has changed. */
  predicate RowOfToday(s: RiskState, equity: real, now: int, r: RiskState) {
    if s.tradingDay * 86_400_000_000 <= now < (s.tradingDay + 1) * 86_400_000_000 then r == s
    else
      && r.tradingDay * 86_400_000_000 <= now < (r.tradingDay + 1) * 86_400_000_000
      && r.startingEquity == equity && r.peakEquity == equity && r.updatedAt == now
      && r.realizedPnl == 0.0 && r.drawdown == 0.0 && r.cooldownUntil == None
      && r.openPositions == s.openPositions && r.systemState == s.systemState
  }

  predicate IsSide(action: SignalAction, side: Side) {
    (action == BuySignal && side == Buy) || (action == SellSignal && side == Sell)
  }

  /** The equity of a cycle's context is the one that counts. */
  lemma EquityMeans(t: Tables, input: CycleInput)
    requires Tradable(t, input)
    ensures EquityNow(t, t.balances[input.market.value.quoteAsset].available, ContextIn(t, input).portfolioEquity)
  {
    hide SpreadBps, LatestSnapshot;
    if |t.snapshots| > 0 {
      var n := LatestIsGreatest(t.snapshots);
    } else {
      NoSnapshot();
    }
  }

  lemma NoSnapshot()
    ensures LatestSnapshot([]) == None
  {}

  lemma PermitsMeans(cfg: Config, t: Tables, input: CycleInput, s: RiskState)
    requires LedgerSound(cfg, t) && Tradable(t, input)
    ensures var signal, ticker := input.signal.value, input.ticker.value;
            var side := SideOf(signal.action);
            IsSide(signal.action, side) &&
            (Permits(cfg, input.quantity, ContextIn(t, input), s) <==>
             WithinAllLimits(cfg, s, side, input.quantity, t.balances[input.market.value.quoteAsset].available,
                             HeldPosition(t, signal.key).quantity, ContextIn(t, input).portfolioEquity, ticker,
                             input.now))
  {
    hide LedgerSound, Permits, SpreadBps, EquityOf, HeldPosition, Decide;
    var c := ContextIn(t, input);
    NothingNegative(cfg, t, input.market.value.quoteAsset, input.signal.value.key);
    SpreadWithin(input.ticker.value, cfg.maxSpreadBps);
    DecidePermits(cfg, input.quantity, c, s);
    DecideMeans(cfg, input.quantity, c, s);
  }

  /**
    When a cycle that has all it needs opens, the risk row is that of today, the trade is
    approved exactly within all limits on that row, and the log says which.
   */
  lemma ApprovalMeans(cfg: Config, t: Tables, input: CycleInput)
    requires LedgerSound(cfg, t) && input.intentId !in t.intents && Open(cfg, t, input).Decided?
    ensures Tradable(t, input)
    ensures var o, signal, asset := Open(cfg, t, input), input.signal.value, input.market.value.quoteAsset;
            var equity, side := ContextIn(t, input).portfolioEquity, SideOf(signal.action);
            && EquityNow(t, t.balances[asset].available, equity) && IsSide(signal.action, side)
            && (t.risk.Some? <==> o.tables.risk.Some?)
            && (t.risk.Some? ==> RowOfToday(t.risk.value, equity, input.now, o.tables.risk.value))
            && (o.decision.approved <==>
                  t.risk.Some? &&
                  WithinAllLimits(cfg, o.tables.risk.value, side, input.quantity, t.balances[asset].available,
                                  HeldPosition(t, signal.key).quantity, equity, input.ticker.value, input.now))
            && o.tables.events == t.events +
               [Event(if o.decision.approved then EventKind.RiskApproved(o.intent.clientOrderId)
                      else EventKind.RiskRejected(o.intent.clientOrderId), input.correlationId, input.now)]
  {
    hide LedgerSound, Open, Permits, ContextIn, SameBooks, WithinAllLimits, ResetForDay, EquityNow;
    OpenMeans(cfg, t, input);
    EquityMeans(t, input);
    var o := Open(cfg, t, input);
    if t.risk.Some? {
      PermitsMeans(cfg, t, input, o.tables.risk.value);
      ContextTime(t, input);
      ResetMeans(t.risk.value, ContextIn(t, input).portfolioEquity, input.now);
    }
    SideMeans(input.signal.value.action);
  }

  lemma SideMeans(action: SignalAction)
    requires action != HoldSignal
    ensures IsSide(action, SideOf(action))
  {}

  lemma ContextTime(t: Tables, input: CycleInput)
    requires Tradable(t, input)
    ensures ContextIn(t, input).now == input.now
  {
    hide SpreadBps, EquityOf;
  }

  /** A first request stores its own intent, with the decision just made; a repeated one stores nothing. */
  lemma IntentMeans(cfg: Config, t: Tables, input: CycleInput)
    requires LedgerSound(cfg, t) && input.intentId !in t.intents && Open(cfg, t, input).Decided?
    ensures Tradable(t, input)
    ensures var o, signal, last := Open(cfg, t, input), input.signal.value, input.ticker.value.last;
            var clientId := ClientOrderId(
              input.signalId, signal.key, if signal.action == BuySignal then Buy else Sell, input.quantity,
              signal.strategy, signal.version);
            if clientId in t.intentIds then
              o.tables.intents == t.intents && o.tables.intentIds == t.intentIds &&
              o.intent == t.intents[t.intentIds[clientId]]
            else
              && o.tables.intents == t.intents[input.intentId := o.intent]
              && o.tables.intentIds == t.intentIds[clientId := input.intentId]
              && o.intent == Intent(
                   input.intentId, clientId, input.signalId, signal.key,
                   if signal.action == BuySignal then Buy else Sell, input.quantity, input.quantity * last, last,
                   signal.strategy, signal.version, o.decision, if o.decision.approved then Approved else Rejected,
                   input.correlationId, input.now, input.now)
  {
    NeedsBalance(cfg, t, input);
    IndexMeans(cfg, t);
    hide LedgerSound, Permits, ContextFor, EvaluateRisk;
    var signal, market, ticker := input.signal.value, input.market.value, input.ticker.value;
    OpenTradeShape(cfg, t, input, signal, market, ticker);
    EvaluateRiskMeans(cfg, t, input.quantity, ContextOf(t, input, signal, market, ticker));
    hide OpenTrade;
  }

  lemma IndexMeans(cfg: Config, t: Tables)
    requires LedgerSound(cfg, t)
    ensures forall c :: c in t.intentIds ==> t.intentIds[c] in t.intents
  {}

  /** Another stored intent with the same client order id has another reference price. */
  ghost predicate PriceMoved(t: Tables, input: CycleInput, last: real)
    requires input.signal.Some?
  {
    exists id :: id in t.intents &&
      var i, signal := t.intents[id], input.signal.value;
      && i.signalId == input.signalId && i.key == signal.key && IsSide(signal.action, i.side)
      && i.quantity == input.quantity && i.strategy == signal.strategy && i.version == signal.version
      && i.referencePrice != last
  }

  lemma MovedMeans(cfg: Config, t: Tables, input: CycleInput)
    requires LedgerSound(cfg, t) && Tradable(t, input)
    ensures PriceMoved(t, input, input.ticker.value.last) <==>
            Stored(t, input) && StoredIntent(t, input).referencePrice != input.ticker.value.last
  {
    hide Worth, Books, FillsMatchIntents;
    if Stored(t, input) {
      StoredIntentSound(cfg, t, StoredIntent(t, input).id);
    }
    forall id | id in t.intents ensures IntentSound(t.intents[id]) {}
  }

  /**
    The answer to every request, in the order in which the code looks: the mode, the signal,
    the market, the quote, the account, the equity, and an earlier intent at another price.
    Whatever passes is decided.
   */
  lemma OpenAnswers(cfg: Config, t: Tables, input: CycleInput)
    requires LedgerSound(cfg, t)
    ensures var o := Open(cfg, t, input);
            if cfg.mode != PaperMode then o == Refused(NotPaper)
            else if input.signal.None? then o == Refused(SignalMissing)
            else if input.signal.value.action == HoldSignal then
              o == Holding(t.(events := t.events + [Event(CycleHold(input.signal.value.key), input.correlationId,
                                                          input.now)]))
            else if input.market.None? then o == Refused(MarketMissing)
            else if input.ticker.None? then o == Refused(QuoteUnavailable)
            else if input.market.value.quoteAsset !in t.balances then o == Refused(AccountMissing)
            else if ContextIn(t, input).portfolioEquity <= 0.0 then o == Refused(ContextInvalid)
            else if PriceMoved(t, input, input.ticker.value.last) then o == Refused(Conflict(IdempotencyConflict))
            else o.Decided? && o.market == input.market.value && o.ticker == input.ticker.value
  {
    hide LedgerSound, Permits, EvaluateRisk, EquityOf, SpreadBps, ValidContext, PriceMoved, StoredIntent;
    if cfg.mode == PaperMode && Tradable(t, input) {
      ValidIffEquity(cfg, t, input);
      if ValidContext(ContextIn(t, input)) {
        MovedMeans(cfg, t, input);
        DecidedUnlessMoved(cfg, t, input);
      }
    }
    hide CreateOrGet, IntentOf;
  }

  lemma DecidedUnlessMoved(cfg: Config, t: Tables, input: CycleInput)
    requires LedgerSound(cfg, t) && cfg.mode == PaperMode && Tradable(t, input) && ValidContext(ContextIn(t, input))
    ensures var o := Open(cfg, t, input);
            if Stored(t, input) && StoredIntent(t, input).referencePrice != input.ticker.value.last then
              o == Refused(Conflict(IdempotencyConflict))
            else o.Decided? && o.market == input.market.value && o.ticker == input.ticker.value
  {
    IndexMeans(cfg, t);
    hide LedgerSound, Permits, EvaluateRisk, EquityOf, SpreadBps, ValidContext, StoredIntent;
    if Stored(t, input) {
      RetryConflictsIffPriceMoved(cfg, t, input);
      CycleStages(cfg, t, input);
    }
  }
}
