/** A retry that is refused although its fill is committed: the documented answer, concretely missed. */
module RefusedRetry {
  import opened ClockSkew
  import opened CycleSteps
  import opened Idempotency
  import opened LedgerInvariant
  import opened PaperDomain
  import opened PaperExecution
  import opened PaperRepositories
  import opened RiskEngine
  import opened TradingCycle
  import opened TradingRuns
  import opened Wrappers

  /** The purchase, sent again one second later. */
  const RETRY: CycleInput := PURCHASE.(intentId := 2, fillId := 2, now := 21 * SECOND)

  /** Twice the unit at 10 is more than a tenth of an equity of at most 110. */
  lemma TwoUnitsAreTooMuch(c: RiskContext, s: RiskState)
    requires c.side == Buy && c.positionQuantity == 1.0 && c.referencePrice == 10.0 && c.portfolioEquity <= 110.0
    ensures !Permits(CONFIG, 1.0, c, s)
  {}

  lemma RetryContext(t: Tables)
    requires Tradable(t, RETRY) && HeldPosition(t, KEY).quantity == 1.0
    requires 0.0 <= t.balances["USDT"].available <= 100.0
    requires EquityOf(t, t.balances["USDT"]) == t.balances["USDT"].available + 10.0
    ensures ValidContext(ContextIn(t, RETRY)) && !MayTrade(CONFIG, t, RETRY)
  {
    FlatQuote(BuySignal, 1, 20);
    hide EquityOf, SpreadBps, Permits, ResetForDay;
    var c := ContextIn(t, RETRY);
    if t.risk.Some? {
      TwoUnitsAreTooMuch(c, ResetForDay(t.risk.value, Day(RETRY.now), c.portfolioEquity, RETRY.now));
    }
  }

  /**
    The same request again, one second after its fill was committed: the projected position
    of two units exceeds the limit that one unit just met, so the answer is a refusal and
    not the fill that exists.
   */
  lemma RetryIsRefused()
    ensures SameRequest(PURCHASE, RETRY) && RETRY.ticker == PURCHASE.ticker && Fresh(AfterPurchase(), Trading(RETRY, 3))
    ensures var t, outcome := AfterPurchase(), Cycle(CONFIG, AfterPurchase(), RETRY).1;
            && AfterPurchase() == Run(CONFIG, START, [Trading(PURCHASE, 3)])
            && Stored(t, RETRY) && FillFor(t.fills, StoredIntent(t, RETRY).id).Some?
            && outcome.RiskRefused? && !HandsOut(t, RETRY, outcome)
  {
    hide LedgerSound, Cycle, Next, EquityOf, Opened, FillFor, Fillable, MayTrade, ValidContext, Stored, Calm,
      OnePurchase;
    Purchased();
    StartIsFillable();
    PurchaseFinishes();
    var t := AfterPurchase();
    assert 2 !in t.intents.Keys;
    FinishedCanBeRetried(CONFIG, START, PURCHASE, RETRY);
    StoredIsTradable(t, RETRY);
    RetryContext(t);
    RetryAfterFill(CONFIG, t, RETRY);
    StoredIntentHere(CONFIG, t, RETRY);
    FilledByItsIntent(CONFIG, t, StoredIntent(t, RETRY).id);
    OneStep(CONFIG, START, Trading(PURCHASE, 3));
  }

  lemma OneStep(cfg: Config, t: Tables, step: Step)
    ensures Run(cfg, t, [step]) == Next(cfg, t, step)
  {
    hide Next;
    assert [step][1..] == [];
    assert Run(cfg, Next(cfg, t, step), []) == Next(cfg, t, step);
  }

  lemma PurchaseFinishes()
    ensures Cycle(CONFIG, START, PURCHASE).1.Finished? && PURCHASE.intentId !in START.intents
  {
    StartIsFillable();
    hide LedgerSound, Cycle, Opened;
    FillableIsFilled(CONFIG, START, PURCHASE);
  }

  lemma StoredIsTradable(t: Tables, input: CycleInput)
    requires Stored(t, input)
    ensures Tradable(t, input)
  {}
}
