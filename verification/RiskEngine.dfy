/** The risk rules, the engine that collects their reasons, and the risk state (risk/engine.py). */
module RiskEngine {
  import opened PaperDomain
  import opened Wrappers

  /** A rule passes, refuses with a reason, or raises. */
  datatype Verdict = Pass | Refuse(reason: string) | Raise

  datatype Rule = Rule(name: string, check: (real, RiskContext, RiskState) -> Verdict)

  /** A share of an amount. */
  function Share(amount: real, pct: real): real {
    amount * pct
  }

  function StateName(s: SystemState): string {
    match s
    case Enabled => "enabled"
    case Paused => "paused"
    case Killed => "killed"
  }

  function CheckSystemState(size: real, c: RiskContext, s: RiskState): Verdict {
    if s.systemState != Enabled then Refuse("system_" + StateName(s.systemState)) else Pass
  }

  function CheckMaxPosition(maxPct: real, size: real, c: RiskContext, s: RiskState): Verdict {
    var projected := c.positionQuantity + if c.side == Buy then size else -size;
    if projected < 0.0 then Refuse("insufficient_position")
    else if Worth(projected, c.referencePrice) > Share(c.portfolioEquity, maxPct) then Refuse("max_position_exceeded")
    else Pass
  }

  function Loss(s: RiskState): real {
    if -s.realizedPnl > 0.0 then -s.realizedPnl else 0.0
  }

  function CheckDailyLoss(maxPct: real, size: real, c: RiskContext, s: RiskState): Verdict {
    if Loss(s) >= Share(s.startingEquity, maxPct) then Refuse("max_daily_loss_reached") else Pass
  }

  function CheckOpenPositions(maximum: int, size: real, c: RiskContext, s: RiskState): Verdict {
    var opening := c.side == Buy && c.positionQuantity == 0.0;
    if opening && s.openPositions >= maximum then Refuse("max_open_positions_reached") else Pass
  }

  function CheckSpread(maxBps: real, size: real, c: RiskContext, s: RiskState): Verdict {
    match c.spreadBps
    case None => Refuse("spread_unavailable")
    case Some(bps) => if bps > maxBps then Refuse("spread_too_wide") else Pass
  }

  function CheckStaleData(maxSeconds: int, size: real, c: RiskContext, s: RiskState): Verdict {
    match c.marketDataAt
    case None => Refuse("market_data_unavailable")
    case Some(at) => if c.now < at || c.now - at > maxSeconds * SECOND then Refuse("market_data_stale") else Pass
  }

  function CheckCooldown(size: real, c: RiskContext, s: RiskState): Verdict {
    if s.cooldownUntil.Some? && c.now < s.cooldownUntil.value then Refuse("loss_cooldown_active") else Pass
  }

  function CheckBalance(size: real, c: RiskContext, s: RiskState): Verdict {
    if c.side == Buy then
      if Worth(size, c.referencePrice) > c.availableQuote then Refuse("insufficient_quote_balance") else Pass
    else if size > c.availableBase then Refuse("insufficient_base_balance")
    else Pass
  }

  function DefaultRules(cfg: Config): seq<Rule> {
    [ Rule("system_state", CheckSystemState),
      Rule("max_position", (size, c, s) => CheckMaxPosition(cfg.maxPositionPct, size, c, s)),
      Rule("max_daily_loss", (size, c, s) => CheckDailyLoss(cfg.maxDailyLossPct, size, c, s)),
      Rule("max_open_positions", (size, c, s) => CheckOpenPositions(cfg.maxOpenPositions, size, c, s)),
      Rule("spread", (size, c, s) => CheckSpread(cfg.maxSpreadBps, size, c, s)),
      Rule("stale_market_data", (size, c, s) => CheckStaleData(cfg.staleSeconds, size, c, s)),
      Rule("cooldown", CheckCooldown),
      Rule("available_balance", CheckBalance) ]
  }

  /** The reason a rule contributes: its own, or that its evaluation failed. */
  function ReasonsOf(rule: Rule, size: real, c: RiskContext, s: RiskState): seq<string> {
    match rule.check(size, c, s)
    case Pass => []
    case Refuse(reason) => [reason]
    case Raise => [rule.name + "_evaluation_failed"]
  }

  function Reasons(rules: seq<Rule>, size: real, c: RiskContext, s: RiskState): seq<string> {
    if |rules| == 0 then []
    else Reasons(rules[..|rules| - 1], size, c, s) + ReasonsOf(rules[|rules| - 1], size, c, s)
  }

  function DecisionFor(reasons: seq<string>, size: Quantity): RiskDecision {
    DecisionRecord(reasons == [], reasons, size, if reasons == [] then size else 0.0)
  }

  /** Every rule is asked, in order, and a rule that raises counts as a refusal. */
  method Evaluate(rules: seq<Rule>, size: Quantity, c: RiskContext, s: RiskState) returns (d: RiskDecision)
    ensures d == DecisionFor(Reasons(rules, size, c, s), size)
    ensures d.approved <==> forall i :: 0 <= i < |rules| ==> rules[i].check(size, c, s) == Pass
  {
    var reasons: seq<string> := [];
    var i := 0;
    while i < |rules|
      invariant 0 <= i <= |rules|
      invariant reasons == Reasons(rules[..i], size, c, s)
    {
      assert rules[..i + 1][..i] == rules[..i];
      match rules[i].check(size, c, s) {
        case Pass =>
        case Refuse(reason) => reasons := reasons + [reason];
        case Raise => reasons := reasons + [rules[i].name + "_evaluation_failed"];
      }
      i := i + 1;
    }
    assert rules[..|rules|] == rules;
    ApprovedIffAllPass(rules, size, c, s);
    d := DecisionFor(reasons, size);
  }

  /** Fail closed: one refusal or one exception anywhere is enough to reject. */
  lemma {:induction false} ApprovedIffAllPass(rules: seq<Rule>, size: real, c: RiskContext, s: RiskState)
    ensures Reasons(rules, size, c, s) == [] <==> forall i :: 0 <= i < |rules| ==> rules[i].check(size, c, s) == Pass
  {
    if |rules| > 0 {
      var init := rules[..|rules| - 1];
      ApprovedIffAllPass(init, size, c, s);
      assert forall i :: 0 <= i < |init| ==> rules[i] == init[i];
      assert forall i :: 0 <= i < |rules| ==> i < |init| || rules[i] == rules[|rules| - 1];
    }
  }

  /** A refusal is reported with its reason, a rule that raises by its name, in the order of the rules. */
  lemma {:induction false} EveryRuleReports(rules: seq<Rule>, size: real, c: RiskContext, s: RiskState, i: nat)
    requires i < |rules|
    ensures rules[i].check(size, c, s).Refuse? ==> rules[i].check(size, c, s).reason in Reasons(rules, size, c, s)
    ensures rules[i].check(size, c, s).Raise? ==> rules[i].name + "_evaluation_failed" in Reasons(rules, size, c, s)
    ensures |Reasons(rules, size, c, s)| <= |rules|
  {
    var init := rules[..|rules| - 1];
    if i < |init| {
      EveryRuleReports(init, size, c, s, i);
    } else if |init| > 0 {
      EveryRuleReports(init, size, c, s, 0);
    }
  }

  /** What the eight default rules demand together. */
  predicate Permits(cfg: Config, size: real, c: RiskContext, s: RiskState) {
    var projected := c.positionQuantity + if c.side == Buy then size else -size;
    && s.systemState == Enabled
    && projected >= 0.0
    && Worth(projected, c.referencePrice) <= Share(c.portfolioEquity, cfg.maxPositionPct)
    && Loss(s) < Share(s.startingEquity, cfg.maxDailyLossPct)
    && !(c.side == Buy && c.positionQuantity == 0.0 && s.openPositions >= cfg.maxOpenPositions)
    && c.spreadBps.Some? && c.spreadBps.value <= cfg.maxSpreadBps
    && c.marketDataAt.Some? && 0 <= c.now - c.marketDataAt.value <= cfg.staleSeconds * SECOND
    && (s.cooldownUntil.Some? ==> c.now >= s.cooldownUntil.value)
    && (c.side == Buy ==> Worth(size, c.referencePrice) <= c.availableQuote)
    && (c.side == Sell ==> size <= c.availableBase)
  }

  function Decide(cfg: Config, size: Quantity, c: RiskContext, s: RiskState): RiskDecision {
    DecisionFor(Reasons(DefaultRules(cfg), size, c, s), size)
  }

  /** Every rule is one of the limits. */
  lemma DecidePermits(cfg: Config, size: Quantity, c: RiskContext, s: RiskState)
    ensures var d := Decide(cfg, size, c, s);
            && (d.approved <==> Permits(cfg, size, c, s))
            && d.requestedSize == size
            && d.approvedSize == (if d.approved then size else 0.0)
            && (d.approved <==> d.reasons == [])
  {
    hide Worth, Share, Loss, Reasons;
    var rules := DefaultRules(cfg);
    ApprovedIffAllPass(rules, size, c, s);
    assert (forall i :: 0 <= i < |rules| ==> rules[i].check(size, c, s) == Pass) <==>
           (&& rules[0].check(size, c, s) == Pass && rules[1].check(size, c, s) == Pass
            && rules[2].check(size, c, s) == Pass && rules[3].check(size, c, s) == Pass
            && rules[4].check(size, c, s) == Pass && rules[5].check(size, c, s) == Pass
            && rules[6].check(size, c, s) == Pass && rules[7].check(size, c, s) == Pass);
  }

  /**
    The default engine approves, and then in full, exactly when the system is enabled, the
    position after the trade is worth no more than its share of the equity, the day has a loss
    limit and has not reached it, no further market is opened beyond the maximum, the spread is
    known and narrow, the quote is known, not from the future and fresh, no cooldown is running,
    and what is to be spent or sold is there.
   */
  lemma DecideMeans(cfg: Config, size: Quantity, c: RiskContext, s: RiskState)
    ensures var d := Decide(cfg, size, c, s);
            && d.requestedSize == size
            && d.approvedSize == (if d.approved then size else 0.0)
            && (d.approved <==> d.reasons == [])
            && (d.approved <==>
                  && s.systemState == Enabled
                  && (c.side == Buy ==>
                        && 0.0 <= c.positionQuantity + size
                        && (c.positionQuantity + size) * c.referencePrice <= c.portfolioEquity * cfg.maxPositionPct
                        && size * c.referencePrice <= c.availableQuote
                        && (c.positionQuantity != 0.0 || s.openPositions < cfg.maxOpenPositions))
                  && (c.side == Sell ==>
                        && size <= c.positionQuantity
                        && (c.positionQuantity - size) * c.referencePrice <= c.portfolioEquity * cfg.maxPositionPct
                        && size <= c.availableBase)
                  && s.startingEquity * cfg.maxDailyLossPct > 0.0
                  && -s.realizedPnl < s.startingEquity * cfg.maxDailyLossPct
                  && c.spreadBps.Some? && c.spreadBps.value <= cfg.maxSpreadBps
                  && c.marketDataAt.Some? && c.marketDataAt.value <= c.now
                  && c.now <= c.marketDataAt.value + cfg.staleSeconds * 1_000_000
                  && (s.cooldownUntil.None? || s.cooldownUntil.value <= c.now))
  {
    hide Decide;
    DecidePermits(cfg, size, c, s);
  }

  function Said(condition: bool, reason: string): seq<string> {
    if condition then [reason] else []
  }

  lemma EightReasons(rules: seq<Rule>, size: real, c: RiskContext, s: RiskState)
    requires |rules| == 8
    ensures Reasons(rules, size, c, s) ==
            ReasonsOf(rules[0], size, c, s) + ReasonsOf(rules[1], size, c, s) + ReasonsOf(rules[2], size, c, s)
            + ReasonsOf(rules[3], size, c, s) + ReasonsOf(rules[4], size, c, s) + ReasonsOf(rules[5], size, c, s)
            + ReasonsOf(rules[6], size, c, s) + ReasonsOf(rules[7], size, c, s)
  {
    hide ReasonsOf;
    forall n | 0 <= n < 8
      ensures Reasons(rules[..n + 1], size, c, s) == Reasons(rules[..n], size, c, s) + ReasonsOf(rules[n], size, c, s)
    {
      assert rules[..n + 1][..n] == rules[..n];
    }
    assert rules[..8] == rules;
    assert Reasons(rules[..0], size, c, s) == [];
  }

  lemma StateReasons(size: real, c: RiskContext, s: RiskState)
    ensures ReasonsOf(Rule("system_state", CheckSystemState), size, c, s) ==
            Said(s.systemState == Paused, "system_paused") + Said(s.systemState == Killed, "system_killed")
  {
    assert "system_" + "paused" == "system_paused" && "system_" + "killed" == "system_killed";
  }

  lemma LimitReasons(cfg: Config, size: real, c: RiskContext, s: RiskState)
    ensures var rules := DefaultRules(cfg);
            var after := if c.side == Buy then c.positionQuantity + size else c.positionQuantity - size;
            var limit := s.startingEquity * cfg.maxDailyLossPct;
            && ReasonsOf(rules[1], size, c, s) ==
               Said(after < 0.0, "insufficient_position")
               + Said(after >= 0.0 && after * c.referencePrice > c.portfolioEquity * cfg.maxPositionPct,
                      "max_position_exceeded")
            && ReasonsOf(rules[2], size, c, s) ==
               Said(limit <= 0.0 || -s.realizedPnl >= limit, "max_daily_loss_reached")
            && ReasonsOf(rules[3], size, c, s) ==
               Said(c.side == Buy && c.positionQuantity == 0.0 && s.openPositions >= cfg.maxOpenPositions,
                    "max_open_positions_reached")
  {}

  lemma MarketReasons(cfg: Config, size: real, c: RiskContext, s: RiskState)
    ensures var rules := DefaultRules(cfg);
            && ReasonsOf(rules[4], size, c, s) ==
               Said(c.spreadBps.None?, "spread_unavailable")
               + Said(c.spreadBps.Some? && c.spreadBps.value > cfg.maxSpreadBps, "spread_too_wide")
            && ReasonsOf(rules[5], size, c, s) ==
               Said(c.marketDataAt.None?, "market_data_unavailable")
               + Said(c.marketDataAt.Some? &&
                      !(c.marketDataAt.value <= c.now <= c.marketDataAt.value + cfg.staleSeconds * 1_000_000),
                      "market_data_stale")
            && ReasonsOf(rules[6], size, c, s) ==
               Said(s.cooldownUntil.Some? && c.now < s.cooldownUntil.value, "loss_cooldown_active")
            && ReasonsOf(rules[7], size, c, s) ==
               Said(c.side == Buy && size * c.referencePrice > c.availableQuote, "insufficient_quote_balance")
               + Said(c.side == Sell && size > c.availableBase, "insufficient_base_balance")
  {}

  /** The reasons, rule by rule in their order, and the exact cause of each. */
  lemma DecideReasons(cfg: Config, size: Quantity, c: RiskContext, s: RiskState)
    ensures var after := if c.side == Buy then c.positionQuantity + size else c.positionQuantity - size;
            var limit := s.startingEquity * cfg.maxDailyLossPct;
            Decide(cfg, size, c, s).reasons ==
            (Said(s.systemState == Paused, "system_paused") + Said(s.systemState == Killed, "system_killed"))
            + (Said(after < 0.0, "insufficient_position")
               + Said(after >= 0.0 && after * c.referencePrice > c.portfolioEquity * cfg.maxPositionPct,
                      "max_position_exceeded"))
            + Said(limit <= 0.0 || -s.realizedPnl >= limit, "max_daily_loss_reached")
            + Said(c.side == Buy && c.positionQuantity == 0.0 && s.openPositions >= cfg.maxOpenPositions,
                   "max_open_positions_reached")
            + (Said(c.spreadBps.None?, "spread_unavailable")
               + Said(c.spreadBps.Some? && c.spreadBps.value > cfg.maxSpreadBps, "spread_too_wide"))
            + (Said(c.marketDataAt.None?, "market_data_unavailable")
               + Said(c.marketDataAt.Some? &&
                      !(c.marketDataAt.value <= c.now <= c.marketDataAt.value + cfg.staleSeconds * 1_000_000),
                      "market_data_stale"))
            + Said(s.cooldownUntil.Some? && c.now < s.cooldownUntil.value, "loss_cooldown_active")
            + (Said(c.side == Buy && size * c.referencePrice > c.availableQuote, "insufficient_quote_balance")
               + Said(c.side == Sell && size > c.availableBase, "insufficient_base_balance"))
  {
    hide ReasonsOf, Said, Reasons, CheckSystemState;
    EightReasons(DefaultRules(cfg), size, c, s);
    StateReasons(size, c, s);
    LimitReasons(cfg, size, c, s);
    MarketReasons(cfg, size, c, s);
  }

  // ---------- the risk state ----------

  /** A new trading day starts from the current equity with a clean slate; the system state stays. */
  function ResetForDay(s: RiskState, day: int, equity: real, now: int): RiskState {
    if day == s.tradingDay then s
    else s.(tradingDay := day, startingEquity := equity, realizedPnl := 0.0, peakEquity := equity,
            drawdown := 0.0, cooldownUntil := None, updatedAt := now)
  }

  /** The state after a fill was recorded. */
  function Recorded(
      s: RiskState, realizedPnl: real, equity: real, openPositions: int, cooldownMinutes: int, now: int): RiskState {
    var peak := if equity > s.peakEquity then equity else s.peakEquity;
    s.(realizedPnl := s.realizedPnl + realizedPnl, peakEquity := peak, drawdown := peak - equity,
       cooldownUntil := if realizedPnl < 0.0 then Some(now + cooldownMinutes * MINUTE) else s.cooldownUntil,
       openPositions := openPositions, updatedAt := now)
  }

  /** Within the UTC day of the row nothing changes; on any other day everything starts over but the system state. */
  lemma ResetMeans(s: RiskState, equity: real, now: int)
    ensures var r := ResetForDay(s, Day(now), equity, now);
            if s.tradingDay * 86_400_000_000 <= now < (s.tradingDay + 1) * 86_400_000_000 then r == s
            else
              && r.tradingDay * 86_400_000_000 <= now < (r.tradingDay + 1) * 86_400_000_000
              && r.startingEquity == equity && r.peakEquity == equity && r.updatedAt == now
              && r.realizedPnl == 0.0 && r.drawdown == 0.0 && r.cooldownUntil == None
              && r.openPositions == s.openPositions && r.systemState == s.systemState
  {}
}
