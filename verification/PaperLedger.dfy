/**
  Average-cost accounting of one fill (application/paper.py, `_apply`), and the replay of
  a list of fills that reconciliation compares with it.
 */
module PaperLedger {
  import opened PaperDomain
  import opened Reals
  import opened Wrappers

  // ---------- one fill ----------

  /** Best ask plus slippage for a BUY, best bid minus slippage for a SELL. */
  function ExecutionPrice(ticker: Ticker, side: Side, slippageBps: real): real {
    if side == Buy then ticker.ask * (1.0 + slippageBps / 10000.0) else ticker.bid * (1.0 - slippageBps / 10000.0)
  }

  function FeeOf(notional: real, feeRate: real): real {
    notional * feeRate
  }

  function AverageOver(totalCost: real, quantity: real): real
    requires quantity > 0.0
  {
    totalCost / quantity
  }

  datatype Applied = Applied(balance: Balance, position: Position, realized: real)

  function Apply(
      side: Side, quantity: real, notional: real, fee: real, balance: Balance, position: Position, now: int):
      Result<Applied, Error>
    requires quantity > 0.0
  {
    if side == Buy then
      var debit := notional + fee;
      if debit > balance.available then Err(InsufficientCash)
      else
        var held := position.quantity + quantity;
        var totalCost := Worth(position.quantity, position.averageCost) + debit;
        Ok(Applied(Balance(balance.available - debit, now),
                   position.(quantity := held, averageCost := AverageOver(totalCost, held), updatedAt := now), 0.0))
    else if quantity > position.quantity then Err(InsufficientPosition)
    else
      var realized := notional - fee - Worth(quantity, position.averageCost);
      var remaining := position.quantity - quantity;
      Ok(Applied(Balance(balance.available + notional - fee, now),
                 position.(quantity := remaining, averageCost := if remaining > 0.0 then position.averageCost else 0.0,
                           realizedPnl := position.realizedPnl + realized, updatedAt := now), realized))
  }

  const NO_POSITION: Position := Position(0.0, 0.0, 0.0, 0)

  predicate ValidPosition(p: Position) {
    p.quantity >= 0.0 && p.averageCost >= 0.0 && (p.quantity == 0.0 ==> p.averageCost == 0.0)
  }

  /** What the position stands in the books for. */
  function BookValue(p: Position): real {
    Worth(p.quantity, p.averageCost)
  }

  lemma AverageKeepsCost(totalCost: real, quantity: real)
    requires quantity > 0.0
    ensures Worth(quantity, AverageOver(totalCost, quantity)) == totalCost
    ensures totalCost >= 0.0 ==> AverageOver(totalCost, quantity) >= 0.0
  {
    if totalCost >= 0.0 {
      QuotientMonotone(0.0, totalCost, quantity, quantity);
    }
  }

  lemma CostSplits(quantity: real, part: real, averageCost: real)
    ensures Worth(quantity - part, averageCost) == Worth(quantity, averageCost) - Worth(part, averageCost)
  {
    Distribute(quantity, part, averageCost);
  }

  lemma CostNonNegative(quantity: real, averageCost: real)
    requires quantity >= 0.0 && averageCost >= 0.0
    ensures Worth(quantity, averageCost) >= 0.0
  {
    ProductNonNegative(quantity, averageCost);
  }

  /**
    A fill moves value between cash and position but creates none: cash plus book
    value changes by exactly the realized result. It never drives cash or quantity
    below zero, and an emptied position carries no cost.
   */
  lemma ApplyConserves(
      side: Side, quantity: real, notional: real, fee: real, balance: Balance, position: Position, now: int)
    requires quantity > 0.0 && notional > 0.0 && 0.0 <= fee <= notional
    requires balance.available >= 0.0 && ValidPosition(position)
    ensures var r := Apply(side, quantity, notional, fee, balance, position, now);
            && (r.Err? <==> if side == Buy then notional + fee > balance.available else quantity > position.quantity)
            && (r.Ok? ==>
                  var after := r.value;
                  && after.balance.available >= 0.0 && ValidPosition(after.position)
                  && after.balance.available + BookValue(after.position) ==
                     balance.available + BookValue(position) + after.realized
                  && after.position.realizedPnl == position.realizedPnl + after.realized
                  && after.position.quantity ==
                     (if side == Buy then position.quantity + quantity else position.quantity - quantity)
                  && after.balance.available ==
                     balance.available + (if side == Buy then -(notional + fee) else notional - fee)
                  && (side == Buy ==> after.realized == 0.0 && after.position.quantity > 0.0))
  {
    hide Worth, AverageOver;
    CostNonNegative(position.quantity, position.averageCost);
    if side == Buy {
      AverageKeepsCost(Worth(position.quantity, position.averageCost) + notional + fee, position.quantity + quantity);
    } else {
      CostSplits(position.quantity, quantity, position.averageCost);
      ZeroCost(position.quantity - quantity, position.averageCost);
    }
  }

  lemma ZeroCost(quantity: real, averageCost: real)
    ensures quantity == 0.0 ==> Worth(quantity, averageCost) == 0.0 && Worth(quantity, 0.0) == 0.0
  {}

  lemma FeeWithinNotional(price: real, quantity: real, feeRate: real)
    requires price > 0.0 && quantity > 0.0 && 0.0 <= feeRate <= 1.0
    ensures Worth(quantity, price) > 0.0
    ensures 0.0 <= FeeOf(Worth(quantity, price), feeRate) <= Worth(quantity, price)
  {
    ProductStrict(0.0, price, quantity);
    var notional := price * quantity;
    ProductNonNegative(notional, feeRate);
    ProductMonotone(feeRate, 1.0, notional);
    assert notional * feeRate <= notional;
  }

  // ---------- prices ----------

  /**
    Slippage is adverse: a purchase costs at least the ask, a sale brings at most the bid,
    and more slippage is worse.
   */
  lemma SlippageIsAdverse(ticker: Ticker, slippageBps: real, more: real)
    requires 0.0 <= slippageBps <= more <= 10000.0
    ensures ticker.ask <= ExecutionPrice(ticker, Buy, slippageBps) <= ExecutionPrice(ticker, Buy, more)
    ensures 0.0 <= ExecutionPrice(ticker, Sell, more) <= ExecutionPrice(ticker, Sell, slippageBps) <= ticker.bid
  {
    var less, worse := slippageBps / 10000.0, more / 10000.0;
    ProductMonotone(1.0, 1.0 + less, ticker.ask);
    ProductMonotone(1.0 + less, 1.0 + worse, ticker.ask);
    ProductMonotone(1.0 - worse, 1.0 - less, ticker.bid);
    ProductMonotone(1.0 - less, 1.0, ticker.bid);
    ProductNonNegative(ticker.bid, 1.0 - worse);
  }

  /**
    Buying a quantity and selling it again at the same quote never gains: it restores the
    quantity, and costs both fees and the difference of the two prices.
   */
  lemma RoundTripNeverGains(
      ticker: Ticker, slippageBps: real, feeRate: real, quantity: Quantity,
      balance: Balance, position: Position, now: int, later: int)
    requires 0.0 <= slippageBps <= 10000.0 && 0.0 <= feeRate <= 1.0 && position.quantity >= 0.0
    ensures var paid := Worth(quantity, ExecutionPrice(ticker, Buy, slippageBps));
            var got := Worth(quantity, ExecutionPrice(ticker, Sell, slippageBps));
            var bought := Apply(Buy, quantity, paid, FeeOf(paid, feeRate), balance, position, now);
            bought.Ok? ==>
              var sold := Apply(Sell, quantity, got, FeeOf(got, feeRate), bought.value.balance, bought.value.position,
                                later);
              && sold.Ok? && sold.value.position.quantity == position.quantity
              && sold.value.balance.available ==
                 balance.available - (paid - got) - FeeOf(paid, feeRate) - FeeOf(got, feeRate)
              && sold.value.balance.available <= balance.available
  {
    hide ExecutionPrice, Worth, FeeOf, AverageOver;
    SlippageIsAdverse(ticker, slippageBps, slippageBps);
    var dear, cheap := ExecutionPrice(ticker, Buy, slippageBps), ExecutionPrice(ticker, Sell, slippageBps);
    WorthMonotone(quantity, cheap, dear);
    FeeNonNegative(Worth(quantity, dear), feeRate);
    FeeNonNegative(Worth(quantity, cheap), feeRate);
  }

  lemma WorthMonotone(quantity: real, low: real, high: real)
    requires quantity >= 0.0 && 0.0 <= low <= high
    ensures 0.0 <= Worth(quantity, low) <= Worth(quantity, high)
  {
    ProductsMonotone(low, high, quantity, quantity);
  }

  lemma FeeNonNegative(notional: real, feeRate: real)
    requires notional >= 0.0 && feeRate >= 0.0
    ensures FeeOf(notional, feeRate) >= 0.0
  {
    ProductNonNegative(notional, feeRate);
  }

  // ---------- replay ----------

  function CashFlow(f: Fill): real {
    if f.side == Buy then -(f.notional + f.fee) else f.notional - f.fee
  }

  function Signed(f: Fill): real {
    if f.side == Buy then f.quantity else -f.quantity
  }

  /** Cash after the fills, starting from an initial balance. */
  function ReplayCash(initial: real, fills: seq<Fill>): real {
    if |fills| == 0 then initial
    else ReplayCash(initial, fills[..|fills| - 1]) + CashFlow(fills[|fills| - 1])
  }

  /** Quantity held in a market after the fills. */
  function ReplayQuantity(fills: seq<Fill>, key: MarketKey): real {
    if |fills| == 0 then 0.0
    else
      var f := fills[|fills| - 1];
      ReplayQuantity(fills[..|fills| - 1], key) + (if f.key == key then Signed(f) else 0.0)
  }

  /** Realized result of the fills in one market. */
  function ReplayRealized(fills: seq<Fill>, key: MarketKey): real {
    if |fills| == 0 then 0.0
    else
      var f := fills[|fills| - 1];
      ReplayRealized(fills[..|fills| - 1], key) + (if f.key == key then f.realizedPnl else 0.0)
  }

  predicate HasFillIn(fills: seq<Fill>, key: MarketKey) {
    exists i :: 0 <= i < |fills| && fills[i].key == key
  }

  /** No market is ever sold below zero along the list. */
  ghost predicate NeverNegative(fills: seq<Fill>) {
    forall n, key :: 0 <= n <= |fills| ==> ReplayQuantity(fills[..n], key) >= 0.0
  }

  lemma ReplayAppend(initial: real, fills: seq<Fill>, f: Fill, key: MarketKey)
    ensures ReplayCash(initial, fills + [f]) == ReplayCash(initial, fills) + CashFlow(f)
    ensures ReplayQuantity(fills + [f], key) == ReplayQuantity(fills, key) + if f.key == key then Signed(f) else 0.0
    ensures ReplayRealized(fills + [f], key) == ReplayRealized(fills, key) + if f.key == key then f.realizedPnl else 0.0
  {
    assert (fills + [f])[..|fills|] == fills;
  }

  lemma {:induction false} ReplayRemove(initial: real, fills: seq<Fill>, i: int, key: MarketKey)
    requires 0 <= i < |fills|
    ensures var rest := fills[..i] + fills[i + 1..];
            && ReplayCash(initial, fills) == ReplayCash(initial, rest) + CashFlow(fills[i])
            && ReplayQuantity(fills, key) ==
               ReplayQuantity(rest, key) + (if fills[i].key == key then Signed(fills[i]) else 0.0)
  {
    var n := |fills| - 1;
    var rest := fills[..i] + fills[i + 1..];
    if i == n {
      assert rest == fills[..n];
    } else {
      var init := fills[..n];
      var shorter := init[..i] + init[i + 1..];
      ReplayRemove(initial, init, i, key);
      assert rest == shorter + [fills[n]];
      ReplayAppend(initial, shorter, fills[n], key);
    }
  }

  /** The totals of a replay do not depend on the order of the fills. */
  lemma {:induction false} ReplayPermutation(initial: real, a: seq<Fill>, b: seq<Fill>, key: MarketKey)
    requires multiset(a) == multiset(b)
    ensures ReplayCash(initial, a) == ReplayCash(initial, b)
    ensures ReplayQuantity(a, key) == ReplayQuantity(b, key)
    decreases |a|
  {
    assert |a| == |multiset(a)| == |multiset(b)| == |b|;
    if |a| > 0 {
      var n := |a| - 1;
      var last := a[n];
      assert a == a[..n] + [last];
      assert last in multiset(b);
      var i :| 0 <= i < |b| && b[i] == last;
      var rest := b[..i] + b[i + 1..];
      assert b == b[..i] + [last] + b[i + 1..];
      assert multiset(a[..n]) == multiset(a) - multiset{last};
      assert multiset(rest) == multiset(b) - multiset{last};
      ReplayRemove(initial, b, i, key);
      ReplayPermutation(initial, a[..n], rest, key);
    }
  }
}
