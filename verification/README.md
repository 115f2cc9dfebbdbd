# Atlas Trader: a verified model

This project models the decision and accounting core of Atlas Trader in Dafny 4.11 and
proves what that core is for. It covers

* the PAPER trading protocol: risk evaluation, idempotent order intents, execution with
  average-cost accounting, reconciliation and the kill switch, over whole runs in which a
  cycle may die after any of its commits and be retried, and over interleaved workers;
* the backtest engine with its half-even rounding at 18 places, and the O(n) drawdown;
* the EMA/ATR strategy;
* candle synchronisation: pagination, normalisation and gap detection;
* the sliding-window rate limiter and the tagged-decimal metadata codec.

`dafny verify dfyconfig.toml` checks the whole project.

## How the model is built

Where the program updates rows, lists or fields step by step, the model does too. The
class `PaperDatabase.Database` is one session: tables that repository calls update in
place, the last committed contents, and a ghost history of commits. `TradingCycle.RunCycle`,
`PaperExecution.RunExecution` and `Reconciliation.RunReconciliation` are methods on it.
Each is proved equal to a function on `Tables` values (`Cycle`, `Execute`, `Reconcile`), and
the theorems about runs are about those functions. The loops of the backtest, the indicators, the
normalisation, the gap detection, the risk engine and the rate limiter are loops here as well.

What those functions compute is said once more in plain numbers, without their helpers: a cycle's
answer, approval and intent in `CycleDecisions`, a booking's amounts and refusals in `BookedFills`,
a backtest's candle in `BacktestSteps` and its report in `BacktestResults`, the averages in the
contracts of `Indicators`, the operator commands in `AdminState.TransitionMeans`, the causes of
anomalies in `ReconciliationProperties.AnomalyMeans`.

A run (`TradingRuns.Run`) is any sequence of account initializations, trading cycles,
operator commands and separate reconciliations under one fixed configuration. A cycle step
says how many of its commits survive, so every state between two commits is the end of some
run. `Transactions` cuts cycles at their commits and lets anything happen in between; there a
request reads the clock when it arrives, and its cycle may begin any time later. `Workers` cuts
an execution between its reads and its write, `RiskRaces` a change of the risk row between its
read and its save. The only assumption on a run (`Possible`) is that a new intent id is new;
theorems about days, cooldowns and listing order also say what they need of the clock (`Forward`:
it never goes back; `Ticking`: it advances from step to step; `Increasing`: the executions that
book do so with increasing times).

Money is `real`. In the backtest every stored value is rounded half-even to the 10^-18 grid, as
`persisted_decimal` does; the PAPER ledger is not rounded, as in the code. Times are integer
microseconds; a trading day is a UTC day.

## Four results about the code

* **A retry does not always return the existing fill.** The documentation
  (`docs/paper-trading.md:24-25`) says that a retry after a committed fill returns it. The code
  evaluates the risk rules again first. `Idempotency.RetryAfterFill` is the exact condition: at the
  same last price the fill is handed out if and only if the equity is positive and the rules permit
  the trade once more; otherwise the answer is `risk_rejected`, or, without equity, an invalid risk
  context. `RefusedRetry.RetryIsRefused` is a run that is refused.
  Nothing is booked twice in any case. At another last price the retry is a conflict, and only
  then: `Idempotency.RetryConflictsIffPriceMoved`.
* **Reconciliation needs an advancing clock.** Fills are listed by execution time and id. If the
  clock goes back between a purchase and the sale of what it bought, the listed history starts with
  the sale, and a correct account is killed. `ClockSkew.ClockSkewKills` is such a run.
  `LedgerSafety.SoundIffListedInOrder` shows that this is the only anomaly that reconciliation can
  find on a reachable account, and `LedgerSafety.ReconciliationNeverKills` that it cannot happen
  while the clock advances from step to step. When cycles interleave, a clock that never goes back is
  not enough: a request fixes its time on arrival, and one that is overtaken books with an earlier
  time. `TransactionClock.OvertakenSaleKills` is such a run; what is enough, for any interleaving, is
  that the executions that book a fill do so with increasing times:
  `TransactionClock.InterleavingNeverKills`.
* **A kill can be lost.** Every change of the risk row reads the whole row and saves it back whole,
  system state included. A kill saved between the read and the save of another change is undone by
  it: `RiskRaces.LostKill`. `RiskRaces.KillKeptIffNotLifted` is the exact condition, and
  `RiskRaces.KillHoldsForLaterReads` says that saves whose reads come after the kill cannot undo it,
  but for a reset_killed.
* **Gap detection can raise.** A gap must count at least one missing candle. For candles off the grid
  the count of a gap can be zero, and then the gap itself is invalid: `CandleSync.HalfAStepRaises`.
  The contract of `CandleSync.DetectGaps` is exact: it raises if and only if some gap is less than
  one candle wide. Candles on the requested grid never raise.

## Model

| member | source | states |
|---|---|---|
| `TradingRuns.AccountSound` | src/atlas_trader/application/trading.py:112-233 | after every serial run from a fresh account, with crashes after any commit and any retries, the whole ledger invariant holds: indexes agree, each intent's status follows its first decision, fills carry out FILLED intents in full, replay gives the stored rows, value is conserved, no market ever went negative |
| `TradingRuns.FilledExactlyOnce` | src/atlas_trader/infrastructure/database/repositories/paper.py:98-174 | in every reachable account no two fills belong to the same intent, and an intent has a fill if and only if it is FILLED |
| `TradingRuns.LedgerReplays` | src/atlas_trader/application/reconciliation.py:45-84 | in every reachable account only the configured quote asset holds a balance, cash and every quantity equal the replay of the fills, and no prefix of the replay is negative |
| `TradingRuns.ValueIsConserved` | src/atlas_trader/application/paper.py:160-208 | in every reachable account cash plus the sum of quantity times average cost is the initial balance plus the sum of realized results; cash, quantities and costs are never negative and an empty position has no cost |
| `TradingRuns.EquityIsExplained` | src/atlas_trader/application/paper.py:102-117 | while one market was traded, every snapshot's total equity is the initial balance plus realized plus unrealized result |
| `TradingRuns.CycleSound` | src/atlas_trader/application/trading.py:112-233 | every single state that a cycle commits satisfies the ledger invariant if the state before it does |
| `TradingCycle.RunCycle` | src/atlas_trader/application/trading.py:112-233 | the cycle, run on the database, commits exactly the states that `Cycle` names in that order, answers as `Cycle` says, and leaves nothing uncommitted, on every path including rollback |
| `TradingCycle.RunTrade` | src/atlas_trader/application/trading.py:191-233 | the second and third transaction: book and record, or roll back and log; then reconcile |
| `TradingCycle.RunOpenTrade` | src/atlas_trader/application/trading.py:130-179 | risk context, evaluation, intent and event, before the first commit; every refusal leaves the committed rows |
| `TradingCycle.RunBook` | src/atlas_trader/application/trading.py:191-202 | execution, and the risk row recorded only for a newly created fill |
| `TradingCycle.EnsureInitialized` | src/atlas_trader/application/trading.py:48-69 | the balance and the risk row are each written exactly if missing |
| `TradingRuns.OpenedMeans` | src/atlas_trader/application/trading.py:48-69 | a fresh account holds the initial balance in the quote asset, an ENABLED risk row of the UTC day, and nothing else |
| `TradingCycle.AssessRisk` | src/atlas_trader/risk/engine.py:187-203 | no risk row means rejection; otherwise the row is reset for the day, saved, and the rules decide on the reset row |
| `CycleDecisions.OpenAnswers` | src/atlas_trader/application/trading.py:112-170 | the answer to every request in the order in which the code looks: mode, signal, hold, market, quote, account, equity, an earlier intent at another price; everything else is decided |
| `CycleDecisions.ApprovalMeans` | src/atlas_trader/application/trading.py:130-179 | a decided cycle leaves the risk row of today, approves exactly if the trade keeps all limits, each told by the stored rows, the quote's bid, ask, last price and time, and the settings, and logs the approval or the rejection |
| `CycleDecisions.IntentMeans` | src/atlas_trader/application/orders.py:38-74 | a first request stores an intent with every field as given and the decision just made; a request with the same client order id stores nothing and goes on with the stored one |
| `CycleSteps.OpenMeans` | src/atlas_trader/application/trading.py:115-179 | the first transaction touches the risk row, at most one fresh intent and the log; the answer is the stored intent; approval holds exactly when all eight limits permit the trade on the reset risk row |
| `CycleSteps.BookMeans` | src/atlas_trader/application/paper.py:44-158 | execution books the whole prepared order, finalizes the intent and records risk, or hands out the fill that is there and changes nothing; the finalizing update cannot fail in a serial run |
| `BookedFills.BookingMeans` | src/atlas_trader/application/paper.py:76-158 | every amount a booking writes: price is ask or bid times 10000 plus or minus the slippage over 10000, notional and fee are exact products, cash and position follow by average cost, the snapshot marks the position at the last price, the risk row takes up result, peak, drawdown and cooldown |
| `BookedFills.CycleBooks` | src/atlas_trader/application/trading.py:180-233 | a cycle that ends with a new fill has committed exactly such a booking of its intent, and then only reconciled |
| `BookedFills.PrepareAnswers` | src/atlas_trader/application/paper.py:53-200 | the answer of execution to every intent, market, quote and account, in the order in which the code looks, with the affordable amount in numbers |
| `Idempotency.FirstDecisionIsFinal` | src/atlas_trader/infrastructure/database/repositories/orders.py:27-49 | over any later run an intent keeps its first decision; one stored REJECTED is never changed and never filled; a filled quantity is the quantity approved first |
| `Idempotency.RetryConflictsIffPriceMoved` | src/atlas_trader/infrastructure/database/repositories/orders.py:36-49 | a retry conflicts if and only if the last price differs from the stored reference price, and then commits nothing; otherwise it goes on with the stored intent |
| `Idempotency.SignatureIsPrice` | src/atlas_trader/domain/models/order.py:88-104 | two intents with the same client order id have the same execution signature exactly when their reference prices agree |
| `Idempotency.RetryAfterFill` | src/atlas_trader/application/paper.py:53-58 | a retry of a filled intent books nothing; it hands out the existing fill with the rows as they are if and only if there is equity and the rules permit the trade once more, is refused exactly when there is equity and they do not, and has no valid context exactly without equity |
| `Idempotency.FinishedCanBeRetried` | src/atlas_trader/application/orders.py:38-74 | the same request sent again after its cycle finished, at the same last price, meets its own intent, FILLED, with the same reference price |
| `RefusedRetry.RetryIsRefused` | docs/paper-trading.md:24-25 | the documented promise, concretely missed: one unit bought at 10 with a limit of a tenth of 100, the same request sent again a second later is refused although its fill is committed |
| `Idempotency.CrashThenRetry` | src/atlas_trader/application/trading.py:135-224 | a cycle dies after storing an approved intent; the same request sent again, with any fresh quote at any later time, commits nothing without a quote or at another last price, books nothing if the rules or the execution refuse, and in every other case books the stored intent in full at the fresh quote's adverse price |
| `Idempotency.CrashLosesNothing` | src/atlas_trader/application/trading.py:180-224 | at the same quote the retry leaves the money, positions and fills of the uninterrupted cycle up to row ids and times, if the rules permit it, and otherwise books nothing |
| `Idempotency.PrepareTwice` | src/atlas_trader/application/paper.py:53-146 | preparing the same stored intent on the same books gives the same order at any time: fill, execution event id, cash, position and snapshot, but for the times and the row id |
| `KillSwitch.StateSteps` | src/atlas_trader/application/admin.py:25-104 | in one step KILLED is left only by reset_killed and only to PAUSED, PAUSED only by kill, failed reconciliation or resume; fills are only ever appended, and only by a cycle that starts ENABLED |
| `KillSwitch.KillIsSticky` | src/atlas_trader/application/admin.py:61-71 | between any kill, whatever caused it, and the next new fill there are a reset_killed, later a resume, and later a cycle |
| `KillSwitch.KillWorks` | src/atlas_trader/application/admin.py:49-59 | a kill on any account that has a risk row, whatever its state, ends KILLED, books nothing and logs the change |
| `KillSwitch.KillStopsTrading` | src/atlas_trader/application/admin.py:49-71 | after any run and then a kill the account is KILLED, and a new fill takes a reset_killed, later a resume, later a cycle |
| `KillSwitch.LogReproducesState` | src/atlas_trader/application/admin.py:88-103 | folding the event log of any run reproduces the stored system state, and every recorded change starts from the state the log tells and is an allowed one |
| `RiskRaces.KillKeptIffNotLifted` | src/atlas_trader/infrastructure/database/repositories/risk.py:30-48 | with reads and saves of the risk row interleaved in any way, a KILLED row stays KILLED if and only if no later save rests on a read that frees it: a daily reset or a fill that read another state, or an operator command that its own read allows |
| `RiskRaces.LostKill` | src/atlas_trader/risk/engine.py:205-233 | a kill saved between the read and the save of any fill's bookkeeping is undone |
| `RiskRaces.KillHoldsForLaterReads` | src/atlas_trader/risk/engine.py:187-233 | if every save after a kill rests on a read after it and none is a reset_killed, the row stays KILLED |
| `RiskRaces.UnbrokenIsAtomic` | src/atlas_trader/infrastructure/database/repositories/risk.py:15-48 | when nothing is saved between a read and its save, any interleaving leaves the row that the changes leave one after the other |
| `RiskRaces.ChangesAreTransactions` | src/atlas_trader/risk/engine.py:187-233 | the four changes of that model, made at once, are what evaluation, bookkeeping, reconciliation and operator commands do to the risk row |
| `Transactions.LedgerSurvivesInterleaving` | src/atlas_trader/application/trading.py:180-224 | the ledger invariant holds after any sequence of transactions, however the three transactions of any number of cycles interleave with each other, with dying processes and with operator commands |
| `Transactions.FinalizedMeanwhile` | src/atlas_trader/application/paper.py:56-58 | an execution whose intent another cycle has filled in the meantime changes nothing and is answered with that fill and the rows as they are |
| `Transactions.CommitSteps` | src/atlas_trader/application/paper.py:59-61 | fills appear only in an execution transaction that itself starts ENABLED; KILLED is left only by a reset and only to PAUSED |
| `Transactions.StopHoldsBetweenTransactions` | src/atlas_trader/application/paper.py:59-61 | from PAUSED a new fill takes a resume and then an execution, from KILLED a reset before those, also for intents that were approved before the stop |
| `Transactions.PendingExecutionIsBlocked` | src/atlas_trader/application/paper.py:59-61 | a pending execution that finds the system stopped is refused for that reason: nothing is booked, the failure is logged, the intent stays |
| `Transactions.StopOverridesApproval` | src/atlas_trader/application/trading.py:191-215 | approved, then paused or killed, then executed: no fill |
| `Transactions.CycleIsItsTransactions` | src/atlas_trader/application/trading.py:112-233 | without anything in between, and whoever else is in flight, the first transactions of a cycle commit exactly what the cycle commits up to there |
| `TransactionClock.InterleavingNeverKills` | src/atlas_trader/infrastructure/database/repositories/paper.py:82-88 | over any interleaving of transactions whose booking executions have increasing times, no audit and no settlement ever fails, and an account that ends KILLED was killed by an operator |
| `TransactionClock.ServeQuiet` | src/atlas_trader/infrastructure/database/repositories/paper.py:82-88 | under that condition the times of the stored fills are exactly the times of the executions that booked, in the order in which they committed |
| `TransactionClock.OvertakenSaleKills` | src/atlas_trader/api/routes/trading.py:99-148 | requests that arrive at seconds 10 and 20 in that order, the earlier one overtaken: the ledger is right, and the account ends KILLED without a command |
| `AdminState.Transit` | src/atlas_trader/application/admin.py:73-104 | a change from an allowed state saves the state and appends one event; from any other state nothing changes |
| `AdminState.TransitionMeans` | src/atlas_trader/application/admin.py:25-104 | which command works from which state and which state it saves: pause only from ENABLED, resume only from PAUSED, kill from ENABLED and from PAUSED, reset_killed only from KILLED; what works is saved and logged with both states, anything else leaves every row |
| `AdminState.RunPause` | src/atlas_trader/application/admin.py:25-35 | pause works exactly from ENABLED |
| `AdminState.RunResume` | src/atlas_trader/application/admin.py:37-47 | resume works exactly from PAUSED |
| `AdminState.RunKill` | src/atlas_trader/application/admin.py:49-59 | kill works exactly from ENABLED and PAUSED |
| `AdminState.RunResetKilled` | src/atlas_trader/application/admin.py:61-71 | reset_killed works exactly from KILLED, and leads to PAUSED |
| `LedgerSafety.SoundIffListedInOrder` | src/atlas_trader/infrastructure/database/repositories/paper.py:82-88 | on any reachable account, whatever the clock did, reconciliation finds nothing if the history does not go negative in the order it is listed, and otherwise exactly one anomaly, the negative history |
| `LedgerSafety.ReconciliationNeverKills` | src/atlas_trader/application/reconciliation.py:45-111 | over every run with an advancing clock reconciliation is consistent at the end, the log holds no failed one, and an account that ends KILLED was killed by an operator |
| `LedgerSafety.CycleAdvancing` | src/atlas_trader/application/trading.py:221-233 | under an advancing clock every report of a cycle is consistent and no commit of it changes the system state |
| `ClockSkew.ClockSkewKills` | src/atlas_trader/infrastructure/database/repositories/paper.py:86 | a concrete run, a purchase at second 20 and a sale at second 10, that satisfies the ledger invariant and still ends inconsistent and KILLED |
| `ClockSkew.FillableIsFilled` | src/atlas_trader/application/trading.py:112-233 | a cycle that is permitted, new, priced and affordable does end in a booked fill within the limits |
| `RiskLimits.RiskRowTellsFills` | src/atlas_trader/risk/engine.py:205-233 | in every run whose clock never goes back, the risk row's realized result is the sum over the trading day's fills, and no fill follows a losing one of its day within the cooldown |
| `RiskLimits.LossStopsTheDay` | src/atlas_trader/risk/engine.py:48-55 | once `-realized_pnl` has reached the starting equity times the loss share, no sequence of steps of that day adds a fill |
| `RiskLimits.LossesStopTheDay` | src/atlas_trader/risk/engine.py:48-55 | the same told by the fills: on every account left by a run whose clock never went back, once the losses realized by the day's fills reach that limit, no further step of the day adds a fill |
| `RiskLimits.PositionWithinShare` | src/atlas_trader/risk/engine.py:30-40 | after every fill the position at the quoted last price is at most its share of the equity before the trade, and a purchase at that price was covered by cash |
| `RiskLimits.CycleWithinLimits` | src/atlas_trader/risk/engine.py:139-157 | whatever a cycle commits, a new fill in it is one, at the cycle's time, for the requested side and quantity, at the adverse price of its quote, and permitted by all limits in the state the cycle started from |
| `RiskLimits.ResetKeeps` | src/atlas_trader/domain/models/risk.py:24-37 | the reset for a new day keeps the agreement between risk row and fills: nothing realized, nothing to cool down from |
| `RiskRow.RiskRowTellsEquity` | src/atlas_trader/risk/engine.py:205-233 | in every run with an advancing clock, the stored peak is the highest equity of the trading day, the stored drawdown is its distance to the equity after the last fill and never negative, and the open positions say whether that fill's market is held |
| `TradingCycle.SpreadWithin` | src/atlas_trader/application/trading.py:142-143 | the spread is within a limit exactly when the distance of ask and bid, in basis points of their mean, is |
| `RiskEngine.Evaluate` | src/atlas_trader/risk/engine.py:139-157 | the loop collects every refusal in rule order, a raising rule counts as a refusal, and approval means that all rules pass |
| `RiskEngine.ApprovedIffAllPass` | src/atlas_trader/risk/engine.py:142-149 | no reasons are collected if and only if every rule passes |
| `RiskEngine.EveryRuleReports` | src/atlas_trader/risk/engine.py:142-149 | a refusal is reported with its reason, and a rule that raises by its name |
| `RiskEngine.DecideMeans` | src/atlas_trader/risk/engine.py:15-179 | on the fields of context, risk row and settings: the default engine approves, and then the full size, exactly if the system is enabled, the position after the trade keeps its share of the equity, the day's loss limit is positive and `-realized_pnl` is below it, and the limits on open positions, spread, quote age, cooldown and balance are all kept |
| `RiskEngine.DecideReasons` | src/atlas_trader/risk/engine.py:15-179 | the reasons in the order of the rules, each with its exact cause in numbers |
| `RiskEngine.ResetMeans` | src/atlas_trader/domain/models/risk.py:24-37 | within the UTC day of the row the reset changes nothing; on any other day everything but the system state and the open positions starts over from the present equity |
| `PaperExecution.RunExecution` | src/atlas_trader/application/paper.py:44-158 | every refusal in the order of the code, the reload of an existing fill, and the booked result; nothing is committed |
| `PaperLedger.ApplyConserves` | src/atlas_trader/application/paper.py:160-208 | applying a fill fails exactly for lack of cash or position; otherwise cash plus book value changes by exactly the realized result, nothing goes negative, and an emptied position carries no cost |
| `PaperLedger.FeeWithinNotional` | src/atlas_trader/application/paper.py:83-84 | with a fee rate between 0 and 1 the fee lies between zero and the notional |
| `PaperLedger.SlippageIsAdverse` | src/atlas_trader/application/paper.py:74-80 | a purchase costs at least the ask and a sale brings at most the bid, never less than zero; more slippage is worse for both |
| `PaperLedger.RoundTripNeverGains` | src/atlas_trader/application/paper.py:160-208 | buying and selling again at the same quote restores the quantity and never gains cash: it costs both fees and the difference of the prices |
| `PaperLedger.ReplayPermutation` | src/atlas_trader/application/reconciliation.py:45-68 | the replayed cash and quantities do not depend on the order of the fills |
| `PaperDatabase.Database.CreateOrGet` | src/atlas_trader/infrastructure/database/repositories/orders.py:27-49 | inserts unless the client order id exists; then the stored intent is the answer if the signatures agree, else a conflict |
| `PaperDatabase.Database.UpdateStatus` | src/atlas_trader/infrastructure/database/repositories/orders.py:61-71 | compare-and-set of the status, and whether a row matched |
| `PaperDatabase.Database.ApplyExecution` | src/atlas_trader/infrastructure/database/repositories/paper.py:90-174 | insert-if-absent of the fill; only then balance, position, snapshot and status; a failed finalization is an error |
| `PaperDatabase.Database.Rollback` | src/atlas_trader/infrastructure/database/unit_of_work.py:11-12 | the session sees the last committed rows again |
| `PaperDatabase.Database.Commit` | src/atlas_trader/infrastructure/database/unit_of_work.py:8-9 | what the session sees becomes the committed rows, and one more commit is recorded |
| `PaperRepositories.LatestIsGreatest` | src/atlas_trader/infrastructure/database/repositories/paper.py:176-183 | the latest snapshot has the greatest timestamp |
| `PaperRepositories.ListedByTime` | src/atlas_trader/infrastructure/database/repositories/paper.py:82-88 | all fills are listed, by execution time and then by id |
| `LedgerSteps.CreateOrGetKeeps` | src/atlas_trader/application/orders.py:38-74 | storing an intent keeps the ledger invariant |
| `LedgerSteps.ApplyExecutionKeeps` | src/atlas_trader/infrastructure/database/repositories/paper.py:98-174 | a prepared order for a stored approved intent is booked, finalizes it, and keeps the ledger invariant |
| `LedgerSteps.SnapshotExplained` | src/atlas_trader/application/paper.py:102-117 | marking the one position to the market explains total equity by realized and unrealized result |
| `OrderLifecycle.FilledOnlyThroughExecuting` | src/atlas_trader/domain/models/order.py:106-133 | no path of transitions leads from APPROVED to FILLED or PARTIALLY_FILLED but through EXECUTING, and none leaves a final status |
| `OrderLifecycle.TransitionMeans` | src/atlas_trader/domain/models/order.py:106-133 | from exactly which statuses each status can be reached |
| `OrderLifecycle.FinalizingSkipsExecuting` | src/atlas_trader/infrastructure/database/repositories/paper.py:163-173 | the finalizing write makes a step that `transition_to` refuses, and its row is that of the path through EXECUTING |
| `Workers.OneIntentOneFill` | src/atlas_trader/infrastructure/database/repositories/paper.py:98-136 | for any interleaving of any number of workers on one approved intent: if and only if some worker writes what it read and the starting rows let its attempt through, exactly one fill is created and the rows are those of the winner's serial execution; every such write, the losers' as well, is answered there and then with that fill; an attempt is declined only if the starting rows refuse it anyway |
| `Workers.MoneyMovesOnce` | src/atlas_trader/application/paper.py:147-151 | under the same interleavings cash changes by the one fill's cash flow exactly when some write delivers, otherwise not at all, and the ledger invariant holds |
| `Workers.AnyMixFillsOnce` | src/atlas_trader/infrastructure/database/repositories/paper.py:98-174 | for any interleaving on any mix of intents each intent has at most one fill, present if and only if it is FILLED, no finalizing update fails, and a worker that comes with a prepared order is always answered with the one fill that its intent keeps |
| `Workers.MixAfterRunFillsOnce` | src/atlas_trader/infrastructure/database/repositories/paper.py:98-174 | the same from every account that a serial run with crashes and retries has left: one fill per intent, present if and only if it is FILLED, and the fills that were there stay |
| `Workers.SerialAccountsFit` | src/atlas_trader/application/paper.py:210-223 | in every account that satisfies the ledger invariant each fill's market has a position and a snapshot was taken, so that any stored fill can be handed out |
| `Reconciliation.RunReconciliation` | src/atlas_trader/application/reconciliation.py:33-112 | the replay loop and the three comparisons give exactly the anomalies of `Reconcile`; one event is appended; an inconsistent account that has a risk row ends KILLED |
| `Reconciliation.CheckFills` | src/atlas_trader/application/reconciliation.py:45-68 | the loop's running sets and sums are those of the replay, and it collects every fill's anomalies in order |
| `Reconciliation.Deduplicate` | src/atlas_trader/application/reconciliation.py:86 | each anomaly once |
| `ReconciliationProperties.ConsistentIffSound` | src/atlas_trader/application/reconciliation.py:45-93 | the report is consistent if and only if intents and events are distinct, every fill's intent exists and is FILLED, no prefix goes negative, and cash and every position equal the replay |
| `ReconciliationProperties.AnomalyMeans` | src/atlas_trader/application/reconciliation.py:33-86 | each of the nine anomalies is reported if and only if its own cause is in the rows, and the report counts all fills |
| `ReconciliationProperties.ReconcileKills` | src/atlas_trader/application/reconciliation.py:94-112 | an unsound account ends KILLED, a sound one keeps its state, KILLED is never cleared, and exactly one event of the right kind is appended |
| `ReconciliationProperties.UniqueKeepsFirstSeen` | src/atlas_trader/application/reconciliation.py:86 | deduplicated anomalies are distinct and in the order they were first seen |
| `ReconciliationProperties.NeverNegativeIsOwn` | src/atlas_trader/application/reconciliation.py:57-68 | checking each fill's own market right after it is the same as checking every market at every time |
| `Backtest.Run` | src/atlas_trader/application/backtest.py:71-199 | the run validates as specified and reports on the final book of the candle-by-candle simulation, whose steps `BacktestSteps.CandleMeans` and whose report `BacktestResults.ReportMeans` tell in numbers |
| `Backtest.RunOrdered` | src/atlas_trader/application/backtest.py:88-153 | the loop that updates cash, quantity, cost, trades and curve computes that simulation |
| `BacktestSteps.CandleMeans` | src/atlas_trader/application/backtest.py:98-153 | one candle: a BUY given on exactly the candles before it while all is cash buys all in at its open, a SELL while a position is held sells it all, nothing else trades, and the close marks the book; price, gross, fee, quantity and equity are each within half a unit of the eighteenth place of open times (10000 plus or minus bps) over 10000, cash over (1 + fee rate), gross times fee rate, gross over price, and cash plus quantity times close |
| `BacktestAccounting.PurchaseTrade` | src/atlas_trader/application/backtest.py:100-120 | every field of the trade and of the book after a purchase |
| `BacktestAccounting.SaleTrade` | src/atlas_trader/application/backtest.py:121-145 | every field of the trade and of the book after a sale |
| `BacktestAccounting.FillPriceNear` | src/atlas_trader/application/backtest.py:216-218 | a fill's price is the open times (10000 plus or minus bps) over 10000, to the nearest stored amount |
| `BacktestAccounting.PurchaseBooks` | src/atlas_trader/application/backtest.py:100-120 | a purchase spends all the cash, books gross plus fee without a further rounding loss and within 3/2 quanta of that cash, buys the gross divided by the price up to half a quantum, and fails exactly when price or quantity round to nothing |
| `BacktestAccounting.SaleBooks` | src/atlas_trader/application/backtest.py:121-145 | a sale gives up the whole position for gross minus fee and realizes the proceeds minus the cost, both exactly; the gross is the value of the position up to half a quantum |
| `BacktestProperties.NoLookAhead` | src/atlas_trader/application/backtest.py:78-153 | for any strategy that is a function of its prefix, two datasets that agree up to a time trade identically up to that time |
| `BacktestProperties.TradesExecuteOnNextCandle` | src/atlas_trader/application/backtest.py:98-153 | every trade carries out a signal evaluated on exactly the candles before it, at the candle right after them |
| `BacktestProperties.InputOrderIrrelevant` | src/atlas_trader/application/backtest.py:78-85 | the order of the input list does not matter, for errors either |
| `BacktestProperties.BookIsWellFormed` | src/atlas_trader/application/backtest.py:98-145 | trades alternate BUY and SELL, each SELL sells exactly the last BUY's quantity, and cash and quantity are never both positive |
| `BacktestProperties.CurveIsEquityLike` | src/atlas_trader/application/backtest.py:95-149 | the equity curve starts at the capital and never goes negative |
| `BacktestAccounting.ReportedProfitBound` | src/atlas_trader/application/backtest.py:155-171 | the reported profit and the sum of realized and unrealized results differ by at most 3/2 quanta times entries plus one |
| `BacktestAccounting.BuyCostNearCash` | src/atlas_trader/application/backtest.py:104-107 | spending all the cash books a cost within 3/2 quanta of that cash |
| `BacktestResults.ReportedTotalsAgree` | src/atlas_trader/application/backtest.py:246-272 | gross profit minus gross loss is exactly the sum of the realized results, every exit realizes one, wins and losses are among them, and there is at most one entry more than exits |
| `BacktestResults.ReportMeans` | src/atlas_trader/application/backtest.py:155-287 | equity and profits to the nearest stored amount; total fees exactly the sum of the trades' fees; gross profit and loss exactly the sums of gains and losses; entries, exits, wins and losses are the numbers of such trades and results |
| `BacktestCosts.CostsNeverHelp` | src/atlas_trader/application/backtest.py:98-155 | raising the fee rate or the slippage never raises the ending equity or any point of the curve, through every rounding step, when both runs complete |
| `BacktestCosts.RunsStayOrdered` | src/atlas_trader/application/backtest.py:98-153 | the two runs stay in the same position at every candle, the dearer one never richer |
| `BacktestCosts.ProceedsShrink` | src/atlas_trader/application/backtest.py:125-127 | a smaller gross at a higher fee rate never brings in more, although gross, fee and proceeds are all rounded |
| `Rounding.QuantizeNearest` | src/atlas_trader/application/backtest.py:32-36 | rounding moves a value by at most half a quantum and lands on the grid |
| `Rounding.QuantizeTies` | src/atlas_trader/application/backtest.py:32-36 | a rounded value is the nearest whole number of units of 10^-18, and at a tie the even one |
| `Rounding.QuantizeShift` | src/atlas_trader/application/backtest.py:32-36 | a value that gains strictly less than a whole number of quanta rounds to at most that many quanta more |
| `Rounding.QuantizeShiftTie` | src/atlas_trader/application/backtest.py:32-36 | strictness is needed: at a tie a gain of one quantum rounds to two |
| `Drawdown.MaximumDrawdown` | src/atlas_trader/application/backtest.py:221-231 | one pass returns the rounded worst fall over every pair of points, in amount and, for an equity curve, in percent, at most 100 |
| `Indicators.Ema` | src/atlas_trader/strategies/ema_atr.py:12-24 | the series exists exactly from the end of the warm-up; its first entry times the period is the sum of the first inputs, and each later entry times (period + 1) is the entry before it times (period - 1) plus twice the new input; only a period below one is an error |
| `Indicators.Atr` | src/atlas_trader/strategies/ema_atr.py:27-51 | the same for the true ranges with Wilder's weights: each later entry times the period is the entry before it times (period - 1) plus the new true range |
| `Indicators.TrueRangeMeans` | src/atlas_trader/strategies/ema_atr.py:30-42 | the true range is the distance from the higher of high and previous close to the lower of low and previous close; for the first candle high minus low |
| `Indicators.EmaSeriesUnique` | src/atlas_trader/strategies/ema_atr.py:18-24 | the recurrence leaves no choice: two series that satisfy it are equal |
| `Indicators.PrefixStable` | src/atlas_trader/strategies/ema_atr.py:18-24 | an entry depends on the values up to its index only |
| `Indicators.SmoothedWithin` | src/atlas_trader/strategies/ema_atr.py:18-24 | every entry lies between bounds of its inputs |
| `Indicators.DefinedAfterWarmUp` | src/atlas_trader/strategies/ema_atr.py:15-19 | an entry exists exactly from the end of the warm-up on |
| `EmaAtrStrategy.RunEvaluation` | src/atlas_trader/strategies/ema_atr.py:118-175 | computing the three series and reading their last entries gives the specified decision, which `ActionIsCrossing` and `StopOnLosingSide` tell in numbers |
| `EmaAtrStrategy.FailsOnlyOnBadInput` | src/atlas_trader/strategies/ema_atr.py:118-135 | too short exactly if the candles do not outnumber the slow period and the range period; the warm-up error is unreachable once they do |
| `EmaAtrStrategy.PrefixEvaluation` | src/atlas_trader/strategies/ema_atr.py:127-154 | evaluating a prefix reads the averages and the range that one pass over the whole series computes, and so gives the action and the stop of that pass |
| `EmaAtrStrategy.ActionIsCrossing` | src/atlas_trader/strategies/ema_atr.py:142-146 | on every long enough prefix of a dataset: BUY if and only if the fast average lay at or below the slow one at the candle before and lies above it now, SELL if and only if it lay at or above and lies below |
| `EmaAtrStrategy.SeriesOfCandles` | src/atlas_trader/strategies/ema_atr.py:127-135 | those averages and the range satisfy the recurrences on the candles' closes and true ranges |
| `EmaAtrStrategy.BuysAreSeparated` | src/atlas_trader/strategies/ema_atr.py:142-146 | strictly between two BUY signals there is a SELL or an index where the averages are exactly equal |
| `EmaAtrStrategy.SellsAreSeparated` | src/atlas_trader/strategies/ema_atr.py:142-146 | strictly between two SELL signals there is a BUY or an index where the averages are exactly equal |
| `EmaAtrStrategy.StopOnLosingSide` | src/atlas_trader/strategies/ema_atr.py:148-154 | the stop is exactly the range times the multiple away from the price, on the losing side, positive when there is one; a BUY has none exactly if it would not be positive, a HOLD never has one |
| `EmaAtrStrategy.ScoreAgreesWithAction` | src/atlas_trader/strategies/ema_atr.py:142-165 | the score times the price is the lead of the fast average, positive for a BUY and negative for a SELL |
| `EmaAtrStrategy.NeverFailsInBacktest` | src/atlas_trader/strategies/ema_atr.py:118-135 | inside a validated backtest the strategy never raises |
| `CandleSync.Sync` | src/atlas_trader/application/market_data.py:100-153 | the checks in order, then pages, normalisation and gaps: kept plus locally rejected is received, the first arrival of every wanted time is kept, and gaps and kept candles split the grid exactly |
| `CandleSync.FetchPages` | src/atlas_trader/application/market_data.py:119-137 | the bounded loop yields what requesting page after page yields, or the safety error |
| `CandleSync.CollectMeans` | src/atlas_trader/application/market_data.py:119-137 | requests end at the first page that has no more, fail exactly if every page up to the bound has more, and the candles and the rejected rows are those of all pages so far |
| `CandleSync.PaginationComplete` | src/atlas_trader/application/market_data.py:119-137 | with an adapter that says "more" exactly for full pages and at most the estimated rows, all rows arrive in order in floor(n / size) + 1 requests, also when the size divides the count |
| `CandleSync.MaxPagesMeans` | src/atlas_trader/application/market_data.py:117-118 | the bound on requests is one more than the pages that the grid from start to end fills |
| `CandleSync.Normalize` | src/atlas_trader/application/market_data.py:156-172 | kept candles are aligned, in range, one per time and in order; ties keep the first arrival; nothing wanted is lost; kept plus rejected is received |
| `CandleSync.DetectGaps` | src/atlas_trader/application/market_data.py:175-228 | misaligned or reversed bounds are errors; on aligned bounds it raises if and only if the first time lies less than one candle after the start, or some time less than one candle after its predecessor's next grid point, or the last less than one candle before the end, and otherwise reports the gaps of the sorted list; candles on the requested grid, in any order and with repeated times, never raise, and gaps and distinct times are disjoint, together are exactly the grid, their counts add up, and gaps are maximal; the distinct times are those of the list |
| `CandleSync.GapKinds` | src/atlas_trader/application/market_data.py:187-228 | which kind a gap is: empty without candles, leading from the start to the first candle, internal between two neighbours, trailing without a next candle |
| `Candles.Durations` | src/atlas_trader/domain/enums/timeframe.py:14-24 | the seven timeframes |
| `CandleSync.CountedIffNotNarrow` | src/atlas_trader/application/market_data.py:54-58 | every computed gap counts at least one candle if and only if no gap is less than one candle wide |
| `CandleSync.HalfAStepRaises` | src/atlas_trader/application/market_data.py:58 | one-minute candles at second 0 and second 90: the computed gap counts zero candles |
| `CandleSync.ListInternalGaps` | src/atlas_trader/application/market_data.py:207-218 | the walk over neighbouring candles lists the gaps between them, in order, and fails exactly when one of them counts no candle |
| `CandleSync.GapsOfNormalized` | src/atlas_trader/application/market_data.py:187-228 | the gaps of a normalised list split the grid from start to end exactly with it |
| `CandleSync.RepeatsMakeNoGap` | src/atlas_trader/application/market_data.py:207-209 | repeated times change no gap |
| `RateLimiter.InMemoryRateLimiter.Acquire` | src/atlas_trader/infrastructure/exchanges/nobitex/rate_limit.py:51-63 | records one grant at the present time after at most one sleep, and without one exactly when fewer than the allowed grants are younger than a period; it asks to sleep exactly until the grant that blocks it is a period old |
| `RateLimiter.WindowBound` | src/atlas_trader/infrastructure/exchanges/nobitex/rate_limit.py:55-63 | grants spaced so that the one `requests` places later comes a period later number at most `requests` in every half-open window of one period |
| `RateLimiter.InMemoryRateLimiter.GrantsBounded` | src/atlas_trader/infrastructure/exchanges/nobitex/rate_limit.py:51-63 | over the limiter's own history every half-open window of one period holds at most the allowed number of grants |
| `RateLimiter.TracksGrant` | src/atlas_trader/infrastructure/exchanges/nobitex/rate_limit.py:58-62 | a grant made when the queue has room is a full period after the grant the limit places before it |
| `MetadataCodec.MetadataRoundTrip` | src/atlas_trader/infrastructure/database/repositories/common.py:16-44 | decode after encode gives the metadata back with tuples as lists if and only if no nested dict is exactly the tag key with a text value; the top level is exempt |
| `MetadataCodec.ValueRoundTrip` | src/atlas_trader/infrastructure/database/repositories/common.py:25-44 | the same for one value of any nesting depth |
| `MetadataCodec.ImpostorBecomesDecimal` | src/atlas_trader/infrastructure/database/repositories/common.py:35-39 | the collision, concretely: a nested impostor comes back as a decimal, the same dict as metadata unchanged |
| `MetadataCodec.StoredShape` | src/atlas_trader/infrastructure/database/repositories/common.py:25-32 | how each kind of value is stored, the tag included |
| `MetadataCodec.DecodeFailsIffUnreadable` | src/atlas_trader/infrastructure/database/repositories/common.py:35-44 | decoding fails if and only if somewhere inside there is a float or a tagged text that is not a decimal |

## Left out

Of the PAPER protocol:

- One account, one configuration per run: account ids are not modelled, and settings do not change between steps.
- Hashes: client order ids and execution event ids are the values that are hashed, so they are injective by construction.
- Row ids, the clock, quotes, stored signals and stored markets are inputs of a cycle; that a new intent id is new is assumed.
- Decimal's 28-digit context and the 18 places of the database columns: the PAPER ledger is exact, so the replay equalities are about values that fit.
- Order type, limit price, execution model and the mode fields of an intent: constant for PAPER intents. Assumptions, metadata and event payloads beyond what the theorems read are dropped.
- Lost updates: balances and risk rows are written as absolute values after an earlier read, so ledger equality is claimed for atomic transactions in any order and for interleaved workers on one intent; for workers that read and write interleaved on a mix of intents only the one-fill-per-intent results are. `KillSwitch` and `Transactions` speak of atomic transactions; what the system state loses without atomicity is in `RiskRaces`; about the other columns of the row it proves nothing for overlapping changes.
- Ties between snapshots of the same time: the query leaves open which one is the latest, the model takes the last row. `RiskRow.RiskRowTellsEquity` needs an advancing clock, under which there are none; the other theorems speak of whichever snapshot was taken.
- The session's identity map, SQL text, row converters, isolation levels and HTTP routes. A transaction is atomic and a failed request rolls back.
- Open positions and snapshot equity count the traded market only, as in the code; statements about equity are for one market.

Of the other parts:

- Backtest ratios that only divide reported numbers (return, win rate, profit factor, exposure, buy and hold), dataset fingerprints and result metadata.
- `BacktestCosts.CostsNeverHelp`: two completed runs are compared; a dearer run may instead fail because a price rounds to zero.
- Float division of time spans in candle counts: exact here. Time zone checks: every time is an instant.
- Upsert statistics, market discovery, the exchange client with its parsing and backoff, settings loading, CLI, workflows and migrations: plumbing around the parts that are modelled.
- `RateLimiter.InMemoryRateLimiter.Acquire`: one caller at a time per endpoint, as under the endpoint's lock; the clock never goes back and a sleep lasts at least as long as asked.
- Strategy parameters given as untyped metadata: the model starts from validated parameters.
- `CandleSync.DetectGaps`: for candles off the requested grid the contract says when it raises and which gaps it reports otherwise, and promises nothing about the grid.
