/**
  Reconciliation when the transactions of many cycles interleave: what counts is not when
  requests arrive but the order of the times of the executions that book.
 */
module TransactionClock {
  import opened ClockSkew
  import opened CycleSteps
  import opened Idempotency
  import opened LedgerInvariant
  import opened LedgerSafety
  import opened LedgerSteps
  import opened PaperDomain
  import opened PaperExecution
  import opened PaperLedger
  import opened PaperRepositories
  import opened Reconciliation
  import opened TradingCycle
  import opened TradingRuns
  import opened Transactions
  import opened Wrappers
  import AdminState
  import RiskEngine

  // ---------- executions with advancing times ----------

  /** The time of the cycle whose execution books a fill in this transaction, if one does. */
  function BookedAt(cfg: Config, s: Server, tx: Transaction): seq<int> {
    if tx.Execute? && tx.worker in s.flights && s.flights[tx.worker].Approving? &&
       BookFlight(cfg, s.tables, s.flights[tx.worker]).Ok? &&
       BookFlight(cfg, s.tables, s.flights[tx.worker]).value.1.created then [s.flights[tx.worker].input.now]
    else []
  }

  /** The times of the executions that book, in the order in which they commit. */
  function BookingTimes(cfg: Config, s: Server, txs: seq<Transaction>): seq<int>
    decreases |txs|
  {
    if |txs| == 0 then [] else BookedAt(cfg, s, txs[0]) + BookingTimes(cfg, Commit(cfg, s, txs[0]), txs[1..])
  }

  predicate Increasing(times: seq<int>) {
    forall i, j :: 0 <= i < j < |times| ==> times[i] < times[j]
  }

  function FillTimes(fills: seq<Fill>): seq<int> {
    seq(|fills|, i requires 0 <= i < |fills| => fills[i].executedAt)
  }

  lemma FillTimesAppend(fills: seq<Fill>, f: Fill)
    ensures FillTimes(fills + [f]) == FillTimes(fills) + [f.executedAt]
  {}

  /** A time that no fill is later than. */
  function Clock(t: Tables): int {
    if |t.fills| == 0 then 0 else t.fills[|t.fills| - 1].executedAt
  }

  /** The fills are in order, and no reconciliation has failed. */
  ghost predicate Quiet(cfg: Config, t: Tables) {
    Advancing(cfg, t, Clock(t))
  }

  lemma QuietMeans(cfg: Config, t: Tables, clock: int)
    requires Advancing(cfg, t, clock)
    ensures Quiet(cfg, t) && Increasing(FillTimes(t.fills))
  {
    hide LedgerSound, NeverFailed;
  }

  /** What one transaction does under a quiet reconciliation. */
  ghost predicate StaysQuiet(cfg: Config, s: Server, tx: Transaction) {
    var after := Commit(cfg, s, tx);
    && Quiet(cfg, after.tables)
    && FillTimes(after.tables.fills) == FillTimes(s.tables.fills) + BookedAt(cfg, s, tx)
    && (IsKilled(after.tables) && !IsKilled(s.tables) ==> Orders(tx, AdminState.Kill))
  }

  lemma BeginQuiet(cfg: Config, s: Server, worker: nat, input: CycleInput)
    requires ServerSound(cfg, s) && Quiet(cfg, s.tables) && input.intentId !in s.tables.intents
    ensures StaysQuiet(cfg, s, Begin(worker, input))
  {
    hide LedgerSound, Open, NeverFailed, InOrder, Remembers;
    OpenAdvancing(cfg, s.tables, input, Clock(s.tables));
    OpenEffect(cfg, s.tables, input);
  }

  lemma SettleQuiet(cfg: Config, s: Server, worker: nat)
    requires ServerSound(cfg, s) && Quiet(cfg, s.tables)
    ensures StaysQuiet(cfg, s, Settle(worker))
  {
    hide LedgerSound, Reconcile, NeverFailed, InOrder, Remembers;
    if worker in s.flights && s.flights[worker].Settling? {
      var input := s.flights[worker].input;
      ReconcileAdvancing(cfg, s.tables, input.correlationId, input.now, Clock(s.tables));
      ReconcileFrame(cfg, s.tables, input.correlationId, input.now);
    }
  }

  /** What an execution books is one fill at the cycle's own time. */
  lemma FlightBooks(cfg: Config, t: Tables, f: Flight)
    requires f.Approving? && LedgerSound(cfg, t) && t.risk.Some? && Remembers(cfg, t, f)
    ensures var b := BookFlight(cfg, t, f);
            b.Ok? ==>
              && LedgerSound(cfg, b.value.0) && b.value.0.events == t.events && b.value.0.risk.Some?
              && b.value.0.risk.value.systemState == t.risk.value.systemState
              && if b.value.1.created then
                   b.value.0.fills == t.fills + [b.value.1.fill] && b.value.1.fill.executedAt == f.input.now
                 else b.value.0 == t
  {
    hide LedgerSound, Book, Prepare, OrderSound, FillFor;
    if t.intents[f.intent.id] == f.intent {
      BookMeans(cfg, t, f.intent, f.market, f.ticker, f.input.fillId, f.input.now);
    } else {
      FinalizedMeanwhile(cfg, t, f);
    }
  }

  lemma AdvancesTo(cfg: Config, a: Tables, b: Tables, f: Fill)
    requires Quiet(cfg, a) && LedgerSound(cfg, b) && b.risk.Some? && b.events == a.events && b.fills == a.fills + [f]
    requires Increasing(FillTimes(b.fills))
    ensures Quiet(cfg, b)
  {
    hide LedgerSound, IsFailure;
    var times := FillTimes(b.fills);
    forall i, j | 0 <= i < j < |b.fills| ensures b.fills[i].executedAt < b.fills[j].executedAt {
      assert times[i] < times[j];
    }
  }

  lemma ExecuteQuiet(cfg: Config, s: Server, worker: nat)
    requires ServerSound(cfg, s) && Quiet(cfg, s.tables)
    requires Increasing(FillTimes(s.tables.fills) + BookedAt(cfg, s, Execute(worker)))
    ensures StaysQuiet(cfg, s, Execute(worker))
  {
    hide LedgerSound, Book, NeverFailed, InOrder, Increasing, FillTimes;
    if worker in s.flights && s.flights[worker].Approving? {
      var f, t := s.flights[worker], s.tables;
      assert Remembers(cfg, t, f);
      FlightBooks(cfg, t, f);
      var b := BookFlight(cfg, t, f);
      if b.Err? {
        var failed := Event(EventKind.ExecutionFailed(f.intent.clientOrderId), f.input.correlationId, f.input.now);
        LoggedAdvancing(cfg, t, failed, Clock(t));
      } else if b.value.1.created {
        FillTimesAppend(t.fills, b.value.1.fill);
        AdvancesTo(cfg, t, b.value.0, b.value.1.fill);
      }
    }
  }

  lemma CommitQuiet(cfg: Config, s: Server, tx: Transaction)
    requires ServerSound(cfg, s) && FreshIn(s, tx) && Quiet(cfg, s.tables)
    requires Increasing(FillTimes(s.tables.fills) + BookedAt(cfg, s, tx))
    ensures StaysQuiet(cfg, s, tx)
  {
    hide LedgerSound, Remembers, AfterBegin, AfterExecute, AfterSettle, Reconcile, NeverFailed, InOrder, FillTimes,
      Increasing;
    match tx
    case Start(at) =>
      InitializedHasCash(cfg, s.tables);
      InitializedAlready(cfg, s.tables, at);
    case Arrive(worker, at) =>
    case Begin(worker, input) => BeginQuiet(cfg, s, worker, input);
    case Execute(worker) => ExecuteQuiet(cfg, s, worker);
    case Settle(worker) => SettleQuiet(cfg, s, worker);
    case Die(worker) =>
    case Command(command, request) => CommandAdvancing(cfg, s.tables, command, request, Clock(s.tables));
    case Audit(correlationId, at) =>
      ReconcileAdvancing(cfg, s.tables, correlationId, at, Clock(s.tables));
      ReconcileFrame(cfg, s.tables, correlationId, at);
  }

  ghost predicate KillOrdered(txs: seq<Transaction>) {
    exists n :: 0 <= n < |txs| && Orders(txs[n], AdminState.Kill)
  }

  lemma KillOrderedLater(txs: seq<Transaction>)
    requires |txs| > 0 && KillOrdered(txs[1..])
    ensures KillOrdered(txs)
  {
    var n :| 0 <= n < |txs[1..]| && Orders(txs[1..][n], AdminState.Kill);
    assert Orders(txs[n + 1], AdminState.Kill);
  }

  lemma KillOrderedNow(txs: seq<Transaction>)
    requires |txs| > 0 && Orders(txs[0], AdminState.Kill)
    ensures KillOrdered(txs)
  {}

  lemma IncreasingPrefix(a: seq<int>, b: seq<int>, c: seq<int>)
    requires Increasing(a + (b + c))
    ensures Increasing(a + b) && (a + b) + c == a + (b + c)
  {
    var all := a + (b + c);
    forall i, j | 0 <= i < j < |a + b| ensures (a + b)[i] < (a + b)[j] {
      assert (a + b)[i] == all[i] && (a + b)[j] == all[j];
    }
  }

  lemma {:induction false} ServeQuiet(cfg: Config, s: Server, txs: seq<Transaction>)
    requires ServerSound(cfg, s) && Feasible(cfg, s, txs) && Quiet(cfg, s.tables)
    requires Increasing(FillTimes(s.tables.fills) + BookingTimes(cfg, s, txs))
    ensures var t := Serve(cfg, s, txs).tables;
            && Quiet(cfg, t) && FillTimes(t.fills) == FillTimes(s.tables.fills) + BookingTimes(cfg, s, txs)
            && (IsKilled(t) && !IsKilled(s.tables) ==> KillOrdered(txs))
    decreases |txs|
  {
    hide ServerSound, Commit, FreshIn, Quiet, BookedAt, Increasing, FillTimes, IsKilled, KillOrdered;
    if |txs| > 0 {
      var after, rest := Commit(cfg, s, txs[0]), txs[1..];
      CommitSteps(cfg, s, txs[0]);
      IncreasingPrefix(FillTimes(s.tables.fills), BookedAt(cfg, s, txs[0]), BookingTimes(cfg, after, rest));
      CommitQuiet(cfg, s, txs[0]);
      ServeQuiet(cfg, after, rest);
      if IsKilled(Serve(cfg, s, txs).tables) && !IsKilled(s.tables) {
        if IsKilled(after.tables) {
          KillOrderedNow(txs);
        } else {
          KillOrderedLater(txs);
        }
      }
    } else {
      assert FillTimes(s.tables.fills) + [] == FillTimes(s.tables.fills);
    }
  }

  /**
    However the transactions of any cycles interleave, and whatever clock the requests, the
    commands and the audits carry: as long as the executions that book do so with increasing
    times, no audit and no settlement ever finds an anomaly, and an account that ends KILLED
    was killed by an operator.
   */
  lemma InterleavingNeverKills(cfg: Config, at: int, txs: seq<Transaction>, now: int)
    requires Feasible(cfg, Server(Opened(cfg, at), map[]), txs)
    requires Increasing(BookingTimes(cfg, Server(Opened(cfg, at), map[]), txs))
    ensures var t := Serve(cfg, Server(Opened(cfg, at), map[]), txs).tables;
            && ReportOn(cfg, t, now).consistent
            && (forall n :: 0 <= n < |t.events| ==> !IsFailure(t.events[n]))
            && (IsKilled(t) ==> KillOrdered(txs))
  {
    hide LedgerSound, Serve, Feasible, Opened, BookingTimes, Increasing, ReportOn, IsFailure, InOrder, ServerSound,
      KillOrdered, IsKilled;
    var s := Server(Opened(cfg, at), map[]);
    FreshServer(cfg, at);
    OpenedAdvances(cfg, at);
    QuietMeans(cfg, s.tables, at);
    OpenedHasNoFills(cfg, at);
    assert [] + BookingTimes(cfg, s, txs) == BookingTimes(cfg, s, txs);
    ServeQuiet(cfg, s, txs);
    AdvancingIsConsistent(cfg, Serve(cfg, s, txs).tables, Clock(Serve(cfg, s, txs).tables), now);
  }

  lemma OpenedHasNoFills(cfg: Config, at: int)
    ensures Opened(cfg, at).fills == [] && FillTimes(Opened(cfg, at).fills) == []
  {}

  // ---------- a request that is overtaken ----------

  lemma {:induction false} ServeSplit(cfg: Config, s: Server, first: seq<Transaction>, second: seq<Transaction>)
    ensures Serve(cfg, s, first + second) == Serve(cfg, Serve(cfg, s, first), second)
    ensures Feasible(cfg, s, first + second) <==>
            Feasible(cfg, s, first) && Feasible(cfg, Serve(cfg, s, first), second)
    decreases |first|
  {
    hide Commit, FreshIn;
    if |first| == 0 {
      assert first + second == second;
    } else {
      assert (first + second)[1..] == first[1..] + second;
      ServeSplit(cfg, Commit(cfg, s, first[0]), first[1..], second);
    }
  }

  /** Requests arrive in the order of their times, and nothing but requests happens. */
  predicate RequestsInOrder(txs: seq<Transaction>) {
    && (forall n :: 0 <= n < |txs| ==> txs[n].Arrive? || txs[n].Begin? || txs[n].Execute? || txs[n].Settle?)
    && (forall i, j :: 0 <= i < j < |txs| && txs[i].Arrive? && txs[j].Arrive? ==> txs[i].at < txs[j].at)
  }

  const ARRIVALS: seq<Transaction> := [Arrive(1, SALE.now), Arrive(0, PURCHASE.now)]

  /** The sale arrives at second 10, is overtaken by the purchase of second 20, and only then reads the account. */
  const OVERTAKEN: seq<Transaction> := ARRIVALS + (Alone(0, PURCHASE) + Alone(1, SALE))

  lemma BothArrived(s: Server)
    requires s == Server(START, map[])
    ensures Serve(CONFIG, s, ARRIVALS) == Server(START, map[1 := Arrived(SALE.now), 0 := Arrived(PURCHASE.now)])
    ensures Feasible(CONFIG, s, ARRIVALS)
  {
    hide AfterBegin, AfterExecute, AfterSettle, Opened;
    var s1 := Commit(CONFIG, s, ARRIVALS[0]);
    var s2 := Commit(CONFIG, s1, ARRIVALS[1]);
    assert ARRIVALS[1..] == [ARRIVALS[1]] && [ARRIVALS[1]][1..] == [];
    assert Serve(CONFIG, s1, [ARRIVALS[1]]) == Serve(CONFIG, s2, []);
    assert Feasible(CONFIG, s1, [ARRIVALS[1]]);
  }

  lemma AloneFeasible(cfg: Config, s: Server, worker: nat, input: CycleInput)
    requires FreshIn(s, Begin(worker, input))
    ensures Feasible(cfg, s, Alone(worker, input))
  {
    hide Commit;
    var all := Alone(worker, input);
    var s1 := Commit(cfg, s, all[0]);
    var s2 := Commit(cfg, s1, all[1]);
    assert all[1..][1..] == all[2..] && all[2..][1..] == [];
    assert Feasible(cfg, Commit(cfg, s2, all[2]), []);
    assert Feasible(cfg, s2, all[2..]);
    assert Feasible(cfg, s1, all[1..]);
  }

  lemma CycleServed(cfg: Config, s: Server, worker: nat, input: CycleInput)
    requires FreshIn(s, Begin(worker, input))
    ensures Feasible(cfg, s, Alone(worker, input))
    ensures Serve(cfg, s, Alone(worker, input)) ==
            Server(Next(cfg, s.tables, Trading(input, 3)), s.flights - {worker})
  {
    hide Next, Serve, Feasible;
    AloneFeasible(cfg, s, worker, input);
    CycleIsItsTransactions(cfg, s, worker, input, 3);
    assert Alone(worker, input)[..3] == Alone(worker, input);
  }

  /**
    That no clock goes back is not enough: here the requests arrive in the order of their
    times, but the earlier one is overtaken. Its sale of what the later one bought is booked
    last and listed first; the ledger is right, and the account ends KILLED without a command.
   */
  lemma OvertakenSaleKills()
    ensures RequestsInOrder(OVERTAKEN) && Feasible(CONFIG, Server(START, map[]), OVERTAKEN)
    ensures var t := Serve(CONFIG, Server(START, map[]), OVERTAKEN).tables;
            LedgerSound(CONFIG, t) && IsKilled(t) && !ReportOn(CONFIG, t, SALE.now).consistent
  {
    hide LedgerSound, IsKilled, ReportOn, Serve, Feasible, Next, Opened, OnePurchase, Fillable;
    var s := Server(START, map[]);
    BothArrived(s);
    var arrived := Serve(CONFIG, s, ARRIVALS);
    PurchaseIsFresh();
    CycleServed(CONFIG, arrived, 0, PURCHASE);
    var bought := Serve(CONFIG, arrived, Alone(0, PURCHASE));
    SaleIsFillable();
    CycleServed(CONFIG, bought, 1, SALE);
    ServeSplit(CONFIG, arrived, Alone(0, PURCHASE), Alone(1, SALE));
    ServeSplit(CONFIG, s, ARRIVALS, Alone(0, PURCHASE) + Alone(1, SALE));
    ClockSkewKills();
  }
}
