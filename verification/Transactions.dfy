/**
  Cycles cut at their commits: the transactions of any number of cycles, operator commands
  and reconciliations in any order, each atomic on what is committed when it starts.
 */
module Transactions {
  import opened AdminState
  import opened CycleSteps
  import opened Idempotency
  import opened LedgerInvariant
  import opened LedgerSteps
  import opened PaperDomain
  import opened PaperExecution
  import opened PaperLedger
  import opened PaperRepositories
  import opened Reconciliation
  import opened TradingCycle
  import opened TradingRuns
  import opened Wrappers
  import RiskEngine

  /** Where a request stands between two of its transactions, and what its process remembers. */
  datatype Flight =
    | Arrived(at: int)
    | Approving(input: CycleInput, intent: Intent, market: Market, ticker: Ticker)
    | Settling(input: CycleInput)

  /** The committed rows and the requests in flight, by worker. */
  datatype Server = Server(tables: Tables, flights: map<nat, Flight>)

  datatype Transaction =
    | Start(at: int)
    | Arrive(worker: nat, at: int) // the request reads the clock, before anything else
    | Begin(worker: nat, input: CycleInput)
    | Execute(worker: nat)
    | Settle(worker: nat)
    | Die(worker: nat)
    | Command(command: AdminState.Command, request: Request)
    | Audit(correlationId: string, at: int)

  /** The second transaction of a cycle, on whatever is committed by then. */
  function BookFlight(cfg: Config, t: Tables, f: Flight): Result<(Tables, Execution), Error>
    requires f.Approving?
  {
    Book(cfg, t, f.intent, f.market, f.ticker, f.input.fillId, f.input.now)
  }

  function AfterBegin(cfg: Config, s: Server, worker: nat, input: CycleInput): Server {
    match Open(cfg, s.tables, input)
    case Refused(_) => s.(flights := s.flights - {worker})
    case Holding(held) => Server(held, s.flights - {worker})
    case Decided(begun, decision, intent, market, ticker) =>
      if decision.approved then Server(begun, s.flights[worker := Approving(input, intent, market, ticker)])
      else Server(begun, s.flights - {worker})
  }

  function AfterExecute(cfg: Config, s: Server, worker: nat): Server {
    if worker !in s.flights || !s.flights[worker].Approving? then s
    else
      var f := s.flights[worker];
      match BookFlight(cfg, s.tables, f)
      case Err(_) =>
        Server(Logged(s.tables, EventKind.ExecutionFailed(f.intent.clientOrderId), f.input), s.flights - {worker})
      case Ok((booked, _)) => Server(booked, s.flights[worker := Settling(f.input)])
  }

  function AfterSettle(cfg: Config, s: Server, worker: nat): Server {
    if worker !in s.flights || !s.flights[worker].Settling? then s
    else
      var input := s.flights[worker].input;
      Server(Reconcile(cfg, s.tables, input.correlationId, input.now).0, s.flights - {worker})
  }

  function Commit(cfg: Config, s: Server, tx: Transaction): Server {
    match tx
    case Start(at) => s.(tables := Initialized(cfg, s.tables, at))
    case Arrive(worker, at) => s.(flights := s.flights[worker := Arrived(at)])
    case Begin(worker, input) => AfterBegin(cfg, s, worker, input)
    case Execute(worker) => AfterExecute(cfg, s, worker)
    case Settle(worker) => AfterSettle(cfg, s, worker)
    case Die(worker) => s.(flights := s.flights - {worker})
    case Command(command, request) => s.(tables := Transition(s.tables, command, request).0)
    case Audit(correlationId, at) => s.(tables := Reconcile(cfg, s.tables, correlationId, at).0)
  }

  function Serve(cfg: Config, s: Server, txs: seq<Transaction>): Server
    decreases |txs|
  {
    if |txs| == 0 then s else Serve(cfg, Commit(cfg, s, txs[0]), txs[1..])
  }

  /** A cycle runs at the time its request arrived; a new row id is a random UUID. */
  predicate FreshIn(s: Server, tx: Transaction) {
    tx.Begin? ==>
      && tx.input.intentId !in s.tables.intents
      && tx.worker in s.flights && s.flights[tx.worker] == Arrived(tx.input.now)
  }

  predicate Feasible(cfg: Config, s: Server, txs: seq<Transaction>)
    decreases |txs|
  {
    |txs| == 0 || (FreshIn(s, txs[0]) && Feasible(cfg, Commit(cfg, s, txs[0]), txs[1..]))
  }

  // ---------- the invariant ----------

  /**
    The intent a process remembers is the stored one, but for a finalization in between, and
    it trades for the one asset that has a balance.
   */
  predicate Remembers(cfg: Config, t: Tables, f: Flight) {
    f.Approving? ==>
      && f.intent.id in t.intents && Kept(f.intent, t.intents[f.intent.id])
      && f.market.quoteAsset == cfg.quoteAsset
  }

  ghost predicate ServerSound(cfg: Config, s: Server) {
    && LedgerSound(cfg, s.tables) && s.tables.risk.Some?
    && forall w :: w in s.flights ==> Remembers(cfg, s.tables, s.flights[w])
  }

  /** What a transaction may do to the rows, told from where it starts. */
  ghost predicate Effect(cfg: Config, a: Tables, b: Tables) {
    && LedgerSound(cfg, b) && IntentsKept(a, b) && CycleEffect(a, b)
  }

  lemma StillRemembers(cfg: Config, a: Tables, b: Tables, f: Flight)
    requires Remembers(cfg, a, f) && IntentsKept(a, b)
    ensures Remembers(cfg, b, f)
  {
    if f.Approving? {
      assert Kept(a.intents[f.intent.id], b.intents[f.intent.id]);
    }
  }

  /**
    When another cycle has finalized the remembered intent, execution changes nothing and
    answers with its fill and the rows as they are.
   */
  lemma FinalizedMeanwhile(cfg: Config, t: Tables, f: Flight)
    requires f.Approving? && LedgerSound(cfg, t) && Remembers(cfg, t, f) && t.intents[f.intent.id] != f.intent
    ensures FillFor(t.fills, f.intent.id).Some? && f.market.quoteAsset in t.balances
    ensures var fill := FillFor(t.fills, f.intent.id).value;
            && fill.key in t.positions && LatestSnapshot(t.snapshots).Some?
            && BookFlight(cfg, t, f) ==
               Ok((t, Execution(fill, t.balances[f.market.quoteAsset], t.positions[fill.key],
                                LatestSnapshot(t.snapshots).value, false)))
  {
    FilledByItsIntent(cfg, t, f.intent.id);
    FillIsComplete(cfg, t, f.intent.id);
    OneBalance(cfg, t);
    MeanwhileExists(cfg, t, f);
    hide LedgerSound, Prepare, FillFor, LatestSnapshot;
  }

  lemma MeanwhileExists(cfg: Config, t: Tables, f: Flight)
    requires f.Approving? && Remembers(cfg, t, f) && FillFor(t.fills, f.intent.id).Some?
    ensures Prepare(cfg, t, f.intent, f.market, f.ticker, f.input.fillId, f.input.now)
            == Ok(Existing(FillFor(t.fills, f.intent.id).value))
  {
    hide FillFor;
  }

  /** The execution transaction keeps the ledger, also when commands and other cycles came in between. */
  lemma ExecuteEffect(cfg: Config, t: Tables, f: Flight)
    requires f.Approving? && LedgerSound(cfg, t) && t.risk.Some? && Remembers(cfg, t, f)
    ensures var b := BookFlight(cfg, t, f);
            b.Ok? ==> Effect(cfg, t, b.value.0) && b.value.0.risk.value.systemState == t.risk.value.systemState
  {
    hide LedgerSound, IntentsKept, Book, Prepare, OrderSound, FillFor;
    if t.intents[f.intent.id] == f.intent {
      BookMeans(cfg, t, f.intent, f.market, f.ticker, f.input.fillId, f.input.now);
      ExecuteKeepsIntents(cfg, t, f);
    } else {
      FinalizedMeanwhile(cfg, t, f);
      NothingChanged(t);
    }
  }

  lemma NothingChanged(t: Tables)
    ensures IntentsKept(t, t)
  {}

  lemma ExecuteKeepsIntents(cfg: Config, t: Tables, f: Flight)
    requires f.Approving? && LedgerSound(cfg, t) && f.intent.id in t.intents && t.intents[f.intent.id] == f.intent
    ensures BookFlight(cfg, t, f).Ok? ==> IntentsKept(t, BookFlight(cfg, t, f).value.0)
  {
    hide LedgerSound, Book, Prepare, FillFor, RecordExecution, Apply, SnapshotOf, Worth, FeeOf;
    BookMeans(cfg, t, f.intent, f.market, f.ticker, f.input.fillId, f.input.now);
  }

  lemma BeginEffect(cfg: Config, t: Tables, input: CycleInput)
    requires LedgerSound(cfg, t) && t.risk.Some? && input.intentId !in t.intents
    ensures var o := Open(cfg, t, input);
            && (!o.Refused? ==> Effect(cfg, t, o.tables) && o.tables.fills == t.fills)
            && (o.Decided? ==> Remembers(cfg, o.tables, Approving(input, o.intent, o.market, o.ticker)))
  {
    hide LedgerSound, Open, RiskEngine.Permits, ContextIn, OpeningKind, ResetRisk;
    OpenMeans(cfg, t, input);
    OpenEffect(cfg, t, input);
    OpenKeepsIntents(cfg, t, input);
    OneBalance(cfg, t);
  }

  lemma FrameEffect(cfg: Config, a: Tables, b: Tables)
    requires LedgerSound(cfg, a) && SameLedger(b, a) && CycleEffect(a, b)
    ensures Effect(cfg, a, b)
  {
    hide LedgerSound;
    LedgerFrame(cfg, a, b);
  }

  lemma ReconciledEffect(cfg: Config, t: Tables, correlationId: string, now: int)
    requires LedgerSound(cfg, t) && t.risk.Some?
    ensures Effect(cfg, t, Reconcile(cfg, t, correlationId, now).0)
    ensures Reconcile(cfg, t, correlationId, now).0.fills == t.fills
  {
    hide LedgerSound, Reconcile;
    ReconcileEffect(cfg, t, correlationId, now);
    ReconcileFrame(cfg, t, correlationId, now);
    FrameEffect(cfg, t, Reconcile(cfg, t, correlationId, now).0);
  }

  lemma EffectSound(cfg: Config, s: Server, after: Server)
    requires ServerSound(cfg, s) && LedgerSound(cfg, after.tables) && after.tables.risk.Some?
    requires IntentsKept(s.tables, after.tables)
    requires forall w :: w in after.flights ==>
               (w in s.flights && after.flights[w] == s.flights[w]) || Remembers(cfg, after.tables, after.flights[w])
    ensures ServerSound(cfg, after)
  {
    hide LedgerSound, Remembers, IntentsKept;
    forall w | w in after.flights ensures Remembers(cfg, after.tables, after.flights[w]) {
      if w in s.flights && after.flights[w] == s.flights[w] {
        StillRemembers(cfg, s.tables, after.tables, s.flights[w]);
      }
    }
  }

  // ---------- one transaction ----------

  lemma ArriveSound(cfg: Config, s: Server, worker: nat, at: int)
    requires ServerSound(cfg, s)
    ensures ServerSound(cfg, s.(flights := s.flights[worker := Arrived(at)]))
  {
    hide LedgerSound;
  }

  lemma BeginSound(cfg: Config, s: Server, worker: nat, input: CycleInput)
    requires ServerSound(cfg, s) && input.intentId !in s.tables.intents
    ensures var after := AfterBegin(cfg, s, worker, input);
            ServerSound(cfg, after) && CycleEffect(s.tables, after.tables) && after.tables.fills == s.tables.fills
  {
    hide LedgerSound, IntentsKept, Open, Remembers;
    BeginEffect(cfg, s.tables, input);
    NothingChanged(s.tables);
    EffectSound(cfg, s, AfterBegin(cfg, s, worker, input));
  }

  lemma ExecuteSound(cfg: Config, s: Server, worker: nat)
    requires ServerSound(cfg, s)
    ensures var after := AfterExecute(cfg, s, worker);
            && ServerSound(cfg, after) && CycleEffect(s.tables, after.tables)
            && after.tables.risk.value.systemState == s.tables.risk.value.systemState
  {
    hide LedgerSound, IntentsKept, Book, Remembers;
    NothingChanged(s.tables);
    if worker in s.flights && s.flights[worker].Approving? {
      var f := s.flights[worker];
      ExecuteEffect(cfg, s.tables, f);
      var logged := Logged(s.tables, EventKind.ExecutionFailed(f.intent.clientOrderId), f.input);
      LedgerFrame(cfg, s.tables, logged);
      LoggedKeepsIntents(s.tables, EventKind.ExecutionFailed(f.intent.clientOrderId), f.input);
      NothingToRemember(cfg, AfterExecute(cfg, s, worker).tables, f.input);
    }
    EffectSound(cfg, s, AfterExecute(cfg, s, worker));
  }

  lemma NothingToRemember(cfg: Config, t: Tables, input: CycleInput)
    ensures Remembers(cfg, t, Settling(input))
  {}

  lemma LoggedKeepsIntents(t: Tables, kind: EventKind, input: CycleInput)
    ensures IntentsKept(t, Logged(t, kind, input))
  {}

  lemma SettleSound(cfg: Config, s: Server, worker: nat)
    requires ServerSound(cfg, s)
    ensures var after := AfterSettle(cfg, s, worker);
            ServerSound(cfg, after) && CycleEffect(s.tables, after.tables) && after.tables.fills == s.tables.fills
  {
    hide LedgerSound, IntentsKept, Reconcile, Remembers;
    NothingChanged(s.tables);
    if worker in s.flights && s.flights[worker].Settling? {
      var input := s.flights[worker].input;
      ReconciledEffect(cfg, s.tables, input.correlationId, input.now);
    }
    EffectSound(cfg, s, AfterSettle(cfg, s, worker));
  }

  lemma CommandSound(cfg: Config, s: Server, c: AdminState.Command, r: Request)
    requires ServerSound(cfg, s)
    ensures var after := s.(tables := Transition(s.tables, c, r).0);
            ServerSound(cfg, after) && after.tables.fills == s.tables.fills
  {
    hide LedgerSound, Remembers;
    var after := s.(tables := Transition(s.tables, c, r).0);
    LedgerFrame(cfg, s.tables, after.tables);
    EffectSound(cfg, s, after);
  }

  lemma AuditSound(cfg: Config, s: Server, correlationId: string, at: int)
    requires ServerSound(cfg, s)
    ensures var after := s.(tables := Reconcile(cfg, s.tables, correlationId, at).0);
            ServerSound(cfg, after) && CycleEffect(s.tables, after.tables) && after.tables.fills == s.tables.fills
  {
    hide LedgerSound, IntentsKept, Reconcile, Remembers;
    ReconciledEffect(cfg, s.tables, correlationId, at);
    EffectSound(cfg, s, s.(tables := Reconcile(cfg, s.tables, correlationId, at).0));
  }

  predicate Orders(tx: Transaction, c: AdminState.Command) {
    tx.Command? && tx.command == c
  }

  /**
    Every transaction keeps the ledger. Fills appear only in an execution that itself starts
    ENABLED; KILLED is left only by a reset and only to PAUSED, PAUSED only by a kill or a resume.
   */
  lemma CommitSteps(cfg: Config, s: Server, tx: Transaction)
    requires ServerSound(cfg, s) && FreshIn(s, tx)
    ensures var after := Commit(cfg, s, tx);
            && ServerSound(cfg, after) && s.tables.fills <= after.tables.fills
            && var before, later := s.tables.risk.value.systemState, after.tables.risk.value.systemState;
            && (before == Killed && later != Killed ==> Orders(tx, ResetKilled) && later == Paused)
            && (before == Paused && later != Paused ==> later == Killed || (Orders(tx, Resume) && later == Enabled))
            && (after.tables.fills != s.tables.fills ==> tx.Execute? && before == Enabled)
  {
    hide LedgerSound, Remembers, AfterBegin, AfterExecute, AfterSettle, Reconcile;
    match tx
    case Start(at) =>
      InitializedHasCash(cfg, s.tables);
      InitializedAlready(cfg, s.tables, at);
    case Arrive(worker, at) => ArriveSound(cfg, s, worker, at);
    case Begin(worker, input) => BeginSound(cfg, s, worker, input);
    case Execute(worker) => ExecuteSound(cfg, s, worker);
    case Settle(worker) => SettleSound(cfg, s, worker);
    case Die(worker) =>
    case Command(command, request) => CommandSound(cfg, s, command, request);
    case Audit(correlationId, at) => AuditSound(cfg, s, correlationId, at);
  }

  // ---------- any order of transactions ----------

  lemma {:induction false} ServeSound(cfg: Config, s: Server, txs: seq<Transaction>)
    requires ServerSound(cfg, s) && Feasible(cfg, s, txs)
    ensures ServerSound(cfg, Serve(cfg, s, txs)) && s.tables.fills <= Serve(cfg, s, txs).tables.fills
    ensures Serve(cfg, s, txs).tables.fills != s.tables.fills ==> exists n :: 0 <= n < |txs| && txs[n].Execute?
    decreases |txs|
  {
    hide ServerSound, Commit, FreshIn;
    if |txs| > 0 {
      CommitSteps(cfg, s, txs[0]);
      ServeSound(cfg, Commit(cfg, s, txs[0]), txs[1..]);
      if !txs[0].Execute? && Serve(cfg, s, txs).tables.fills != s.tables.fills {
        var n :| 0 <= n < |txs[1..]| && txs[1..][n].Execute?;
        assert txs[n + 1].Execute?;
      }
    }
  }

  /**
    The ledger invariant holds after any sequence of transactions from a fresh account, however
    the transactions of the cycles interleave with each other and with operator commands.
   */
  lemma LedgerSurvivesInterleaving(cfg: Config, at: int, txs: seq<Transaction>)
    requires Feasible(cfg, Server(Opened(cfg, at), map[]), txs)
    ensures LedgerSound(cfg, Serve(cfg, Server(Opened(cfg, at), map[]), txs).tables)
  {
    OpenedSound(cfg, at);
    hide LedgerSound, Serve, Feasible, Opened;
    FreshServer(cfg, at);
    ServeSound(cfg, Server(Opened(cfg, at), map[]), txs);
  }

  lemma FreshServer(cfg: Config, at: int)
    ensures ServerSound(cfg, Server(Opened(cfg, at), map[]))
  {
    OpenedSound(cfg, at);
    hide LedgerSound;
  }

  // ---------- the kill switch between transactions ----------

  ghost predicate ResumedThenExecuted(txs: seq<Transaction>) {
    exists j, k :: 0 <= j < k < |txs| && Orders(txs[j], Resume) && txs[k].Execute?
  }

  ghost predicate ResetResumedThenExecuted(txs: seq<Transaction>) {
    exists i, j, k :: 0 <= i < j < k < |txs| && Orders(txs[i], ResetKilled) && Orders(txs[j], Resume) && txs[k].Execute?
  }

  /**
    From PAUSED a new fill takes a resume and then an execution transaction; from KILLED a
    reset before those. An intent that was approved before the stop is no way around it.
   */
  lemma {:induction false} StopHoldsBetweenTransactions(cfg: Config, s: Server, txs: seq<Transaction>)
    requires ServerSound(cfg, s) && Feasible(cfg, s, txs)
    requires s.tables.risk.value.systemState != Enabled && Serve(cfg, s, txs).tables.fills != s.tables.fills
    ensures ResumedThenExecuted(txs)
    ensures s.tables.risk.value.systemState == Killed ==> ResetResumedThenExecuted(txs)
    decreases |txs|
  {
    hide LedgerSound, Remembers, Commit, FreshIn;
    var tx, rest := txs[0], txs[1..];
    var after := Commit(cfg, s, tx);
    CommitSteps(cfg, s, tx);
    if after.tables.risk.value.systemState == Enabled {
      ServeSound(cfg, after, rest);
      var k :| 0 <= k < |rest| && rest[k].Execute?;
      assert Orders(txs[0], Resume) && txs[k + 1].Execute?;
    } else {
      StopHoldsBetweenTransactions(cfg, after, rest);
      if after.tables.risk.value.systemState == Killed {
        LaterResetTx(txs);
      } else {
        LaterResumeTx(txs);
      }
    }
  }

  lemma LaterResumeTx(txs: seq<Transaction>)
    requires |txs| > 0 && ResumedThenExecuted(txs[1..])
    ensures ResumedThenExecuted(txs)
    ensures Orders(txs[0], ResetKilled) ==> ResetResumedThenExecuted(txs)
  {
    var rest := txs[1..];
    var j, k :| 0 <= j < k < |rest| && Orders(rest[j], Resume) && rest[k].Execute?;
    assert Orders(txs[j + 1], Resume) && txs[k + 1].Execute?;
  }

  lemma LaterResetTx(txs: seq<Transaction>)
    requires |txs| > 0 && ResetResumedThenExecuted(txs[1..])
    ensures ResetResumedThenExecuted(txs) && ResumedThenExecuted(txs)
  {
    var rest := txs[1..];
    var i, j, k :|
      0 <= i < j < k < |rest| && Orders(rest[i], ResetKilled) && Orders(rest[j], Resume) && rest[k].Execute?;
    assert Orders(txs[i + 1], ResetKilled) && Orders(txs[j + 1], Resume) && txs[k + 1].Execute?;
  }

  /**
    A pending execution that finds the system stopped is refused: nothing is booked, the
    failure is logged, and the intent stays as it was.
   */
  lemma PendingExecutionIsBlocked(cfg: Config, s: Server, worker: nat)
    requires ServerSound(cfg, s) && worker in s.flights && s.flights[worker].Approving?
    requires s.tables.risk.value.systemState != Enabled && FillFor(s.tables.fills, s.flights[worker].intent.id).None?
    ensures var f, after := s.flights[worker], Commit(cfg, s, Execute(worker));
            && BookFlight(cfg, s.tables, f) == Err(StateBlocksExecution)
            && worker !in after.flights && SameLedger(after.tables, s.tables) && after.tables.risk == s.tables.risk
            && after.tables.events == s.tables.events +
               [Event(EventKind.ExecutionFailed(f.intent.clientOrderId), f.input.correlationId, f.input.now)]
  {
    hide LedgerSound, FillFor, Apply, ExecutionPrice, SnapshotOf;
    var f := s.flights[worker];
    assert Remembers(cfg, s.tables, f);
    CreatedHasRisk(cfg, s.tables, f.intent, f.market, f.ticker, f.input.fillId, f.input.now);
  }

  /** Approved, then stopped by an operator, then executed: the approval is worth nothing any more. */
  lemma StopOverridesApproval(cfg: Config, t: Tables, worker: nat, input: CycleInput, c: AdminState.Command, r: Request)
    requires LedgerSound(cfg, t) && t.risk.Some? && input.intentId !in t.intents && (c == Pause || c == Kill)
    requires var o := Open(cfg, t, input); o.Decided? && o.decision.approved && FillFor(t.fills, o.intent.id).None?
    ensures Serve(cfg, Server(t, map[]), [Begin(worker, input), Command(c, r), Execute(worker)]).tables.fills == t.fills
  {
    hide LedgerSound, Open, Book, FillFor, ContextIn, Worth, RiskEngine.Share, RiskEngine.Loss, Reconcile, AfterSettle;
    var s := Server(t, map[]);
    OpenMeans(cfg, t, input);
    OpenEffect(cfg, t, input);
    var o := Open(cfg, t, input);
    BeginSound(cfg, s, worker, input);
    var begun := AfterBegin(cfg, s, worker, input);
    CommandSound(cfg, begun, c, r);
    var stopped := Commit(cfg, begun, Command(c, r));
    PendingExecutionIsBlocked(cfg, stopped, worker);
    ThreeServed(cfg, s, Begin(worker, input), Command(c, r), Execute(worker));
  }

  lemma ThreeServed(cfg: Config, s: Server, a: Transaction, b: Transaction, c: Transaction)
    ensures Serve(cfg, s, [a, b, c]) == Commit(cfg, Commit(cfg, Commit(cfg, s, a), b), c)
  {
    hide Commit;
    var s1 := Commit(cfg, s, a);
    var s2 := Commit(cfg, s1, b);
    assert [a, b, c][1..] == [b, c] && [b, c][1..] == [c] && [c][1..] == [];
    assert Serve(cfg, s, [a, b, c]) == Serve(cfg, s1, [b, c]);
    assert Serve(cfg, s1, [b, c]) == Serve(cfg, s2, [c]);
    assert Serve(cfg, s2, [c]) == Serve(cfg, Commit(cfg, s2, c), []);
  }

  // ---------- a cycle is its transactions ----------

  /** The transactions of one cycle in a row. */
  function Alone(worker: nat, input: CycleInput): seq<Transaction> {
    [Begin(worker, input), Execute(worker), Settle(worker)]
  }

  /**
    Without anything in between, the first transactions of a cycle commit what the cycle
    does up to there, whoever else is in flight.
   */
  lemma CycleIsItsTransactions(cfg: Config, s: Server, worker: nat, input: CycleInput, k: nat)
    requires k <= 3
    ensures var after := Serve(cfg, s, Alone(worker, input)[..k]);
            && after.tables == Next(cfg, s.tables, Trading(input, k))
            && (k == 3 ==> after.flights == s.flights - {worker})
  {
    hide Open, Book, Reconcile, Cycle;
    CycleStages(cfg, s.tables, input);
    ServePrefix(cfg, s, worker, input, k);
  }

  lemma ServePrefix(cfg: Config, s: Server, worker: nat, input: CycleInput, k: nat)
    requires k <= 3
    ensures var s1 := AfterBegin(cfg, s, worker, input);
            var s2 := AfterExecute(cfg, s1, worker);
            Serve(cfg, s, Alone(worker, input)[..k]) ==
            if k == 0 then s else if k == 1 then s1 else if k == 2 then s2 else AfterSettle(cfg, s2, worker)
  {
    hide AfterBegin, AfterExecute, AfterSettle;
    var all := Alone(worker, input);
    var s1 := AfterBegin(cfg, s, worker, input);
    var s2 := AfterExecute(cfg, s1, worker);
    if k >= 1 {
      assert all[..k][1..] == all[1..k];
      assert Serve(cfg, s, all[..k]) == Serve(cfg, s1, all[1..k]);
    }
    if k >= 2 {
      assert all[1..k][1..] == all[2..k];
      assert Serve(cfg, s1, all[1..k]) == Serve(cfg, s2, all[2..k]);
    }
    if k == 3 {
      assert all[2..3][1..] == [];
      assert Serve(cfg, s2, all[2..3]) == Serve(cfg, AfterSettle(cfg, s2, worker), []);
    }
  }
}
