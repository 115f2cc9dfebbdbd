/**
  Execution workers that interleave: each reads and prepares on what is committed then,
  and later applies its order in one atomic transaction.
 */
module Workers {
  import opened CycleSteps
  import opened Idempotency
  import opened LedgerInvariant
  import opened LedgerSteps
  import opened PaperDomain
  import opened PaperExecution
  import opened PaperLedger
  import opened PaperRepositories
  import opened ReconciliationProperties
  import opened TradingCycle
  import opened TradingRuns
  import opened Wrappers

  /** What one worker is asked to execute, and when. */
  datatype Attempt = Attempt(intent: Intent, market: Market, ticker: Ticker, fillId: nat, now: int)

  datatype Pending = Pending(attempt: Attempt, prepared: Result<Prepared, Error>)

  datatype Answer = Won(fill: Fill) | Found(fill: Fill) | Declined(error: Error)

  /** What a worker was answered, and to which attempt. */
  datatype Reply = Reply(attempt: Attempt, answer: Answer)

  /** The committed rows, what each worker has prepared, and what each was last answered. */
  datatype World = World(tables: Tables, pending: map<nat, Pending>, replies: map<nat, Reply>)

  datatype Move = Read(worker: nat, attempt: Attempt) | Write(worker: nat)

  function PrepareFor(cfg: Config, t: Tables, a: Attempt): Result<Prepared, Error> {
    Prepare(cfg, t, a.intent, a.market, a.ticker, a.fillId, a.now)
  }

  /** The answer when the fill is there already. */
  function Reloaded(t: Tables, fill: Fill, a: Attempt): Answer {
    match Reload(t, fill, a.market.quoteAsset)
    case Err(e) => Declined(e)
    case Ok(_) => Found(fill)
  }

  /** The apply transaction: the order is booked and recorded, or everything is rolled back. */
  function Attempted(cfg: Config, t: Tables, a: Attempt, o: Order): (Tables, Answer) {
    var (after, stored) := ApplyExecution(t, a.intent.id, o);
    match stored
    case Err(e) => (t, Declined(e))
    case Ok((fill, created)) =>
      if !created then (t, Reloaded(t, fill, a))
      else if after.risk.None? then (t, Declined(NotInitialized))
      else
        var e := Execution(o.fill, o.balance, o.position, o.snapshot, true);
        (after.(risk := Some(RecordExecution(cfg, after.risk.value, e, a.now))), Won(fill))
  }

  /** How a worker ends with what it has prepared: the rows it leaves committed, and its answer. */
  function Ended(cfg: Config, t: Tables, p: Pending): (Tables, Answer) {
    match p.prepared
    case Err(e) => (t, Declined(e))
    case Ok(Existing(fill)) => (t, Reloaded(t, fill, p.attempt))
    case Ok(Ready(o)) => Attempted(cfg, t, p.attempt, o)
  }

  function Advance(cfg: Config, w: World, move: Move): World {
    match move
    case Read(k, a) => w.(pending := w.pending[k := Pending(a, PrepareFor(cfg, w.tables, a))])
    case Write(k) =>
      if k !in w.pending then w
      else
        var (tables, answer) := Ended(cfg, w.tables, w.pending[k]);
        w.(tables := tables, replies := w.replies[k := Reply(w.pending[k].attempt, answer)])
  }

  function Work(cfg: Config, w: World, moves: seq<Move>): World {
    if |moves| == 0 then w else Advance(cfg, Work(cfg, w, moves[..|moves| - 1]), moves[|moves| - 1])
  }

  function Idle(t: Tables): World {
    World(t, map[], map[])
  }

  // ---------- any number of workers on one intent ----------

  predicate OnIntent(moves: seq<Move>, intent: Intent) {
    forall n :: 0 <= n < |moves| && moves[n].Read? ==> moves[n].attempt.intent == intent
  }

  /** An approved intent that nobody has executed yet. */
  ghost predicate Unfilled(cfg: Config, t: Tables, intent: Intent) {
    LedgerSound(cfg, t) && t.risk.Some? && intent.id in t.intents && t.intents[intent.id] == intent &&
    FillFor(t.fills, intent.id).None?
  }

  /** An attempt on the intent that the rows of the start let through. */
  predicate Executable(cfg: Config, t: Tables, a: Attempt) {
    PrepareFor(cfg, t, a).Ok?
  }

  /** Nobody has won: nothing is written, and whoever was answered was refused for its own sake. */
  predicate Untouched(cfg: Config, t: Tables, intent: Intent, w: World) {
    && w.tables == t
    && (forall k :: k in w.pending ==>
          w.pending[k].attempt.intent == intent && w.pending[k].prepared == PrepareFor(cfg, t, w.pending[k].attempt))
    && (forall k :: k in w.replies ==>
          var r := w.replies[k];
          r.attempt.intent == intent && r.answer.Declined? && PrepareFor(cfg, t, r.attempt) == Err(r.answer.error))
  }

  /** The serial execution of an attempt on the rows of the start. */
  function Serially(cfg: Config, t: Tables, a: Attempt): Result<(Tables, Execution), Error> {
    Book(cfg, t, a.intent, a.market, a.ticker, a.fillId, a.now)
  }

  /** Prepared before the win, on the rows of the start, or after it, when the fill is there. */
  predicate PreparedFor(cfg: Config, t: Tables, intent: Intent, fill: Fill, p: Pending) {
    && p.attempt.intent == intent
    && (p.prepared == PrepareFor(cfg, t, p.attempt) || p.prepared == Ok(Existing(fill)))
  }

  /**
    The answer is the fill; only an attempt that the rows of the start refuse anyway may be
    declined, for that reason or because its market's quote asset has no balance.
   */
  predicate AnsweredFor(cfg: Config, t: Tables, intent: Intent, fill: Fill, r: Reply) {
    && r.attempt.intent == intent
    && if r.answer.Declined? then
         && !Executable(cfg, t, r.attempt)
         && (PrepareFor(cfg, t, r.attempt) == Err(r.answer.error) ||
             (r.answer.error == ExecutionIncomplete && r.attempt.market.quoteAsset !in t.balances))
       else r.answer.fill == fill
  }

  /**
    Worker `k` has won with attempt `a`: the rows are those of its serial execution, the
    only new fill is its own, and every answer is that fill, but for attempts that could
    not have been executed.
   */
  predicate WonBy(cfg: Config, t: Tables, intent: Intent, w: World, k: nat, a: Attempt) {
    && a.intent == intent && Executable(cfg, t, a)
    && var s := Serially(cfg, t, a);
    && s.Ok? && s.value.1.created && w.tables == s.value.0
    && var fill := s.value.1.fill;
    && w.tables.fills == t.fills + [fill] && FillFor(w.tables.fills, intent.id) == Some(fill)
    && (forall j :: j in w.pending ==> PreparedFor(cfg, t, intent, fill, w.pending[j]))
    && (forall j :: j in w.replies ==> AnsweredFor(cfg, t, intent, fill, w.replies[j]))
    && (forall j :: j in w.replies && w.replies[j].answer.Won? ==> j == k)
  }

  ghost predicate Decided(cfg: Config, t: Tables, intent: Intent, w: World) {
    exists k, a :: WonBy(cfg, t, intent, w, k, a)
  }

  /** The first to apply wins, and what it commits is its serial execution. */
  lemma FirstWins(cfg: Config, t: Tables, intent: Intent, a: Attempt)
    requires Unfilled(cfg, t, intent) && a.intent == intent
    ensures var p := PrepareFor(cfg, t, a);
            && (p.Ok? ==> p.value.Ready? && a.market.quoteAsset in t.balances)
            && (p.Ok? ==>
                  var s := Serially(cfg, t, a);
                  && s.Ok? && s.value.1.created
                  && Attempted(cfg, t, a, p.value.order) == (s.value.0, Won(s.value.1.fill))
                  && s.value.0.fills == t.fills + [s.value.1.fill]
                  && FillFor(s.value.0.fills, intent.id) == Some(s.value.1.fill))
  {
    hide LedgerSound, Prepare, RecordExecution, Apply, Worth, FeeOf, SnapshotOf, FillFor, ApplyExecution, Execute;
    PrepareMeans(cfg, t, intent, a.market, a.ticker, a.fillId, a.now);
    var p := PrepareFor(cfg, t, a);
    if p.Ok? && p.value.Ready? {
      var o := p.value.order;
      ApplyExecutionKeeps(cfg, t, intent, a.ticker.last, o);
      ReadyIsBooked(cfg, t, intent, a.market, a.ticker, a.fillId, a.now);
      FillForAppend(t.fills, o.fill, intent.id);
    }
  }

  /** What the winner commits is enough to hand out its fill, in every market with a balance. */
  lemma WinnerIsComplete(cfg: Config, t: Tables, intent: Intent, a: Attempt)
    requires Unfilled(cfg, t, intent) && a.intent == intent && Executable(cfg, t, a)
    ensures var s := Serially(cfg, t, a);
            && s.Ok? && LedgerSound(cfg, s.value.0) && FillFor(s.value.0.fills, intent.id) == Some(s.value.1.fill)
            && intent.id in s.value.0.intents && SignatureOf(s.value.0.intents[intent.id]) == SignatureOf(intent)
            && forall b: Attempt ::
                 Reloaded(s.value.0, s.value.1.fill, b) ==
                 if b.market.quoteAsset in t.balances then Found(s.value.1.fill) else Declined(ExecutionIncomplete)
  {
    hide LedgerSound, Prepare, RecordExecution, OrderSound, FillFor, ApplyExecution, Execute, Attempted, Book,
      LatestSnapshot;
    FirstWins(cfg, t, intent, a);
    SerialSound(cfg, t, a);
    BookMeans(cfg, t, intent, a.market, a.ticker, a.fillId, a.now);
    var after := Serially(cfg, t, a).value.0;
    FillIsComplete(cfg, after, intent.id);
    OneBalance(cfg, t);
    OneBalance(cfg, after);
  }

  lemma ReadUntouched(cfg: Config, t: Tables, intent: Intent, w: World, k: nat, a: Attempt)
    requires Untouched(cfg, t, intent, w) && a.intent == intent
    ensures Untouched(cfg, t, intent, Advance(cfg, w, Read(k, a)))
  {
    hide Prepare;
  }

  /** A write that carries an executable attempt decides, any other leaves everything. */
  lemma WriteUntouched(cfg: Config, t: Tables, intent: Intent, w: World, k: nat)
    requires Unfilled(cfg, t, intent) && Untouched(cfg, t, intent, w)
    ensures var after := Advance(cfg, w, Write(k));
            if k in w.pending && Executable(cfg, t, w.pending[k].attempt) then
              WonBy(cfg, t, intent, after, k, w.pending[k].attempt)
            else Untouched(cfg, t, intent, after)
  {
    hide Prepare, Attempted, Book, FillFor, Unfilled;
    if k in w.pending {
      FirstWins(cfg, t, intent, w.pending[k].attempt);
    }
  }

  /** Once somebody has won, readers find that fill and writers are answered with it. */
  lemma AfterWin(cfg: Config, t: Tables, intent: Intent, w: World, k: nat, a: Attempt, move: Move)
    requires Unfilled(cfg, t, intent)
    requires WonBy(cfg, t, intent, w, k, a) && (move.Read? ==> move.attempt.intent == intent)
    ensures WonBy(cfg, t, intent, Advance(cfg, w, move), k, a)
  {
    hide Serially, FillFor, PrepareFor, Unfilled, AnsweredFor, PreparedFor, Ended, Executable;
    var fill := Serially(cfg, t, a).value.1.fill;
    match move
    case Read(j, b) =>
      LateRead(cfg, t, intent, w.tables, a, b);
    case Write(j) =>
      if j in w.pending {
        assert PreparedFor(cfg, t, intent, fill, w.pending[j]);
        LateEnd(cfg, t, intent, w.tables, a, w.pending[j]);
      }
  }

  lemma LateRead(cfg: Config, t: Tables, intent: Intent, won: Tables, a: Attempt, b: Attempt)
    requires Unfilled(cfg, t, intent) && a.intent == b.intent == intent && Executable(cfg, t, a)
    requires Serially(cfg, t, a).Ok? && won == Serially(cfg, t, a).value.0
    ensures PreparedFor(cfg, t, intent, Serially(cfg, t, a).value.1.fill, Pending(b, PrepareFor(cfg, won, b)))
  {
    hide Serially, FillFor, PrepareFor, Unfilled, Reloaded, Executable;
    WinnerIsComplete(cfg, t, intent, a);
    LateReader(cfg, won, b);
  }

  /** Ending after the win changes nothing and answers with the winner's fill. */
  lemma LateEnd(cfg: Config, t: Tables, intent: Intent, won: Tables, a: Attempt, p: Pending)
    requires Unfilled(cfg, t, intent) && a.intent == intent && Executable(cfg, t, a)
    requires Serially(cfg, t, a).Ok? && won == Serially(cfg, t, a).value.0
    requires PreparedFor(cfg, t, intent, Serially(cfg, t, a).value.1.fill, p)
    ensures Ended(cfg, won, p).0 == won && !Ended(cfg, won, p).1.Won?
    ensures AnsweredFor(cfg, t, intent, Serially(cfg, t, a).value.1.fill, Reply(p.attempt, Ended(cfg, won, p).1))
  {
    hide Book, FillFor, Prepare, Unfilled, Reloaded, Attempted;
    WinnerIsComplete(cfg, t, intent, a);
    FirstWins(cfg, t, intent, p.attempt);
    if p.prepared.Ok? && p.prepared.value.Ready? {
      LateWriter(cfg, won, p.attempt, p.prepared.value.order);
    }
  }

  lemma LateReader(cfg: Config, t: Tables, a: Attempt)
    requires FillFor(t.fills, a.intent.id).Some? && a.intent.id in t.intents
    requires SignatureOf(t.intents[a.intent.id]) == SignatureOf(a.intent)
    ensures PrepareFor(cfg, t, a) == Ok(Existing(FillFor(t.fills, a.intent.id).value))
  {
    hide FillFor;
  }

  lemma LateWriter(cfg: Config, t: Tables, a: Attempt, o: Order)
    requires FillFor(t.fills, a.intent.id).Some?
    ensures Attempted(cfg, t, a, o) == (t, Reloaded(t, FillFor(t.fills, a.intent.id).value, a))
  {
    hide FillFor, Reloaded;
  }

  // ---------- who wins, and who is answered ----------

  /** The worker's last read is at `m`. */
  predicate LastRead(moves: seq<Move>, k: nat, m: nat) {
    && m < |moves| && moves[m].Read? && moves[m].worker == k
    && forall i :: m < i < |moves| && moves[i].Read? ==> moves[i].worker != k
  }

  /** The write at `n` carries out what its worker read at `m`, and the rows of the start let that through. */
  predicate Delivers(cfg: Config, t: Tables, moves: seq<Move>, m: nat, n: nat) {
    && m < n < |moves| && moves[n].Write? && LastRead(moves[..n], moves[n].worker, m)
    && Executable(cfg, t, moves[m].attempt)
  }

  /** What is pending is what was read last. */
  lemma {:induction false} PendingIsLastRead(cfg: Config, t: Tables, moves: seq<Move>, k: nat)
    ensures var w := Work(cfg, Idle(t), moves);
            && (forall m: nat :: LastRead(moves, k, m) ==> k in w.pending && w.pending[k].attempt == moves[m].attempt)
            && (k in w.pending ==> exists m: nat :: LastRead(moves, k, m))
  {
    hide Prepare, Ended;
    if |moves| > 0 {
      var init, move := moves[..|moves| - 1], moves[|moves| - 1];
      PendingIsLastRead(cfg, t, init, k);
      var w := Work(cfg, Idle(t), moves);
      if move.Read? && move.worker == k {
        assert LastRead(moves, k, |moves| - 1);
      } else {
        forall m: nat | LastRead(moves, k, m)
          ensures k in w.pending && w.pending[k].attempt == moves[m].attempt
        {
          assert LastRead(init, k, m);
        }
        if k in w.pending {
          var m: nat :| LastRead(init, k, m);
          assert LastRead(moves, k, m);
        }
      }
    }
  }

  ghost predicate Delivered(cfg: Config, t: Tables, moves: seq<Move>) {
    exists m: nat, n: nat :: Delivers(cfg, t, moves, m, n)
  }

  /** One more move delivers if it is the write of an executable attempt. */
  lemma DeliveredLast(cfg: Config, t: Tables, moves: seq<Move>)
    requires |moves| > 0
    ensures var init, move := moves[..|moves| - 1], moves[|moves| - 1];
            var w := Work(cfg, Idle(t), init);
            Delivered(cfg, t, moves) <==>
            Delivered(cfg, t, init) ||
            (move.Write? && move.worker in w.pending && Executable(cfg, t, w.pending[move.worker].attempt))
  {
    hide Executable, Work, LastRead;
    var last := |moves| - 1;
    var init, move := moves[..last], moves[last];
    var w := Work(cfg, Idle(t), init);
    forall m: nat, n: nat | n < last ensures Delivers(cfg, t, moves, m, n) <==> Delivers(cfg, t, init, m, n) {
      assert moves[..n] == init[..n];
    }
    PendingIsLastRead(cfg, t, init, move.worker);
    if Delivered(cfg, t, moves) {
      var m: nat, n: nat :| Delivers(cfg, t, moves, m, n);
    }
    if Delivered(cfg, t, init) {
      var m: nat, n: nat :| Delivers(cfg, t, init, m, n);
      assert Delivers(cfg, t, moves, m, n);
    }
    if move.Write? && move.worker in w.pending && Executable(cfg, t, w.pending[move.worker].attempt) {
      var m: nat :| LastRead(init, move.worker, m);
      LastReadBefore(init, move.worker, m);
      assert Delivers(cfg, t, moves, m, last);
    }
  }

  lemma LastReadBefore(moves: seq<Move>, k: nat, m: nat)
    requires LastRead(moves, k, m)
    ensures m < |moves|
  {}

  /** Once there is a winner it stays. */
  lemma {:induction false} WinnerStays(
      cfg: Config, t: Tables, intent: Intent, moves: seq<Move>, n: nat, k: nat, a: Attempt)
    requires Unfilled(cfg, t, intent) && OnIntent(moves, intent) && n <= |moves|
    requires WonBy(cfg, t, intent, Work(cfg, Idle(t), moves[..n]), k, a)
    ensures WonBy(cfg, t, intent, Work(cfg, Idle(t), moves), k, a)
  {
    hide Unfilled, WonBy, Advance;
    if n == |moves| {
      assert moves[..n] == moves;
    } else {
      var init, move := moves[..|moves| - 1], moves[|moves| - 1];
      assert init[..n] == moves[..n];
      WinnerStays(cfg, t, intent, init, n, k, a);
      AfterWin(cfg, t, intent, Work(cfg, Idle(t), init), k, a, move);
    }
  }

  /** The outcome of any interleaving: decided exactly when some write delivers. */
  lemma {:induction false} DecidedIffDelivered(cfg: Config, t: Tables, intent: Intent, moves: seq<Move>)
    requires Unfilled(cfg, t, intent) && OnIntent(moves, intent)
    ensures var w := Work(cfg, Idle(t), moves);
            if Delivered(cfg, t, moves) then Decided(cfg, t, intent, w) else Untouched(cfg, t, intent, w)
  {
    hide Unfilled, Untouched, WonBy, Advance, Executable, Delivered;
    if |moves| == 0 {
      IdleUntouched(cfg, t, intent);
      NothingDelivered(cfg, t);
    } else {
      var init, move := moves[..|moves| - 1], moves[|moves| - 1];
      DecidedIffDelivered(cfg, t, intent, init);
      DeliveredLast(cfg, t, moves);
      var w := Work(cfg, Idle(t), init);
      if Delivered(cfg, t, init) {
        var k, a :| WonBy(cfg, t, intent, w, k, a);
        AfterWin(cfg, t, intent, w, k, a, move);
      } else if move.Read? {
        ReadUntouched(cfg, t, intent, w, move.worker, move.attempt);
      } else {
        WriteUntouched(cfg, t, intent, w, move.worker);
      }
    }
  }

  lemma NothingDelivered(cfg: Config, t: Tables)
    ensures !Delivered(cfg, t, [])
  {}

  /** The worker was answered with this fill. */
  predicate AnsweredWith(w: World, k: nat, fill: Option<Fill>) {
    k in w.replies && !w.replies[k].answer.Declined? && fill == Some(w.replies[k].answer.fill)
  }

  /** A write that delivers is answered, there and then, with the fill that is stored in the end. */
  lemma DeliveryIsAnswered(cfg: Config, t: Tables, intent: Intent, moves: seq<Move>, m: nat, n: nat)
    requires Unfilled(cfg, t, intent) && OnIntent(moves, intent) && Delivers(cfg, t, moves, m, n)
    ensures AnsweredWith(Work(cfg, Idle(t), moves[..n + 1]), moves[n].worker,
                         FillFor(Work(cfg, Idle(t), moves).tables.fills, intent.id))
  {
    hide Unfilled, PrepareFor, FillFor, Book, Ended, Untouched, Executable;
    var w, after := Work(cfg, Idle(t), moves[..n]), Work(cfg, Idle(t), moves[..n + 1]);
    assert moves[..n + 1][..n] == moves[..n];
    assert after == Advance(cfg, w, moves[n]);
    PendingIsLastRead(cfg, t, moves[..n], moves[n].worker);
    assert after.replies[moves[n].worker].attempt == moves[m].attempt;
    DecidedIffDelivered(cfg, t, intent, moves[..n + 1]);
    assert Delivers(cfg, t, moves[..n + 1], m, n);
    var k, a :| WonBy(cfg, t, intent, after, k, a);
    WinnerStays(cfg, t, intent, moves, n + 1, k, a);
  }

  /**
    Any interleaving of any number of workers on one approved intent. If some worker writes
    what it read and the rows of the start let that attempt through, exactly one fill is
    booked, the rows are those of the winner's serial execution, and every such write is
    answered with that fill, the losers' as well. Otherwise nothing is written and everyone
    is refused for the reason that its own attempt has on the rows of the start.
   */
  lemma OneIntentOneFill(cfg: Config, t: Tables, intent: Intent, moves: seq<Move>)
    requires Unfilled(cfg, t, intent) && OnIntent(moves, intent)
    ensures var w := Work(cfg, Idle(t), moves);
            if Delivered(cfg, t, moves) then Decided(cfg, t, intent, w) else Untouched(cfg, t, intent, w)
    ensures var w := Work(cfg, Idle(t), moves);
            forall m: nat, n: nat :: Delivers(cfg, t, moves, m, n) ==>
              AnsweredWith(Work(cfg, Idle(t), moves[..n + 1]), moves[n].worker, FillFor(w.tables.fills, intent.id))
  {
    hide Unfilled, Untouched, Decided, Work, LastRead, Executable, AnsweredWith;
    DecidedIffDelivered(cfg, t, intent, moves);
    var w := Work(cfg, Idle(t), moves);
    forall m: nat, n: nat | Delivers(cfg, t, moves, m, n)
      ensures AnsweredWith(Work(cfg, Idle(t), moves[..n + 1]), moves[n].worker, FillFor(w.tables.fills, intent.id))
    {
      DeliveryIsAnswered(cfg, t, intent, moves, m, n);
    }
  }

  lemma IdleUntouched(cfg: Config, t: Tables, intent: Intent)
    ensures Untouched(cfg, t, intent, Idle(t))
  {}

  /** However many workers won or lost, the intent's money moves at most once. */
  lemma MoneyMovesOnce(cfg: Config, t: Tables, intent: Intent, moves: seq<Move>)
    requires Unfilled(cfg, t, intent) && OnIntent(moves, intent)
    ensures var w := Work(cfg, Idle(t), moves);
            && LedgerSound(cfg, w.tables) && cfg.quoteAsset in w.tables.balances && cfg.quoteAsset in t.balances
            && (FillFor(w.tables.fills, intent.id).Some? <==> Delivered(cfg, t, moves))
            && match FillFor(w.tables.fills, intent.id)
               case None => w.tables == t
               case Some(fill) =>
                 && w.tables.fills == t.fills + [fill]
                 && w.tables.balances[cfg.quoteAsset].available == t.balances[cfg.quoteAsset].available + CashFlow(fill)
  {
    hide Work, Book, FillFor, LedgerSound, ReplayCash, CashFlow, Delivered;
    DecidedIffDelivered(cfg, t, intent, moves);
    var w := Work(cfg, Idle(t), moves);
    CashReplayed(cfg, t);
    if Decided(cfg, t, intent, w) {
      var k, a :| WonBy(cfg, t, intent, w, k, a);
      SerialSound(cfg, t, a);
      CashReplayed(cfg, w.tables);
      ReplayAppend(cfg.initialBalance, t.fills, Serially(cfg, t, a).value.1.fill, intent.key);
    }
  }

  lemma SerialSound(cfg: Config, t: Tables, a: Attempt)
    requires LedgerSound(cfg, t) && a.intent.id in t.intents && t.intents[a.intent.id] == a.intent
    ensures Serially(cfg, t, a).Ok? ==> LedgerSound(cfg, Serially(cfg, t, a).value.0)
  {
    hide LedgerSound, Book, Prepare, OrderSound, FillFor, RecordExecution, Finalized;
    BookMeans(cfg, t, a.intent, a.market, a.ticker, a.fillId, a.now);
  }

  lemma CashReplayed(cfg: Config, t: Tables)
    requires LedgerSound(cfg, t)
    ensures cfg.quoteAsset in t.balances
    ensures t.balances[cfg.quoteAsset].available == ReplayCash(cfg.initialBalance, t.fills)
  {
    assert cfg.quoteAsset in t.balances.Keys;
  }

  // ---------- any mix of intents ----------

  /** Every attempt executes the intent row that is committed when it reads. */
  predicate ReadsStored(cfg: Config, w: World, moves: seq<Move>)
    decreases |moves|
  {
    |moves| == 0 ||
    var init, move := moves[..|moves| - 1], moves[|moves| - 1];
    && ReadsStored(cfg, w, init)
    && (move.Read? ==>
          var t := Work(cfg, w, init).tables;
          move.attempt.intent.id in t.intents && t.intents[move.attempt.intent.id] == move.attempt.intent)
  }

  /** One fill per intent at most, present exactly for the FILLED ones. */
  ghost predicate FillsFinalize(t: Tables) {
    && (forall id :: id in t.intents ==> t.intents[id].id == id)
    && DistinctIntents(t.fills)
    && (forall n :: 0 <= n < |t.fills| ==> t.fills[n].intentId in t.intents)
    && (forall id :: id in t.intents ==> (t.intents[id].status == Filled <==> FillFor(t.fills, id).Some?))
  }

  /** What it takes to hand out a stored fill, the balance of its market apart. */
  predicate FillsComplete(t: Tables) {
    && (forall n :: 0 <= n < |t.fills| ==> t.fills[n].key in t.positions)
    && (|t.fills| > 0 ==> |t.snapshots| > 0)
  }

  ghost predicate Fit(t: Tables) {
    FillsFinalize(t) && FillsComplete(t)
  }

  predicate IsReady(p: Pending) {
    p.prepared.Ok? && p.prepared.value.Ready?
  }

  /** What a worker prepared is its intent's fill, or an order for an intent that is approved or by now filled. */
  predicate PendingSound(t: Tables, p: Pending) {
    var id := p.attempt.intent.id;
    && p.prepared != Err(FillNotFinalized)
    && (p.prepared.Ok? && p.prepared.value.Existing? ==> FillFor(t.fills, id) == Some(p.prepared.value.fill))
    && (IsReady(p) ==>
          && p.prepared.value.order.fill.intentId == id && id in t.intents
          && (t.intents[id].status == Approved || t.intents[id].status == Filled)
          && t.risk.Some? && p.attempt.market.quoteAsset in t.balances)
  }

  /** An answer with a fill is the one fill of its intent; no finalizing update fails. */
  predicate ReplySound(t: Tables, r: Reply) {
    if r.answer.Declined? then r.answer.error != FillNotFinalized
    else FillFor(t.fills, r.attempt.intent.id) == Some(r.answer.fill)
  }

  ghost predicate MixSound(w: World) {
    && Fit(w.tables)
    && (forall k :: k in w.pending ==> PendingSound(w.tables, w.pending[k]))
    && (forall k :: k in w.replies ==> ReplySound(w.tables, w.replies[k]))
  }

  lemma StatusAfterPost(t: Tables, o: Order, id: nat)
    requires FillsFinalize(t) && o.fill.intentId == id && id in t.intents && t.intents[id].status == Approved
    ensures ApplyExecution(t, id, o).1 == Ok((o.fill, true))
    ensures var after := ApplyExecution(t, id, o).0;
            && FillsFinalize(after) && after.risk == t.risk && after.fills == t.fills + [o.fill]
            && after.intents == t.intents[id := t.intents[id].(status := Filled, updatedAt := o.fill.executedAt)]
  {
    hide FillFor, DistinctIntents;
    FillForMember(t.fills, id);
    DistinctPosted(t.fills, o.fill);
    forall other ensures FillFor(t.fills + [o.fill], other) ==
        if FillFor(t.fills, other).Some? then FillFor(t.fills, other) else if other == id then Some(o.fill) else None
    {
      FillForAppend(t.fills, o.fill, other);
    }
  }

  lemma PostComplete(t: Tables, o: Order, id: nat)
    requires FillsComplete(t) && ApplyExecution(t, id, o).1 == Ok((o.fill, true))
    ensures FillsComplete(ApplyExecution(t, id, o).0) && t.balances.Keys <= ApplyExecution(t, id, o).0.balances.Keys
  {
    hide FillFor;
  }

  /** Intents, balances and fills stay; an intent's status at most goes from APPROVED to FILLED. */
  ghost predicate Grows(a: Tables, b: Tables) {
    && (forall id :: id in a.intents ==>
          id in b.intents &&
          (b.intents[id].status == a.intents[id].status ||
           (a.intents[id].status == Approved && b.intents[id].status == Filled)))
    && (forall id :: FillFor(a.fills, id).Some? ==> FillFor(b.fills, id) == FillFor(a.fills, id))
    && a.balances.Keys <= b.balances.Keys
    && (a.risk.Some? ==> b.risk.Some?)
  }

  lemma GrowsTwice(a: Tables, b: Tables, c: Tables)
    requires Grows(a, b) && Grows(b, c)
    ensures Grows(a, c)
  {
    hide FillFor;
  }

  lemma GrowsAlone(t: Tables)
    ensures Grows(t, t)
  {}

  lemma PostGrows(t: Tables, o: Order, id: nat)
    requires FillsFinalize(t) && o.fill.intentId == id && id in t.intents && t.intents[id].status == Approved
    ensures Grows(t, ApplyExecution(t, id, o).0) && FillFor(ApplyExecution(t, id, o).0.fills, id) == Some(o.fill)
  {
    hide FillFor, DistinctIntents;
    StatusAfterPost(t, o, id);
    forall other ensures FillFor(t.fills + [o.fill], other) ==
        if FillFor(t.fills, other).Some? then FillFor(t.fills, other) else if other == id then Some(o.fill) else None
    {
      FillForAppend(t.fills, o.fill, other);
    }
  }

  /** Where the fill and the balance are, the answer is the fill. */
  lemma FilledIsAnswered(t: Tables, a: Attempt)
    requires FillsComplete(t) && FillFor(t.fills, a.intent.id).Some?
    ensures var f := FillFor(t.fills, a.intent.id).value;
            Reloaded(t, f, a) == if a.market.quoteAsset in t.balances then Found(f) else Declined(ExecutionIncomplete)
  {
    hide FillFor;
    FillForMember(t.fills, a.intent.id);
  }

  lemma FillsFrame(a: Tables, b: Tables)
    requires Fit(a) && b == a.(risk := b.risk)
    ensures Fit(b)
  {
    hide FillFor, DistinctIntents;
  }

  /** A stale order for an intent that is still approved is booked. */
  lemma ApprovedIsBooked(cfg: Config, t: Tables, a: Attempt, o: Order)
    requires Fit(t) && PendingSound(t, Pending(a, Ok(Ready(o)))) && t.intents[a.intent.id].status == Approved
    ensures var (after, answer) := Attempted(cfg, t, a, o);
            Fit(after) && Grows(t, after) && answer == Won(o.fill) && ReplySound(after, Reply(a, answer))
  {
    hide FillFor, RecordExecution, FillsFinalize, FillsComplete, Fit;
    var id := a.intent.id;
    FitMeans(t);
    StatusAfterPost(t, o, id);
    PostComplete(t, o, id);
    PostGrows(t, o, id);
    BothFit(ApplyExecution(t, id, o).0);
    FillsFrame(ApplyExecution(t, id, o).0, Attempted(cfg, t, a, o).0);
    hide ApplyExecution;
  }

  lemma FitMeans(t: Tables)
    requires Fit(t)
    ensures FillsFinalize(t) && FillsComplete(t)
  {}

  lemma BothFit(t: Tables)
    requires FillsFinalize(t) && FillsComplete(t)
    ensures Fit(t)
  {}

  /** A stale order for an intent that is filled loses to the fill that is there. */
  lemma FilledIsFound(cfg: Config, t: Tables, a: Attempt, o: Order)
    requires Fit(t) && PendingSound(t, Pending(a, Ok(Ready(o)))) && t.intents[a.intent.id].status == Filled
    ensures FillFor(t.fills, a.intent.id).Some?
    ensures Attempted(cfg, t, a, o) == (t, Found(FillFor(t.fills, a.intent.id).value))
  {
    hide FillFor, Reloaded, DistinctIntents, FillsComplete;
    FilledIsAnswered(t, a);
  }

  lemma AttemptedKeeps(cfg: Config, t: Tables, a: Attempt, o: Order)
    requires Fit(t) && PendingSound(t, Pending(a, Ok(Ready(o))))
    ensures var (after, answer) := Attempted(cfg, t, a, o);
            Fit(after) && Grows(t, after) && !answer.Declined? && ReplySound(after, Reply(a, answer))
  {
    hide FillFor, Attempted, Fit;
    if t.intents[a.intent.id].status == Approved {
      ApprovedIsBooked(cfg, t, a, o);
    } else {
      FilledIsFound(cfg, t, a, o);
      GrowsAlone(t);
    }
    hide Grows;
  }

  lemma ReadIsSound(cfg: Config, t: Tables, a: Attempt)
    requires a.intent.id in t.intents && t.intents[a.intent.id] == a.intent
    ensures PendingSound(t, Pending(a, PrepareFor(cfg, t, a)))
  {
    PrepareMeans(cfg, t, a.intent, a.market, a.ticker, a.fillId, a.now);
    PrepareFails(cfg, t, a.intent, a.market, a.ticker, a.fillId, a.now);
    hide Prepare, Apply, SnapshotOf, Worth, FeeOf, FillFor;
  }

  lemma StillSound(a: Tables, b: Tables, p: Pending)
    requires PendingSound(a, p) && Grows(a, b)
    ensures PendingSound(b, p)
  {
    hide FillFor;
  }

  lemma StillAnswered(a: Tables, b: Tables, r: Reply)
    requires ReplySound(a, r) && Grows(a, b)
    ensures ReplySound(b, r)
  {
    hide FillFor;
  }

  lemma EndedKeeps(cfg: Config, t: Tables, p: Pending)
    requires Fit(t) && PendingSound(t, p)
    ensures var (after, answer) := Ended(cfg, t, p);
            && Fit(after) && Grows(t, after) && ReplySound(after, Reply(p.attempt, answer))
            && (IsReady(p) ==> !answer.Declined?)
  {
    hide FillFor, Attempted, Reloaded, FillsFinalize, FillsComplete;
    match p.prepared
    case Err(e) =>
    case Ok(Existing(fill)) => FilledIsAnswered(t, p.attempt);
    case Ok(Ready(o)) =>
      assert p == Pending(p.attempt, Ok(Ready(o)));
      AttemptedKeeps(cfg, t, p.attempt, o);
  }

  lemma AdvanceKeeps(cfg: Config, w: World, move: Move)
    requires MixSound(w)
    requires move.Read? ==>
               move.attempt.intent.id in w.tables.intents &&
               w.tables.intents[move.attempt.intent.id] == move.attempt.intent
    ensures var after := Advance(cfg, w, move);
            && MixSound(after) && Grows(w.tables, after.tables)
            && (move.Write? && move.worker in w.pending && IsReady(w.pending[move.worker]) ==>
                  move.worker in after.replies && !after.replies[move.worker].answer.Declined? &&
                  after.replies[move.worker].attempt == w.pending[move.worker].attempt)
  {
    hide Fit, PrepareFor, Ended, Grows, PendingSound, ReplySound;
    GrowsAlone(w.tables);
    match move
    case Read(k, a) =>
      ReadIsSound(cfg, w.tables, a);
    case Write(k) =>
      if k in w.pending {
        EndedKeeps(cfg, w.tables, w.pending[k]);
        var after := Advance(cfg, w, move);
        forall j | j in after.pending ensures PendingSound(after.tables, after.pending[j]) {
          StillSound(w.tables, after.tables, w.pending[j]);
        }
        forall j | j in after.replies ensures ReplySound(after.tables, after.replies[j]) {
          if j != k {
            StillAnswered(w.tables, after.tables, w.replies[j]);
          }
        }
      }
  }

  lemma {:induction false} MixStaysSound(cfg: Config, t: Tables, moves: seq<Move>, n: nat)
    requires Fit(t) && ReadsStored(cfg, Idle(t), moves) && n <= |moves|
    ensures MixSound(Work(cfg, Idle(t), moves))
    ensures ReadsStored(cfg, Idle(t), moves[..n])
    ensures Grows(Work(cfg, Idle(t), moves[..n]).tables, Work(cfg, Idle(t), moves).tables)
  {
    hide Fit, MixSound, Advance, Grows;
    if n == |moves| {
      assert moves[..n] == moves;
      GrowsAlone(Work(cfg, Idle(t), moves).tables);
    }
    if |moves| == 0 {
      IdleMixSound(t);
    } else {
      var init, move := moves[..|moves| - 1], moves[|moves| - 1];
      var w := Work(cfg, Idle(t), init);
      MixStaysSound(cfg, t, init, if n < |moves| then n else 0);
      AdvanceKeeps(cfg, w, move);
      if n < |moves| {
        assert init[..n] == moves[..n];
        GrowsTwice(Work(cfg, Idle(t), moves[..n]).tables, w.tables, Work(cfg, Idle(t), moves).tables);
      }
    }
  }

  /** The write at `n` tries to book an order that its worker has prepared. */
  predicate TriesToBook(cfg: Config, t: Tables, moves: seq<Move>, n: nat) {
    && n < |moves| && moves[n].Write?
    && var w := Work(cfg, Idle(t), moves[..n]);
    moves[n].worker in w.pending && IsReady(w.pending[moves[n].worker])
  }

  /**
    For any interleaving of any workers on any mix of intents, each intent has at most one
    fill, it has one exactly when it is FILLED, no finalizing update ever fails, and every
    answer with a fill is the fill of its own intent. A worker that comes with a prepared
    order is never refused: it is answered with the fill that its intent keeps to the end.
   */
  lemma AnyMixFillsOnce(cfg: Config, t: Tables, moves: seq<Move>)
    requires Fit(t) && ReadsStored(cfg, Idle(t), moves)
    ensures var w := Work(cfg, Idle(t), moves);
            && MixSound(w)
            && forall n: nat :: TriesToBook(cfg, t, moves, n) ==>
                 var k := moves[n].worker;
                 AnsweredWith(Work(cfg, Idle(t), moves[..n + 1]), k,
                              FillFor(w.tables.fills, Work(cfg, Idle(t), moves[..n]).pending[k].attempt.intent.id))
  {
    hide Fit, MixSound, FillFor, Work, AnsweredWith, IsReady;
    MixStaysSound(cfg, t, moves, 0);
    var w := Work(cfg, Idle(t), moves);
    forall n: nat | TriesToBook(cfg, t, moves, n)
      ensures var k := moves[n].worker;
              AnsweredWith(Work(cfg, Idle(t), moves[..n + 1]), k,
                           FillFor(w.tables.fills, Work(cfg, Idle(t), moves[..n]).pending[k].attempt.intent.id))
    {
      BookingIsAnswered(cfg, t, moves, n);
    }
  }

  lemma BookingIsAnswered(cfg: Config, t: Tables, moves: seq<Move>, n: nat)
    requires Fit(t) && ReadsStored(cfg, Idle(t), moves) && TriesToBook(cfg, t, moves, n)
    ensures var k := moves[n].worker;
            AnsweredWith(Work(cfg, Idle(t), moves[..n + 1]), k,
                         FillFor(Work(cfg, Idle(t), moves).tables.fills,
                                 Work(cfg, Idle(t), moves[..n]).pending[k].attempt.intent.id))
  {
    hide Fit, FillFor, Advance, IsReady, PendingSound;
    MixStaysSound(cfg, t, moves, n + 1);
    MixStaysSound(cfg, t, moves[..n + 1], n);
    assert moves[..n + 1][..n] == moves[..n];
    MixStaysSound(cfg, t, moves[..n], 0);
    AdvanceKeeps(cfg, Work(cfg, Idle(t), moves[..n]), moves[n]);
  }

  lemma IdleMixSound(t: Tables)
    requires Fit(t)
    ensures MixSound(Idle(t))
  {}

  /** Every account that serial runs can reach is a fit start for the workers. */
  lemma SerialAccountsFit(cfg: Config, t: Tables)
    requires LedgerSound(cfg, t)
    ensures Fit(t)
  {
    hide FillFor, FillSound, Replays, Conserves, SnapshotsExplained, NeverNegative;
    forall id | id in t.intents ensures t.intents[id].status == Filled <==> FillFor(t.fills, id).Some? {
      FilledByItsIntent(cfg, t, id);
    }
    forall n | 0 <= n < |t.fills| ensures t.fills[n].key in t.positions {
      assert HasFillIn(t.fills, t.fills[n].key);
    }
  }

  /** The same from every account that any serial run, with its crashes and retries, has left. */
  lemma MixAfterRunFillsOnce(cfg: Config, at: int, steps: seq<Step>, moves: seq<Move>)
    requires Possible(cfg, Opened(cfg, at), steps)
    requires ReadsStored(cfg, Idle(Run(cfg, Opened(cfg, at), steps)), moves)
    ensures var t := Run(cfg, Opened(cfg, at), steps);
            var after := Work(cfg, Idle(t), moves).tables;
            && DistinctIntents(after.fills)
            && (forall id :: id in after.intents ==>
                  (after.intents[id].status == Filled <==> FillFor(after.fills, id).Some?))
            && (forall id :: FillFor(t.fills, id).Some? ==> FillFor(after.fills, id) == FillFor(t.fills, id))
  {
    hide Possible, Run, Opened, ReadsStored, LedgerSound, FillFor, Work, FillsComplete, DistinctIntents;
    AccountSound(cfg, at, steps);
    var t := Run(cfg, Opened(cfg, at), steps);
    SerialAccountsFit(cfg, t);
    MixStaysSound(cfg, t, moves, 0);
    NoMoves(cfg, t, moves);
  }

  lemma NoMoves(cfg: Config, t: Tables, moves: seq<Move>)
    ensures Work(cfg, Idle(t), moves[..0]).tables == t
  {}
}
