/**
  The risk row when operations overlap: every change reads the whole row first and saves it
  back whole later, system state included, whatever was saved in between.
 */
module RiskRaces {
  import opened AdminState
  import opened PaperDomain
  import opened PaperExecution
  import opened Reconciliation
  import opened RiskEngine
  import opened TradingCycle
  import opened Wrappers

  /** The four operations that change the risk row, with what they bring to it. */
  datatype Change =
    | NewDay(day: int, equity: real, now: int)
    | Booked(realized: real, equity: real, openPositions: int, cooldownMinutes: int, now: int)
    | Stop(now: int)
    | Operator(command: Command, now: int)

  /** What the operation saves when this is the row it has read, if it saves at all. */
  function Saved(row: RiskState, c: Change): Option<RiskState> {
    match c
    case NewDay(day, equity, now) =>
      if ResetForDay(row, day, equity, now) == row then None else Some(ResetForDay(row, day, equity, now))
    case Booked(realized, equity, openPositions, cooldownMinutes, now) =>
      Some(Recorded(row, realized, equity, openPositions, cooldownMinutes, now))
    case Stop(now) =>
      if row.systemState == Killed then None else Some(row.(systemState := Killed, updatedAt := now))
    case Operator(command, now) =>
      if row.systemState in AllowedFor(command) then Some(row.(systemState := TargetOf(command), updatedAt := now))
      else None
  }

  /** The change without anything in between. */
  function After(row: RiskState, c: Change): RiskState {
    if Saved(row, c).Some? then Saved(row, c).value else row
  }

  datatype Move = Look(actor: nat) | Save(actor: nat, change: Change)

  /** The stored row, and what each actor has read and not yet used. */
  datatype Race = Race(row: RiskState, seen: map<nat, RiskState>)

  function Advance(s: Race, m: Move): Race {
    match m
    case Look(k) => s.(seen := s.seen[k := s.row])
    case Save(k, c) =>
      if k !in s.seen then s
      else Race(if Saved(s.seen[k], c).Some? then Saved(s.seen[k], c).value else s.row, s.seen - {k})
  }

  function Go(row: RiskState, moves: seq<Move>): Race {
    if |moves| == 0 then Race(row, map[]) else Advance(Go(row, moves[..|moves| - 1]), moves[|moves| - 1])
  }

  /** The stored row after the first `n` moves. */
  function RowAt(row: RiskState, moves: seq<Move>, n: nat): RiskState
    requires n <= |moves|
  {
    Go(row, moves[..n]).row
  }

  // ---------- the same changes as in the transactions ----------

  /** Each change, made at once, is what the transaction that makes it does to the risk row. */
  lemma ChangesAreTransactions(
      cfg: Config, t: Tables, size: Quantity, context: RiskContext, e: Execution, c: Command, r: Request,
      correlationId: string, now: int)
    requires t.risk.Some?
    ensures EvaluateRisk(cfg, t, size, context).0.risk ==
            Some(After(t.risk.value, NewDay(Day(context.now), context.portfolioEquity, context.now)))
    ensures RecordExecution(cfg, t.risk.value, e, now) ==
            After(t.risk.value,
                  Booked(e.fill.realizedPnl, e.snapshot.totalEquity, if e.position.quantity > 0.0 then 1 else 0,
                         cfg.cooldownMinutes, now))
    ensures var (after, report) := Reconcile(cfg, t, correlationId, now);
            after.risk == if report.consistent then t.risk else Some(After(t.risk.value, Stop(now)))
    ensures Transition(t, c, r).0.risk == Some(After(t.risk.value, Operator(c, r.now)))
  {
    hide Decide, ReportOn;
  }

  // ---------- which read a save rests on ----------

  /** The read at `m` is the one that the actor's next save, at `n` or later, rests on. */
  predicate RestsOn(moves: seq<Move>, k: nat, m: nat, n: nat) {
    && m < n <= |moves| && moves[m] == Look(k)
    && forall i :: m < i < n ==> moves[i].actor != k
  }

  lemma {:induction false} SeenIsRead(row: RiskState, moves: seq<Move>, k: nat)
    ensures k in Go(row, moves).seen <==> exists m: nat :: RestsOn(moves, k, m, |moves|)
    ensures forall m: nat :: RestsOn(moves, k, m, |moves|) ==>
              k in Go(row, moves).seen && Go(row, moves).seen[k] == RowAt(row, moves, m)
  {
    hide Saved;
    if |moves| > 0 {
      var last := |moves| - 1;
      var init := moves[..last];
      SeenIsRead(row, init, k);
      if moves[last].actor == k {
        if moves[last].Look? {
          assert RestsOn(moves, k, last, |moves|);
        }
      } else {
        forall m: nat ensures RestsOn(moves, k, m, |moves|) <==> RestsOn(init, k, m, last) {}
        forall m: nat | RestsOn(moves, k, m, |moves|)
          ensures k in Go(row, moves).seen && Go(row, moves).seen[k] == RowAt(row, moves, m)
        {
          assert RestsOn(init, k, m, last) && init[..m] == moves[..m];
        }
      }
    }
  }

  /** The save at `n` writes a row that is not KILLED, because the row read at `m` tells it so. */
  predicate Lifts(row: RiskState, moves: seq<Move>, m: nat, n: nat) {
    && n < |moves| && moves[n].Save? && RestsOn(moves, moves[n].actor, m, n)
    && Frees(RowAt(row, moves, m), moves[n].change)
  }

  /** From a row with this state, the operation saves one that is not KILLED. */
  predicate Frees(row: RiskState, c: Change) {
    match c
    case NewDay(day, _, _) => row.systemState != Killed && day != row.tradingDay
    case Booked(_, _, _, _, _) => row.systemState != Killed
    case Stop(_) => false
    case Operator(command, _) => command != Kill && row.systemState in AllowedFor(command)
  }

  lemma FreesMeans(row: RiskState, c: Change)
    ensures Frees(row, c) <==> Saved(row, c).Some? && Saved(row, c).value.systemState != Killed
  {}

  lemma StepKilled(row: RiskState, moves: seq<Move>, n: nat)
    requires n < |moves| && RowAt(row, moves, n).systemState == Killed
    ensures RowAt(row, moves, n + 1).systemState == Killed <==> !exists m: nat :: Lifts(row, moves, m, n)
  {
    hide Saved, Frees;
    var init, move := moves[..n], moves[n];
    assert moves[..n + 1][..n] == init;
    var s := Go(row, init);
    SeenIsRead(row, init, move.actor);
    forall m: nat ensures RestsOn(moves, move.actor, m, n) <==> RestsOn(init, move.actor, m, n) {}
    if move.Save? && move.actor in s.seen {
      FreesMeans(s.seen[move.actor], move.change);
      var m: nat :| RestsOn(init, move.actor, m, n);
      assert init[..m] == moves[..m];
      assert RestsOn(moves, move.actor, m, n);
      assert Frees(s.seen[move.actor], move.change) ==> Lifts(row, moves, m, n);
    }
    forall m: nat | Lifts(row, moves, m, n) ensures RowAt(row, moves, n + 1).systemState != Killed {
      assert RestsOn(init, move.actor, m, n) && init[..m] == moves[..m];
    }
  }

  // ---------- when a kill is kept ----------

  predicate KilledFrom(row: RiskState, moves: seq<Move>, p: nat) {
    forall n :: p <= n <= |moves| ==> RowAt(row, moves, n).systemState == Killed
  }

  ghost predicate Lifted(row: RiskState, moves: seq<Move>, p: nat) {
    exists m: nat, n: nat :: p <= n && Lifts(row, moves, m, n)
  }

  lemma {:induction false} KilledUpTo(row: RiskState, moves: seq<Move>, p: nat, n: nat)
    requires p <= n <= |moves| && RowAt(row, moves, p).systemState == Killed && !Lifted(row, moves, p)
    ensures RowAt(row, moves, n).systemState == Killed
  {
    hide Lifts, RowAt;
    if p < n {
      KilledUpTo(row, moves, p, n - 1);
      StepKilled(row, moves, n - 1);
    }
  }

  /**
    Once the stored row is KILLED, it stays so to the end of any interleaving if and only if no
    later save rests on a read that frees it: a reset or a fill that read a row that was not
    KILLED, or an operator command other than a kill that its own read allows.
   */
  lemma KillKeptIffNotLifted(row: RiskState, moves: seq<Move>, p: nat)
    requires p <= |moves| && RowAt(row, moves, p).systemState == Killed
    ensures KilledFrom(row, moves, p) <==> !Lifted(row, moves, p)
  {
    hide Lifts, RowAt;
    if !Lifted(row, moves, p) {
      forall n | p <= n <= |moves| ensures RowAt(row, moves, n).systemState == Killed {
        KilledUpTo(row, moves, p, n);
      }
    }
    if Lifted(row, moves, p) {
      var m: nat, n: nat :| p <= n && Lifts(row, moves, m, n);
      LiftsWithin(row, moves, m, n);
      if RowAt(row, moves, n).systemState == Killed {
        StepKilled(row, moves, n);
      }
    }
  }

  lemma LiftsWithin(row: RiskState, moves: seq<Move>, m: nat, n: nat)
    requires Lifts(row, moves, m, n)
    ensures m < n < |moves|
  {}

  predicate IsReset(m: Move) {
    m.Save? && m.change.Operator? && m.change.command == ResetKilled
  }

  /** Every save from `p` on rests on a read from `p` on. */
  predicate ReadsFrom(moves: seq<Move>, p: nat) {
    forall m: nat, n: nat :: p <= n < |moves| && moves[n].Save? && RestsOn(moves, moves[n].actor, m, n) ==> p <= m
  }

  /**
    What atomic transactions give the kill switch, the order of reads gives already: when
    every save after the kill rests on a read after it, only reset_killed undoes the kill.
   */
  lemma KillHoldsForLaterReads(row: RiskState, moves: seq<Move>, p: nat)
    requires p <= |moves| && RowAt(row, moves, p).systemState == Killed && ReadsFrom(moves, p)
    requires forall n :: p <= n < |moves| ==> !IsReset(moves[n])
    ensures KilledFrom(row, moves, p)
  {
    hide RowAt, Lifts;
    forall n | p <= n <= |moves| ensures RowAt(row, moves, n).systemState == Killed {
      KilledByLaterReads(row, moves, p, n);
    }
  }

  lemma {:induction false} KilledByLaterReads(row: RiskState, moves: seq<Move>, p: nat, n: nat)
    requires p <= n <= |moves| && RowAt(row, moves, p).systemState == Killed && ReadsFrom(moves, p)
    requires forall i :: p <= i < |moves| ==> !IsReset(moves[i])
    ensures forall i :: p <= i <= n ==> RowAt(row, moves, i).systemState == Killed
  {
    hide RowAt, RestsOn, Lifts, ReadsFrom;
    if p < n {
      var last := n - 1;
      KilledByLaterReads(row, moves, p, last);
      StepKilled(row, moves, last);
      forall m: nat ensures !Lifts(row, moves, m, last) {
        LaterReadKeeps(row, moves, p, m, last);
      }
    }
  }

  lemma LaterReadKeeps(row: RiskState, moves: seq<Move>, p: nat, m: nat, n: nat)
    requires p <= n < |moves| && ReadsFrom(moves, p) && !IsReset(moves[n])
    requires forall i :: p <= i <= n ==> RowAt(row, moves, i).systemState == Killed
    ensures !Lifts(row, moves, m, n)
  {
    hide RowAt;
  }

  /** A kill committed between the read and the save of a fill's bookkeeping is lost, whatever the fill. */
  lemma LostKill(row: RiskState, booked: Change, at: int)
    requires row.systemState == Enabled && booked.Booked?
    ensures var moves := [Look(0), Look(1), Save(1, Operator(Kill, at)), Save(0, booked)];
            && RowAt(row, moves, 3).systemState == Killed
            && RowAt(row, moves, 4).systemState == Enabled
            && Lifts(row, moves, 0, 3)
  {
    var moves := [Look(0), Look(1), Save(1, Operator(Kill, at)), Save(0, booked)];
    assert moves[..4][..3] == moves[..3] && moves[..3][..2] == moves[..2] && moves[..2][..1] == moves[..1];
    assert Go(row, moves[..1]) == Race(row, map[0 := row]);
    assert Go(row, moves[..2]) == Race(row, map[0 := row, 1 := row]);
    assert Go(row, moves[..3]).seen == map[0 := row];
  }

  // ---------- when reading and saving is one step ----------

  /** No save comes between a save and the read it rests on. */
  predicate Unbroken(moves: seq<Move>) {
    forall m: nat, n: nat, i: nat ::
      n < |moves| && moves[n].Save? && RestsOn(moves, moves[n].actor, m, n) && m < i < n ==> moves[i].Look?
  }

  /** The changes made one after the other, each on the row that the one before left. */
  function OneByOne(row: RiskState, moves: seq<Move>): RiskState {
    if |moves| == 0 then row
    else
      var init, move := moves[..|moves| - 1], moves[|moves| - 1];
      var before := OneByOne(row, init);
      if move.Save? && move.actor in Go(row, init).seen then After(before, move.change) else before
  }

  lemma {:induction false} OnlyLooks(row: RiskState, moves: seq<Move>, m: nat, n: nat)
    requires m <= n <= |moves| && forall i :: m <= i < n ==> moves[i].Look?
    ensures RowAt(row, moves, n) == RowAt(row, moves, m)
  {
    if m < n {
      OnlyLooks(row, moves, m, n - 1);
      assert moves[..n][..n - 1] == moves[..n - 1];
    }
  }

  /** When nothing is saved between a read and its save, the row is what atomic changes leave. */
  lemma {:induction false} UnbrokenIsAtomic(row: RiskState, moves: seq<Move>)
    requires Unbroken(moves)
    ensures Go(row, moves).row == OneByOne(row, moves)
  {
    hide Saved;
    if |moves| > 0 {
      var last := |moves| - 1;
      var init, move := moves[..last], moves[last];
      UnbrokenInit(moves);
      UnbrokenIsAtomic(row, init);
      if move.Save? && move.actor in Go(row, init).seen {
        SeenIsRead(row, init, move.actor);
        var m: nat :| RestsOn(init, move.actor, m, last);
        assert RestsOn(moves, move.actor, m, last);
        forall i | m <= i < last ensures init[i].Look? {
          assert init[i] == moves[i];
        }
        OnlyLooks(row, init, m, last);
        assert init[..last] == init;
      }
    }
  }

  lemma UnbrokenInit(moves: seq<Move>)
    requires |moves| > 0 && Unbroken(moves)
    ensures Unbroken(moves[..|moves| - 1])
  {
    var init := moves[..|moves| - 1];
    forall m: nat, n: nat, i: nat |
      n < |init| && init[n].Save? && RestsOn(init, init[n].actor, m, n) && m < i < n
      ensures init[i].Look?
    {
      assert RestsOn(moves, moves[n].actor, m, n);
    }
  }
}
