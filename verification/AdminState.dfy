/** Operator changes of the system state (application/admin.py). */
module AdminState {
  import opened PaperDatabase
  import opened PaperDomain
  import opened Wrappers

  datatype Command = Pause | Resume | Kill | ResetKilled

  datatype Request = Request(reason: string, operatorId: string, correlationId: string, now: int)

  function TargetOf(c: Command): SystemState {
    match c
    case Pause => Paused
    case Resume => Enabled
    case Kill => Killed
    case ResetKilled => Paused
  }

  /** The states a command may be given in. */
  function AllowedFor(c: Command): set<SystemState> {
    match c
    case Pause => {Enabled}
    case Resume => {Paused}
    case Kill => {Enabled, Paused}
    case ResetKilled => {Killed}
  }

  /** The rows and the answer after a command. */
  function Transition(t: Tables, c: Command, r: Request): (Tables, Result<RiskState, Error>) {
    match t.risk
    case None => (t, Err(NotInitialized))
    case Some(current) =>
      if current.systemState !in AllowedFor(c) then (t, Err(InvalidTransition))
      else
        var updated := current.(systemState := TargetOf(c), updatedAt := r.now);
        var kind := SystemStateChanged(current.systemState, TargetOf(c), r.reason, r.operatorId);
        (t.(risk := Some(updated), events := t.events + [Event(kind, r.correlationId, r.now)]), Ok(updated))
  }

  /**
    Which command works from which state, and what it does: pause from ENABLED, resume from
    PAUSED, kill from everything but KILLED, reset_killed from KILLED. A command that works saves
    the new state and records the change; any other leaves every row.
   */
  lemma TransitionMeans(t: Tables, c: Command, r: Request)
    ensures t.risk.None? ==> Transition(t, c, r) == (t, Err(NotInitialized))
    ensures t.risk.Some? ==>
              var before, (after, answer) := t.risk.value, Transition(t, c, r);
              && (answer.Ok? <==>
                    || (c == Pause && before.systemState == Enabled)
                    || (c == Resume && before.systemState == Paused)
                    || (c == Kill && (before.systemState == Enabled || before.systemState == Paused))
                    || (c == ResetKilled && before.systemState == Killed))
              && (answer.Err? ==> answer.error == InvalidTransition && after == t)
              && (answer.Ok? ==>
                    && answer.value == before.(systemState := answer.value.systemState, updatedAt := r.now)
                    && (answer.value.systemState == Enabled <==> c == Resume)
                    && (answer.value.systemState == Paused <==> c == Pause || c == ResetKilled)
                    && (answer.value.systemState == Killed <==> c == Kill)
                    && after.risk == Some(answer.value)
                    && after == t.(risk := after.risk, events := after.events)
                    && after.events == t.events +
                       [Event(SystemStateChanged(before.systemState, answer.value.systemState, r.reason, r.operatorId),
                              r.correlationId, r.now)])
  {}

  method Transit(db: Database, target: SystemState, allowed: set<SystemState>, r: Request)
    returns (result: Result<RiskState, Error>)
    modifies db
    ensures forall c :: target == TargetOf(c) && allowed == AllowedFor(c) ==>
              (db.Work(), result) == Transition(old(db.Work()), c, r)
    ensures db.committed == old(db.committed) && db.history == old(db.history)
  {
    if db.risk.None? {
      return Err(NotInitialized);
    }
    var current := db.risk.value;
    if current.systemState !in allowed {
      return Err(InvalidTransition);
    }
    var updated := current.(systemState := target, updatedAt := r.now);
    db.SaveRisk(updated);
    db.AppendEvent(Event(SystemStateChanged(current.systemState, target, r.reason, r.operatorId), r.correlationId,
                         r.now));
    result := Ok(updated);
  }

  method RunPause(db: Database, r: Request) returns (result: Result<RiskState, Error>)
    modifies db
    ensures (db.Work(), result) == Transition(old(db.Work()), Pause, r)
    ensures db.committed == old(db.committed) && db.history == old(db.history)
  {
    result := Transit(db, Paused, {Enabled}, r);
    assert AllowedFor(Pause) == {Enabled};
  }

  method RunResume(db: Database, r: Request) returns (result: Result<RiskState, Error>)
    modifies db
    ensures (db.Work(), result) == Transition(old(db.Work()), Resume, r)
    ensures db.committed == old(db.committed) && db.history == old(db.history)
  {
    result := Transit(db, Enabled, {Paused}, r);
    assert AllowedFor(Resume) == {Paused};
  }

  method RunKill(db: Database, r: Request) returns (result: Result<RiskState, Error>)
    modifies db
    ensures (db.Work(), result) == Transition(old(db.Work()), Kill, r)
    ensures db.committed == old(db.committed) && db.history == old(db.history)
  {
    result := Transit(db, Killed, {Enabled, Paused}, r);
    assert AllowedFor(Kill) == {Enabled, Paused};
  }

  method RunResetKilled(db: Database, r: Request) returns (result: Result<RiskState, Error>)
    modifies db
    ensures (db.Work(), result) == Transition(old(db.Work()), ResetKilled, r)
    ensures db.committed == old(db.committed) && db.history == old(db.history)
  {
    result := Transit(db, Paused, {Killed}, r);
    assert AllowedFor(ResetKilled) == {Killed};
  }
}
