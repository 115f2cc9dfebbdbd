/** The system state over whole runs: how KILLED is left, and what the log says about it. */
module KillSwitch {
  import opened AdminState
  import opened CycleSteps
  import opened LedgerInvariant
  import opened LedgerSteps
  import opened PaperDomain
  import opened Reconciliation
  import opened TradingCycle
  import opened TradingRuns
  import opened Wrappers
  import RiskEngine

  // ---------- one step ----------

  /** KILLED is left only by a reset, and only to PAUSED; fills appear only in a cycle that starts ENABLED. */
  lemma StateSteps(cfg: Config, t: Tables, step: Step)
    requires LedgerSound(cfg, t) && t.risk.Some? && Fresh(t, step)
    ensures var after := Next(cfg, t, step);
            && after.risk.Some? && t.fills <= after.fills
            && var before, later := t.risk.value.systemState, after.risk.value.systemState;
            && (before == Killed && later != Killed ==> step.Operate? && step.command == ResetKilled && later == Paused)
            && (before == Paused && later != Paused ==>
                  later == Killed || (step.Operate? && step.command == Resume && later == Enabled))
            && (after.fills != t.fills ==> step.Trading? && before == Enabled)
  {
    hide LedgerSound, Cycle, Reconcile;
    match step
    case Initialize(at) =>
      InitializedHasCash(cfg, t);
      InitializedAlready(cfg, t, at);
    case Trading(input, survives) => CycleEffects(cfg, t, input);
    case Operate(command, request) =>
    case Check(correlationId, at) => ReconcileEffect(cfg, t, correlationId, at);
  }

  // ---------- whole runs ----------

  predicate Commands(step: Step, c: Command) {
    step.Operate? && step.command == c
  }

  /** Somewhere in the steps a Resume, and later a cycle. */
  ghost predicate ResumedThenTraded(steps: seq<Step>) {
    exists j, k :: 0 <= j < k < |steps| && Commands(steps[j], Resume) && steps[k].Trading?
  }

  /** Somewhere in the steps a ResetKilled, later a Resume, and later a cycle. */
  ghost predicate ResetResumedThenTraded(steps: seq<Step>) {
    exists i, j, k :: 0 <= i < j < k < |steps| &&
      Commands(steps[i], ResetKilled) && Commands(steps[j], Resume) && steps[k].Trading?
  }

  lemma {:induction false} FillsNeedTrading(cfg: Config, t: Tables, steps: seq<Step>)
    requires LedgerSound(cfg, t) && t.risk.Some? && Possible(cfg, t, steps)
    ensures t.fills <= Run(cfg, t, steps).fills
    ensures Run(cfg, t, steps).fills != t.fills ==> exists k :: 0 <= k < |steps| && steps[k].Trading?
    decreases |steps|
  {
    hide LedgerSound, Next;
    if |steps| > 0 {
      StateSteps(cfg, t, steps[0]);
      NextSound(cfg, t, steps[0]);
      FillsNeedTrading(cfg, Next(cfg, t, steps[0]), steps[1..]);
      if !steps[0].Trading? && Run(cfg, t, steps).fills != t.fills {
        var k :| 0 <= k < |steps[1..]| && steps[1..][k].Trading?;
        assert steps[k + 1].Trading?;
      }
    }
  }

  /** From PAUSED, a new fill takes a Resume and then a cycle; from KILLED, a reset before those. */
  lemma {:induction false} StoppedNeedsOperator(cfg: Config, t: Tables, steps: seq<Step>)
    requires LedgerSound(cfg, t) && t.risk.Some? && Possible(cfg, t, steps)
    requires t.risk.value.systemState != Enabled && Run(cfg, t, steps).fills != t.fills
    ensures if t.risk.value.systemState == Killed then ResetResumedThenTraded(steps) else ResumedThenTraded(steps)
    decreases |steps|
  {
    hide LedgerSound, Next;
    var step, rest := steps[0], steps[1..];
    var after := Next(cfg, t, step);
    StateSteps(cfg, t, step);
    NextSound(cfg, t, step);
    if after.risk.value.systemState == Enabled {
      FillsNeedTrading(cfg, after, rest);
      var k :| 0 <= k < |rest| && rest[k].Trading?;
      assert Commands(steps[0], Resume) && steps[k + 1].Trading?;
    } else {
      StoppedNeedsOperator(cfg, after, rest);
      if after.risk.value.systemState == Killed {
        LaterReset(steps);
      } else {
        LaterResume(steps);
      }
    }
  }

  lemma LaterResume(steps: seq<Step>)
    requires |steps| > 0 && ResumedThenTraded(steps[1..])
    ensures ResumedThenTraded(steps)
    ensures Commands(steps[0], ResetKilled) ==> ResetResumedThenTraded(steps)
  {
    var rest := steps[1..];
    var j, k :| 0 <= j < k < |rest| && Commands(rest[j], Resume) && rest[k].Trading?;
    assert Commands(steps[j + 1], Resume) && steps[k + 1].Trading?;
  }

  lemma LaterReset(steps: seq<Step>)
    requires |steps| > 0 && ResetResumedThenTraded(steps[1..])
    ensures ResetResumedThenTraded(steps) && ResumedThenTraded(steps)
  {
    var rest := steps[1..];
    var i, j, k :|
      0 <= i < j < k < |rest| && Commands(rest[i], ResetKilled) && Commands(rest[j], Resume) && rest[k].Trading?;
    assert Commands(steps[i + 1], ResetKilled) && Commands(steps[j + 1], Resume) && steps[k + 1].Trading?;
  }

  /** Between any kill, whatever caused it, and the next new fill there are a reset and then a resume. */
  lemma KillIsSticky(cfg: Config, at: int, before: seq<Step>, later: seq<Step>)
    requires Possible(cfg, Opened(cfg, at), before + later)
    requires var t := Run(cfg, Opened(cfg, at), before); t.risk.Some? && t.risk.value.systemState == Killed
    requires Run(cfg, Opened(cfg, at), before + later).fills != Run(cfg, Opened(cfg, at), before).fills
    ensures ResetResumedThenTraded(later)
  {
    hide LedgerSound, Run, Possible, Opened;
    RunSplit(cfg, Opened(cfg, at), before, later);
    AccountSound(cfg, at, before);
    StoppedNeedsOperator(cfg, Run(cfg, Opened(cfg, at), before), later);
  }

  /** A kill stops every account that has a risk row, whatever state it is in, and records that it did. */
  lemma KillWorks(cfg: Config, t: Tables, r: Request)
    requires t.risk.Some?
    ensures var after := Next(cfg, t, Operate(Kill, r));
            && after.risk.Some? && after.risk.value.systemState == Killed && after.fills == t.fills
            && (t.risk.value.systemState != Killed ==>
                  after.events == t.events +
                  [Event(SystemStateChanged(t.risk.value.systemState, Killed, r.reason, r.operatorId),
                         r.correlationId, r.now)])
  {
    TransitionMeans(t, Kill, r);
    hide Transition;
  }

  /** After a kill, whatever the state before it, a new fill takes a reset, then a resume, then a cycle. */
  lemma KillStopsTrading(cfg: Config, at: int, before: seq<Step>, r: Request, later: seq<Step>)
    requires Possible(cfg, Opened(cfg, at), (before + [Operate(Kill, r)]) + later)
    ensures var t := Run(cfg, Opened(cfg, at), before + [Operate(Kill, r)]);
            && t.risk.Some? && t.risk.value.systemState == Killed
            && (Run(cfg, Opened(cfg, at), (before + [Operate(Kill, r)]) + later).fills != t.fills ==>
                  ResetResumedThenTraded(later))
  {
    hide LedgerSound, Run, Possible, Opened, Next, ResetResumedThenTraded;
    var kill := [Operate(Kill, r)];
    RunSplit(cfg, Opened(cfg, at), before + kill, later);
    RunSplit(cfg, Opened(cfg, at), before, kill);
    AccountSound(cfg, at, before);
    var t := Run(cfg, Opened(cfg, at), before);
    OneStep(cfg, t, Operate(Kill, r));
    KillWorks(cfg, t, r);
    if Run(cfg, Opened(cfg, at), (before + kill) + later).fills != Run(cfg, Opened(cfg, at), before + kill).fills {
      KillIsSticky(cfg, at, before + kill, later);
    }
  }

  lemma OneStep(cfg: Config, t: Tables, step: Step)
    ensures Run(cfg, t, [step]) == Next(cfg, t, step)
  {
    hide Next;
    assert [step][1..] == [];
    assert Run(cfg, Next(cfg, t, step), []) == Next(cfg, t, step);
  }

  // ---------- the log ----------

  /** The system state that the log alone tells. */
  function StateFrom(events: seq<Event>): SystemState {
    if |events| == 0 then Enabled
    else
      match events[|events| - 1].kind
      case SystemStateChanged(_, after, _, _) => after
      case ReconciliationFailed(_) => Killed
      case _ => StateFrom(events[..|events| - 1])
  }

  /** Every recorded change starts from the state that the log tells just before it, and is an allowed one. */
  ghost predicate Chained(events: seq<Event>) {
    forall n :: 0 <= n < |events| && events[n].kind.SystemStateChanged? ==> ChangeAllowed(events[..n], events[n].kind)
  }

  ghost predicate ChangeAllowed(before: seq<Event>, kind: EventKind)
    requires kind.SystemStateChanged?
  {
    kind.before == StateFrom(before) && exists c :: kind.before in AllowedFor(c) && kind.after == TargetOf(c)
  }

  /** The log tells the stored state. */
  ghost predicate LogTells(t: Tables) {
    t.risk.Some? && StateFrom(t.events) == t.risk.value.systemState && Chained(t.events)
  }

  lemma LogAppend(events: seq<Event>, e: Event)
    requires Chained(events) && (e.kind.SystemStateChanged? ==> ChangeAllowed(events, e.kind))
    ensures Chained(events + [e])
    ensures StateFrom(events + [e]) ==
            match e.kind
            case SystemStateChanged(_, after, _, _) => after
            case ReconciliationFailed(_) => Killed
            case _ => StateFrom(events)
  {
    hide ChangeAllowed;
    var all := events + [e];
    assert all[..|events|] == events;
    forall n | 0 <= n < |all| && all[n].kind.SystemStateChanged? ensures ChangeAllowed(all[..n], all[n].kind) {
      if n < |events| {
        assert all[..n] == events[..n];
      }
    }
  }

  lemma CycleLog(cfg: Config, t: Tables, input: CycleInput)
    requires LedgerSound(cfg, t) && LogTells(t) && input.intentId !in t.intents
    ensures var commits := Cycle(cfg, t, input).0;
            forall n :: 0 <= n < |commits| ==> LogTells(commits[n])
  {
    hide LedgerSound, Cycle, Open, Book, Reconcile, SameBooks, RiskEngine.Permits, ContextIn, Tradable, Chained,
      StateFrom;
    CycleStages(cfg, t, input);
    OpenMeans(cfg, t, input);
    var o := Open(cfg, t, input);
    if !o.Refused? {
      var kind := if o.Holding? then CycleHold(input.signal.value.key) else OpeningKind(o);
      LogAppend(t.events, Event(kind, input.correlationId, input.now));
      assert LogTells(o.tables);
    }
    if o.Decided? {
      LogAppend(o.tables.events,
                Event(EventKind.ExecutionFailed(o.intent.clientOrderId), input.correlationId, input.now));
      BookEffect(cfg, o, input);
      var b := BookOf(cfg, o, input);
      if b.Ok? {
        ReconcileLog(cfg, b.value.0, input.correlationId, input.now);
      }
    }
  }

  lemma ReconcileLog(cfg: Config, t: Tables, correlationId: string, now: int)
    requires LogTells(t)
    ensures LogTells(Reconcile(cfg, t, correlationId, now).0)
  {
    hide Reconcile, Chained, StateFrom;
    ReconcileEffect(cfg, t, correlationId, now);
    var report := Reconcile(cfg, t, correlationId, now).1;
    var kind := if report.consistent then ReconciliationSucceeded else ReconciliationFailed(report.anomalies);
    LogAppend(t.events, Event(kind, correlationId, now));
  }

  lemma CommandLog(t: Tables, c: Command, r: Request)
    requires LogTells(t)
    ensures LogTells(Transition(t, c, r).0)
  {
    hide Chained, StateFrom;
    var s := t.risk.value;
    if s.systemState in AllowedFor(c) {
      LogAppend(t.events,
                Event(SystemStateChanged(s.systemState, TargetOf(c), r.reason, r.operatorId), r.correlationId, r.now));
    }
  }

  lemma NextLog(cfg: Config, t: Tables, step: Step)
    requires LedgerSound(cfg, t) && LogTells(t) && Fresh(t, step)
    ensures LogTells(Next(cfg, t, step))
  {
    hide LedgerSound, LogTells, Cycle, Reconcile, Transition;
    match step
    case Initialize(at) =>
      InitializedHasCash(cfg, t);
      LogHasRisk(t);
      InitializedAlready(cfg, t, at);
    case Trading(input, survives) => CycleLog(cfg, t, input);
    case Operate(command, request) => CommandLog(t, command, request);
    case Check(correlationId, at) => ReconcileLog(cfg, t, correlationId, at);
  }

  lemma LogHasRisk(t: Tables)
    requires LogTells(t)
    ensures t.risk.Some?
  {}

  lemma {:induction false} RunLog(cfg: Config, t: Tables, steps: seq<Step>)
    requires LedgerSound(cfg, t) && LogTells(t) && Possible(cfg, t, steps)
    ensures LogTells(Run(cfg, t, steps))
    decreases |steps|
  {
    hide LedgerSound, Next, LogTells;
    if |steps| > 0 {
      LogHasRisk(t);
      NextLog(cfg, t, steps[0]);
      NextSound(cfg, t, steps[0]);
      RunLog(cfg, Next(cfg, t, steps[0]), steps[1..]);
    }
  }

  /** Folding the event log of any run reproduces the stored system state, change by allowed change. */
  lemma LogReproducesState(cfg: Config, at: int, steps: seq<Step>)
    requires Possible(cfg, Opened(cfg, at), steps)
    ensures LogTells(Run(cfg, Opened(cfg, at), steps))
  {
    OpenedSound(cfg, at);
    assert LogTells(Opened(cfg, at));
    hide LedgerSound, Run, LogTells;
    RunLog(cfg, Opened(cfg, at), steps);
  }
}
