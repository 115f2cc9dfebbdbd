/** The status machine of an order intent (domain/models/order.py, `transition_to`). */
module OrderLifecycle {
  import opened PaperDomain
  import opened PaperRepositories
  import opened Wrappers

  function AllowedFrom(s: IntentStatus): set<IntentStatus> {
    match s
    case Approved => {Executing, Cancelled, Failed}
    case Executing => {PartiallyFilled, Filled, Failed}
    case PartiallyFilled => {PartiallyFilled, Filled, Cancelled, Failed}
    case Rejected | Filled | Cancelled | Failed => {}
  }

  function TransitionTo(i: Intent, status: IntentStatus, at: int): Result<Intent, Error> {
    if status in AllowedFrom(i.status) then Ok(i.(status := status, updatedAt := at)) else Err(InvalidTransition)
  }

  /** From where each status can be reached in one transition; the first two never. */
  lemma TransitionMeans(i: Intent, status: IntentStatus, at: int)
    ensures var r := TransitionTo(i, status, at);
            && (r.Ok? ==> r.value == i.(status := status, updatedAt := at))
            && (r.Err? ==> r.error == InvalidTransition)
            && (status == Approved || status == Rejected ==> r.Err?)
            && (status == Executing ==> (r.Ok? <==> i.status == Approved))
            && (status == PartiallyFilled || status == Filled ==>
                  (r.Ok? <==> i.status == Executing || i.status == PartiallyFilled))
            && (status == Cancelled ==> (r.Ok? <==> i.status == Approved || i.status == PartiallyFilled))
            && (status == Failed ==>
                  (r.Ok? <==> i.status == Approved || i.status == Executing || i.status == PartiallyFilled))
  {}

  /** A sequence of transitions, each to a status at a time. */
  function Along(i: Intent, path: seq<(IntentStatus, int)>): Result<Intent, Error>
    decreases |path|
  {
    if |path| == 0 then Ok(i)
    else
      match TransitionTo(i, path[0].0, path[0].1)
      case Err(e) => Err(e)
      case Ok(next) => Along(next, path[1..])
  }

  predicate Passes(path: seq<(IntentStatus, int)>, s: IntentStatus) {
    exists n :: 0 <= n < |path| && path[n].0 == s
  }

  /** No path leads from APPROVED to FILLED but through EXECUTING, and none leaves a final status. */
  lemma {:induction false} FilledOnlyThroughExecuting(i: Intent, path: seq<(IntentStatus, int)>)
    requires Along(i, path).Ok?
    ensures i.status in {Rejected, Filled, Cancelled, Failed} ==> path == []
    ensures i.status == Approved && Along(i, path).value.status in {Filled, PartiallyFilled} ==> Passes(path, Executing)
    ensures Along(i, path).value ==
            i.(status := Along(i, path).value.status, updatedAt := Along(i, path).value.updatedAt)
    decreases |path|
  {
    if |path| > 0 {
      var next := TransitionTo(i, path[0].0, path[0].1).value;
      FilledOnlyThroughExecuting(next, path[1..]);
      if path[0].0 == Executing {
        assert Passes(path, Executing);
      }
    }
  }

  /**
    Booking a fill finalizes an approved intent in one write that `transition_to` refuses;
    its result is the same as going through EXECUTING.
   */
  lemma FinalizingSkipsExecuting(t: Tables, id: nat, started: int, at: int)
    requires id in t.intents && t.intents[id].status == Approved
    ensures TransitionTo(t.intents[id], Filled, at).Err?
    ensures var after := UpdateStatus(t, id, Approved, Filled, at);
            after.Some? && Along(t.intents[id], [(Executing, started), (Filled, at)]) == Ok(after.value.intents[id])
  {
    var i, path := t.intents[id], [(Executing, started), (Filled, at)];
    assert path[1..] == [(Filled, at)] && path[1..][1..] == [];
    var executing := TransitionTo(i, Executing, started).value;
    assert Along(executing, path[1..]) == TransitionTo(executing, Filled, at);
  }
}
