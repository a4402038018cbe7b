/** The session's state machine: a current state and the history of how it got there. */
module SessionStates {
  import opened Results
  import opened Transitions

  datatype TransitionEvent = TransitionEvent(source: SessionState, target: SessionState)

  /** A connected path of table edges from the initial state, which stands first as its own source. */
  predicate IsHistory(h: seq<TransitionEvent>) {
    && h != [] && h[0].source == h[0].target
    && forall i :: 0 < i < |h| ==>
         && h[i].source == h[i - 1].target && h[i].source != h[i].target
         && IsValidSessionTransition(h[i].source, h[i].target)
  }

  type History = h: seq<TransitionEvent> | IsHistory(h) witness [TransitionEvent(CREATED, CREATED)]

  class SessionStateMachine {
    var currentState: SessionState
    var history: History

    ghost predicate Valid()
      reads this
    {
      currentState == history[|history| - 1].target
    }

    constructor (initial: SessionState)
      ensures Valid() && currentState == initial && history == [TransitionEvent(initial, initial)]
    {
      currentState := initial;
      history := [TransitionEvent(initial, initial)];
    }

    /** Takes an edge of the table and records it; staying put succeeds without a record. */
    method TransitionTo(target: SessionState) returns (r: Result<()>)
      requires Valid()
      modifies this
      ensures Valid() && old(history) <= history
      ensures r == if IsValidSessionTransition(old(currentState), target) then Success(())
                   else Failure(SessionInvalidState)
      ensures currentState == if r.Success? then target else old(currentState)
      ensures history == old(history) + if currentState == old(currentState) then []
                                        else [TransitionEvent(old(currentState), target)]
    {
      if currentState == target {
        return Success(());
      }
      if !IsValidSessionTransition(currentState, target) {
        return Failure(SessionInvalidState);
      }
      history := history + [TransitionEvent(currentState, target)];
      currentState := target;
      r := Success(());
    }
  }

  /** In any history a session is RUNNING only after having been STARTING: recovery leads back to
      RUNNING but never there for the first time. */
  lemma {:induction false} RunningAfterStarting(h: History, n: nat)
    requires h[0].target == CREATED && n < |h| && (h[n].target == RUNNING || h[n].target == RECOVERING)
    requires forall i :: 0 < i < n ==> h[i].target != STOPPED && h[i].target != FAILED
    ensures exists i :: 0 <= i <= n && h[i].target == STARTING
  {
    if h[n].source == STARTING {
      assert h[n - 1].target == STARTING;
    } else {
      assert h[n].source == h[n - 1].target;
      RunningAfterStarting(h, n - 1);
    }
  }
}
