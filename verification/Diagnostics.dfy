/** Recovery diagnostics: counters and a bounded history of outcomes. */
module Diagnostics {
  import opened Focus
  import opened Results
  import opened Transitions
  import opened RecoveryConfigs

  datatype Reason =
    | WestonStartFailure | WestonUnexpectedExit | WestonReadinessTimeout
    | LddeStartFailure | LddeUnexpectedExit | LddeReadinessTimeout
    | ProcessFailure | SessionStartFailure | SessionRuntimeFailure | SessionShutdownFailure
    | RuntimeResourceFailure | Unknown

  /** What a recovery is asked for: one of the two managed components, or anything else by name. */
  datatype Target = Unspecified | WestonPart | LddePart | Named(name: string)

  datatype Outcome = Outcome(
    recoveryId: nat, target: Target, reason: Reason, policy: RecoveryPolicy, finalState: RecoveryState,
    attempt: nat, error: Option<ErrorCode>)

  const MAX_HISTORY_RECORDS: nat := 50

  /** The last n elements. */
  function LastOf<T>(s: seq<T>, n: nat): seq<T> {
    if |s| <= n then s else s[|s| - n..]
  }

  predicate InProgress(s: RecoveryState) {
    s == Recovering || s == Verifying
  }

  /** How many outcomes ended in the given state. */
  function CountOf(full: seq<Outcome>, state: RecoveryState): nat {
    if full == [] then 0
    else CountOf(full[..|full| - 1], state) + if full[|full| - 1].finalState == state then 1 else 0
  }

  lemma CountStep(full: seq<Outcome>, o: Outcome, state: RecoveryState)
    ensures CountOf(full + [o], state) == CountOf(full, state) + if o.finalState == state then 1 else 0
  {
    assert (full + [o])[..|full|] == full;
  }

  /** The error of the latest failure; a success after it does not clear it. */
  function LatestError(full: seq<Outcome>): Option<ErrorCode> {
    if full == [] then None
    else if full[|full| - 1].error.Some? then full[|full| - 1].error
    else LatestError(full[..|full| - 1])
  }

  lemma LatestErrorStep(full: seq<Outcome>, o: Outcome)
    ensures LatestError(full + [o]) == if o.error.Some? then o.error else LatestError(full)
  {
    assert (full + [o])[..|full|] == full;
  }

  predicate Ascending(full: seq<Outcome>) {
    forall i, j :: 0 <= i < j < |full| ==> full[i].recoveryId <= full[j].recoveryId
  }

  /** What the counters and the last error say about all outcomes. */
  ghost predicate Tallied(full: seq<Outcome>, successes: nat, failures: nat, lastError: Option<ErrorCode>) {
    forall n: nat {:trigger Round(n)} :: n == |full| ==>
      && successes == CountOf(full, Recovered) && failures == CountOf(full, RecoveryFailed)
      && lastError == LatestError(full) && Ascending(full)
  }

  lemma NothingTallied(full: seq<Outcome>)
    requires full == []
    ensures Tallied(full, 0, 0, None)
  {
    assert CountOf(full, Recovered) == 0 && CountOf(full, RecoveryFailed) == 0;
    assert LatestError(full) == None && Ascending(full);
  }

  lemma OneMoreTallied(full: seq<Outcome>, successes: nat, failures: nat, lastError: Option<ErrorCode>, o: Outcome)
    requires Tallied(full, successes, failures, lastError)
    requires forall i :: 0 <= i < |full| ==> full[i].recoveryId <= o.recoveryId
    ensures Tallied(full + [o], successes + (if o.finalState == Recovered then 1 else 0),
              failures + (if o.finalState == RecoveryFailed then 1 else 0),
              if o.error.Some? then o.error else lastError)
  {
    assert Round(|full|);
    CountStep(full, o, Recovered);
    CountStep(full, o, RecoveryFailed);
    LatestErrorStep(full, o);
    assert Ascending(full + [o]);
  }

  class RecoveryDiagnostics {
    var currentState: RecoveryState
    var totalAttempts: nat
    var successfulRecoveries: nat
    var failedRecoveries: nat
    var lastReason: Option<Reason>
    var lastTarget: Option<Target>
    var lastError: Option<ErrorCode>
    var history: seq<Outcome>
    ghost var full: seq<Outcome>          // every outcome ever recorded
    ghost var unstarted: nat              // outcomes recorded without a start

    /** The kept history is the tail of the full one, and the counters count it. */
    ghost predicate Valid()
      reads this
    {
      && history == LastOf(full, 50)
      && Tallied(full, successfulRecoveries, failedRecoveries, lastError)
      && totalAttempts + unstarted ==
           successfulRecoveries + failedRecoveries + (if InProgress(currentState) then 1 else 0)
    }

    constructor ()
      ensures Valid() && currentState == Idle && full == [] && totalAttempts == 0
    {
      currentState, totalAttempts, successfulRecoveries, failedRecoveries := Idle, 0, 0, 0;
      lastReason, lastTarget, lastError, history := None, None, None, [];
      full, unstarted := [], 0;
      new;
      NothingTallied(full);
    }

    method SetCurrentState(state: RecoveryState)
      requires Valid() && InProgress(state) == InProgress(currentState)
      modifies this`currentState
      ensures Valid() && currentState == state
    {
      currentState := state;
    }

    method RecordRecoveryStart(target: Target, reason: Reason)
      requires Valid() && !InProgress(currentState)
      modifies this
      ensures Valid() && currentState == Recovering && full == old(full) && unstarted == old(unstarted)
      ensures totalAttempts == old(totalAttempts) + 1 && lastReason == Some(reason) && lastTarget == Some(target)
    {
      totalAttempts := totalAttempts + 1;
      lastReason, lastTarget := Some(reason), Some(target);
      currentState := Recovering;
    }

    /** Appends an outcome, dropping the oldest kept one when there are fifty. */
    method Remember(o: Outcome)
      requires history == LastOf(full, MAX_HISTORY_RECORDS)
      modifies this`history, this`full
      ensures full == old(full) + [o] && history == LastOf(full, 50)
    {
      if |history| >= MAX_HISTORY_RECORDS {
        history := history[1..];
      }
      history := history + [o];
      full := full + [o];
    }

    method RecordRecoverySuccess(recoveryId: nat, target: Target, reason: Reason, policy: RecoveryPolicy, attempt: nat)
      requires Valid()
      requires forall i :: 0 <= i < |full| ==> full[i].recoveryId <= recoveryId
      modifies this
      ensures Valid() && currentState == Recovered && totalAttempts == old(totalAttempts)
      ensures unstarted == old(unstarted) + (if InProgress(old(currentState)) then 0 else 1)
      ensures lastReason == old(lastReason) && lastTarget == old(lastTarget)
      ensures full == old(full) + [Outcome(recoveryId, target, reason, policy, Recovered, attempt, None)]
    {
      var o := Outcome(recoveryId, target, reason, policy, Recovered, attempt, None);
      OneMoreTallied(full, successfulRecoveries, failedRecoveries, lastError, o);
      successfulRecoveries := successfulRecoveries + 1;
      if !InProgress(currentState) {
        unstarted := unstarted + 1;
      }
      currentState := Recovered;
      Remember(o);
    }

    /** A failure is also recorded for a request that never started. */
    method RecordRecoveryFailure(recoveryId: nat, target: Target, reason: Reason, policy: RecoveryPolicy, attempt: nat,
        error: ErrorCode)
      requires Valid()
      requires forall i :: 0 <= i < |full| ==> full[i].recoveryId <= recoveryId
      modifies this
      ensures Valid() && currentState == RecoveryFailed && totalAttempts == old(totalAttempts)
      ensures lastReason == old(lastReason) && lastTarget == old(lastTarget)
      ensures unstarted == old(unstarted) + (if InProgress(old(currentState)) then 0 else 1)
      ensures full == old(full) + [Outcome(recoveryId, target, reason, policy, RecoveryFailed, attempt, Some(error))]
    {
      var o := Outcome(recoveryId, target, reason, policy, RecoveryFailed, attempt, Some(error));
      OneMoreTallied(full, successfulRecoveries, failedRecoveries, lastError, o);
      failedRecoveries := failedRecoveries + 1;
      if !InProgress(currentState) {
        unstarted := unstarted + 1;
      }
      currentState := RecoveryFailed;
      lastError := Some(error);
      Remember(o);
    }
  }
}
