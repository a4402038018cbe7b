/** The recovery manager: budget, policy, restart of a component or of the whole session, and its verdict. */
module Recovery {
  import opened Focus
  import opened Results
  import opened Transitions
  import opened Trace
  import opened Components
  import opened Sessions
  import opened RecoveryConfigs
  import opened AttemptWindow
  import opened Diagnostics

  /** An unnamed target follows from the reason. */
  function TargetOf(reason: Reason, target: Target): Target {
    if target != Unspecified then target
    else if reason == WestonStartFailure || reason == WestonUnexpectedExit || reason == WestonReadinessTimeout then
      WestonPart
    else if reason == LddeStartFailure || reason == LddeUnexpectedExit || reason == LddeReadinessTimeout then
      LddePart
    else Named("session")
  }

  predicate ConcernsSession(reason: Reason) {
    reason == SessionStartFailure || reason == SessionRuntimeFailure || reason == SessionShutdownFailure
  }

  function DeterminePolicy(c: RecoveryConfig, reason: Reason, target: Target, attempt: nat): RecoveryPolicy {
    if !c.enabled then NoRecovery
    else if attempt > c.maxAttempts then FailSession
    else if ConcernsSession(reason) then (if c.allowSessionRestart then SessionRestart else FailSession)
    else if target == WestonPart || target == LddePart then
      (if c.allowComponentRestart then ComponentRestart
       else if c.allowSessionRestart then SessionRestart
       else FailSession)
    else c.defaultPolicy
  }

  predicate IsRestart(policy: RecoveryPolicy) {
    policy == ComponentRestart || policy == SessionRestart
  }

  /** The settings let this request be acted upon, budget aside. */
  predicate Permitted(c: RecoveryConfig, reason: Reason, target: Target) {
    var policy := DeterminePolicy(c, reason, target, c.maxAttempts);
    policy == ComponentRestart || policy == SessionRestart
  }

  /** Acting on this request restarts the session and with it the supervisor. */
  predicate RestartsSession(c: RecoveryConfig, reason: Reason, target: Target) {
    var policy := DeterminePolicy(c, reason, target, c.maxAttempts);
    policy == SessionRestart || (policy == ComponentRestart && target != WestonPart && target != LddePart)
  }

  /** The request is about the session as a whole. */
  predicate OfSession(reason: Reason) {
    reason in {SessionStartFailure, SessionRuntimeFailure, SessionShutdownFailure}
  }

  /** The request is about one of the two managed components. */
  predicate OfPart(reason: Reason, target: Target) {
    !OfSession(reason) && target in {WestonPart, LddePart}
  }

  /** The policy the settings choose: a component restart for a component whenever allowed, a session restart
      in its place or for a session failure, and the default policy for anything else. */
  predicate Chosen(c: RecoveryConfig, reason: Reason, target: Target, attempt: nat, policy: RecoveryPolicy) {
    var inBudget, other := attempt <= c.maxAttempts, !OfSession(reason) && !OfPart(reason, target);
    && (policy == ComponentRestart <==>
          inBudget && ((OfPart(reason, target) && c.allowComponentRestart)
                       || (other && c.defaultPolicy == ComponentRestart)))
    && (policy == SessionRestart <==>
          inBudget && ((OfSession(reason) && c.allowSessionRestart)
                       || (OfPart(reason, target) && !c.allowComponentRestart && c.allowSessionRestart)
                       || (other && c.defaultPolicy == SessionRestart)))
    && (policy == NoRecovery <==> inBudget && other && c.defaultPolicy == NoRecovery)
  }

  lemma PolicyBySettings(c: RecoveryConfig, reason: Reason, target: Target, attempt: nat)
    requires c.enabled
    ensures Chosen(c, reason, target, attempt, DeterminePolicy(c, reason, target, attempt))
  {
  }

  /** Budget aside, the settings let a request of this kind be acted upon. */
  predicate MayActOn(c: RecoveryConfig, reason: Reason, target: Target) {
    if OfSession(reason) then c.allowSessionRestart
    else if OfPart(reason, target) then c.allowComponentRestart || c.allowSessionRestart
    else c.defaultPolicy in {ComponentRestart, SessionRestart}
  }

  lemma PermittedBySettings(c: RecoveryConfig, reason: Reason, target: Target)
    requires c.enabled
    ensures Permitted(c, reason, target) <==> MayActOn(c, reason, target)
    ensures RestartsSession(c, reason, target) <==>
              MayActOn(c, reason, target) && !(OfPart(reason, target) && c.allowComponentRestart)
  {
  }

  /** A target that is not named is the component the reason speaks of, and else the session. */
  lemma TargetByReason(reason: Reason, target: Target)
    ensures target != Unspecified ==> TargetOf(reason, target) == target
    ensures TargetOf(reason, Unspecified) == WestonPart <==>
              reason in {WestonStartFailure, WestonUnexpectedExit, WestonReadinessTimeout}
    ensures TargetOf(reason, Unspecified) == LddePart <==>
              reason in {LddeStartFailure, LddeUnexpectedExit, LddeReadinessTimeout}
    ensures TargetOf(reason, Unspecified) in {WestonPart, LddePart, Named("session")}
  {
  }

  predicate IsRecoveryPath(path: seq<RecoveryState>) {
    && path != [] && path[0] == Idle
    && forall i :: 0 <= i < |path| - 1 ==> IsValidRecoveryTransition(path[i], path[i + 1])
  }

  type RecoveryPath = p: seq<RecoveryState> | IsRecoveryPath(p) witness [Idle]

  /** The milestones at some moment, and those of stopping and starting the parts from there; whether the
      compositor was running, and how often the system had refused something. */
  datatype Marks = Marks(before: seq<Milestone>, stopDesktop: seq<Milestone>, stopCompositor: seq<Milestone>,
    runCompositor: seq<Milestone>, runDesktop: seq<Milestone>, runAll: seq<Milestone>, up: bool, refusals: nat)

  /** LDDE, and nothing else, was stopped and became Running again. */
  predicate DesktopRestarted(m: Marks, now: seq<Milestone>) {
    m.runDesktop != [] && now == m.before + m.stopDesktop + m.runDesktop
  }

  /** LDDE was stopped, then Weston; then Weston became Running again, then LDDE. */
  predicate BothRestarted(m: Marks, now: seq<Milestone>) {
    m.runCompositor != [] && now == m.before + m.stopDesktop + m.stopCompositor + m.runCompositor + m.runDesktop
  }

  predicate BothStopped(m: Marks, now: seq<Milestone>) {
    now == m.before + m.stopDesktop + m.stopCompositor
  }

  /** LDDE was stopped, then Weston; then every component became Running, in start order. */
  predicate SessionRestarted(m: Marks, now: seq<Milestone>) {
    now == m.before + m.stopDesktop + m.stopCompositor + m.runAll
  }

  /** What a successful recovery did, by policy and target. */
  predicate Restarted(target: Target, policy: RecoveryPolicy, m: Marks, now: seq<Milestone>) {
    if policy == ComponentRestart && target == LddePart then DesktopRestarted(m, now) || BothRestarted(m, now)
    else if policy == ComponentRestart && target == WestonPart then BothRestarted(m, now)
    else SessionRestarted(m, now)
  }

  class RecoveryManager {
    const session: Session
    const config: RecoveryConfig
    const diagnostics: RecoveryDiagnostics
    var state: RecoveryState
    var currentRecoveryId: nat
    var attemptTimestamps: seq<nat>
    ghost var path: RecoveryPath            // every state written
    ghost var requests: seq<Request>        // every request counted since the last reset
    ghost var purgedAt: nat

    ghost predicate Valid()
      reads this, diagnostics, session, session.machine, session.components, session.supervisor,
            session.supervisor.registry, session.os, session.supervisor.procs
    {
      session.Valid() && Books() && purgedAt <= session.os.now
    }

    /** What the manager keeps by itself. */
    ghost predicate Books()
      reads this, diagnostics
    {
      forall m {:trigger Inside(m)} :: m == this ==> Ledger()
    }

    ghost predicate Ledger()
      reads this, diagnostics
    {
      && path[|path| - 1] == state
      && diagnostics.Valid() && diagnostics.currentState == state
      && (forall i :: 0 <= i < |diagnostics.full| ==> diagnostics.full[i].recoveryId <= currentRecoveryId)
      && KeepsWindow(requests, attemptTimestamps, purgedAt, config.maxAttempts, config.windowMs)
    }

    constructor (session: Session, config: RecoveryConfig)
      requires session.Valid()
      ensures Valid() && this.session == session && this.config == config && fresh(diagnostics) && state == Idle
      ensures requests == []
    {
      this.session, this.config := session, config;
      diagnostics := new RecoveryDiagnostics();
      state, currentRecoveryId, attemptTimestamps := Idle, 0, [];
      path, requests, purgedAt := [Idle], [], 0;
      new;
      NothingCounted(0, config.maxAttempts, config.windowMs);
      assert Inside(this);
    }

    /** Back to Idle, from any state at rest. */
    method Reset()
      requires Books() && !InProgress(state)
      modifies this, diagnostics
      ensures Books() && state == Idle && requests == [] && purgedAt == old(purgedAt)
      ensures diagnostics.full == old(diagnostics.full)
    {
      assert Inside(this);
      Write(Idle);
      diagnostics.SetCurrentState(Idle);
      attemptTimestamps := [];
      requests := [];
      NothingCounted(purgedAt, config.maxAttempts, config.windowMs);
    }

    method Write(target: RecoveryState)
      requires path[|path| - 1] == state && IsValidRecoveryTransition(state, target)
      modifies this`state, this`path
      ensures path[|path| - 1] == state == target
    {
      state := target;
      path := path + [target];
    }

    /** Drops the stamps older than the window. */
    method PurgeExpired(now: nat)
      requires Books() && now >= purgedAt
      modifies this`attemptTimestamps, this`purgedAt
      ensures Books() && purgedAt == now
    {
      assert Inside(this);
      attemptTimestamps := Advance(requests, attemptTimestamps, purgedAt, now, config.maxAttempts, config.windowMs);
      purgedAt := now;
    }

    /** Counts a request: its attempt number is one more than the recent requests. */
    method Stamp(now: nat, ghost executed: bool) returns (attempt: nat)
      requires Books() && purgedAt == now
      requires executed ==> |attemptTimestamps| < config.maxAttempts
      modifies this`attemptTimestamps, this`requests, this`currentRecoveryId
      ensures Books() && attempt == |old(attemptTimestamps)| + 1 == |attemptTimestamps|
      ensures requests == old(requests) + [Request(now, executed)] && currentRecoveryId == old(currentRecoveryId) + 1
    {
      assert Inside(this);
      BudgetKept(requests, attemptTimestamps, Request(now, executed), config.maxAttempts, config.windowMs);
      attemptTimestamps := attemptTimestamps + [now];
      attempt := |attemptTimestamps|;
      currentRecoveryId := currentRecoveryId + 1;
      requests := requests + [Request(now, executed)];
    }

    /** The outcomes and the number of starts the diagnostics gained. */
    twostate predicate Recorded(outcomes: seq<Outcome>, starts: nat)
      reads diagnostics
    {
      && diagnostics.full == old(diagnostics.full) + outcomes
      && diagnostics.totalAttempts == old(diagnostics.totalAttempts) + starts
    }

    method NoteStart(target: Target, reason: Reason)
      requires Books() && !InProgress(state)
      modifies this`state, this`path, diagnostics
      ensures Books() && state == Recovering && Recorded([], 1)
    {
      assert Inside(this);
      Write(Recovering);
      diagnostics.RecordRecoveryStart(target, reason);
    }

    method NoteVerifying()
      requires Books() && InProgress(state)
      modifies this`state, this`path, diagnostics
      ensures Books() && state == Verifying && Recorded([], 0)
    {
      assert Inside(this);
      Write(Verifying);
      diagnostics.SetCurrentState(Verifying);
    }

    method NoteSuccess(target: Target, reason: Reason, policy: RecoveryPolicy, attempt: nat)
      requires Books() && state == Verifying
      modifies this`state, this`path, diagnostics
      ensures Books() && state == Recovered
      ensures Recorded([Outcome(currentRecoveryId, target, reason, policy, Recovered, attempt, None)], 0)
      ensures LastOutcome(target, reason) && Noted(policy, attempt, Success(()))
    {
      assert Inside(this);
      Write(Recovered);
      diagnostics.RecordRecoverySuccess(currentRecoveryId, target, reason, policy, attempt);
    }

    method NoteFailure(target: Target, reason: Reason, policy: RecoveryPolicy, attempt: nat, error: ErrorCode)
      requires Books()
      modifies this`state, this`path, diagnostics
      ensures Books() && state == RecoveryFailed
      ensures Recorded([Outcome(currentRecoveryId, target, reason, policy, RecoveryFailed, attempt, Some(error))], 0)
    {
      assert Inside(this);
      Write(RecoveryFailed);
      diagnostics.RecordRecoveryFailure(currentRecoveryId, target, reason, policy, attempt, error);
    }

    /** Records the failure and fails the session: everything is stopped. */
    method FailWith(target: Target, reason: Reason, policy: RecoveryPolicy, attempt: nat, error: ErrorCode)
      requires Valid()
      modifies this`state, this`path, diagnostics, session.machine
      modifies session.components, session.supervisor, session.supervisor.registry, session.os, session.supervisor.procs
      ensures Valid() && state == RecoveryFailed && session.Onward() && Down()
      ensures Recorded([Outcome(currentRecoveryId, target, reason, policy, RecoveryFailed, attempt, Some(error))], 0)
      ensures session.machine.currentState ==
                if IsValidSessionTransition(old(session.machine.currentState), FAILED) then FAILED
                else old(session.machine.currentState)
    {
      NoteFailure(target, reason, policy, attempt, error);
      session.Fail();
    }

    /** Nothing runs and nothing lives. */
    ghost predicate Down()
      reads session, session.components, session.os
    {
      session.Quiet(0) && session.os.log.monitor.live == {}
    }

    /** Whether the compositor, if there is one, runs and its socket answers. */
    method CheckCompositor() returns (up: bool)
      requires session.Valid()
      modifies session.os`log, session.os`refusals
      ensures session.Valid() && session.Onward() && OnlyLooked(old(session.os.log.monitor), session.os.log.monitor, 0)
      ensures up ==> session.compositor.Some? ==> session.compositor.value.state == Running && session.SocketAnswers()
      ensures !up ==>
                session.compositor.Some?
                && (session.compositor.value.state != Running || session.os.refusals > old(session.os.refusals))
    {
      if session.compositor.None? {
        return true;
      }
      session.Known();
      if !session.compositor.value.IsRunning() {
        return false;
      }
      up := session.TrySocket();
    }

    /** Compositor and desktop run, and the compositor's socket answers; nothing but that look is made. */
    method Verify() returns (r: Result<()>)
      requires session.Valid()
      modifies session.os`log, session.os`refusals
      ensures session.Valid() && session.Onward() && OnlyLooked(old(session.os.log.monitor), session.os.log.monitor, 0)
      ensures r.Success? ==> session.PartsRunning() && (session.compositor.Some? ==> session.SocketAnswers())
      ensures r.Failure? && session.PartsRunning() ==> session.os.refusals > old(session.os.refusals)
    {
      session.Known();
      var up := CheckCompositor();
      if !up {
        return Failure(RecoveryReadinessFailed);
      }
      if session.desktop.Some? && !session.desktop.value.IsRunning() {
        return Failure(RecoveryReadinessFailed);
      }
      r := Success(());
    }

    /** The system refused something. */
    twostate predicate Refused()
      reads session.os
    {
      session.os.refusals > old(session.os.refusals)
    }

    /** Stops, resets and restarts the desktop under a running compositor. */
    method RestartDesktop(desk: Component) returns (r: Result<()>)
      requires Valid() && state == Recovering && session.desktop == Some(desk)
      requires session.compositor.Some? ==> session.compositor.value.state == Running
      modifies this`state, this`path, diagnostics
      modifies session.components, session.supervisor, session.supervisor.registry, session.os, session.supervisor.procs
      ensures Valid() && session.Onward() && Recorded([], 0) && state == Verifying
      ensures r.Success? ==> session.Revived(true) && !old(session.supervisor.shuttingDown)
      ensures r.Success? ==> session.Reached(old(session.StopMark(Some(desk))) + session.RunMark(Some(desk)))
      ensures r.Failure? && old(desk.attached && !session.supervisor.shuttingDown) ==> Refused()
    {
      session.Known();
      session.Cycle(desk);
      NoteVerifying();
      r := StartDesktop(desk);
    }

    method StartDesktop(desk: Component) returns (r: Result<()>)
      requires session.Valid() && desk in session.components && desk.kind == Ldde && session.desktop == Some(desk)
      requires session.compositor.Some? ==> session.compositor.value.state == Running
      modifies desk, session.supervisor, session.supervisor.registry, session.os, session.supervisor.procs
      ensures session.Valid() && session.Onward()
      ensures r.Success? ==> session.Revived(true) && !old(session.supervisor.shuttingDown)
      ensures r.Success? ==> session.Reached(session.RunMark(Some(desk)))
      ensures r.Failure? && old(desk.attached && Startable(desk.state) && !session.supervisor.shuttingDown) ==>
                Refused()
    {
      session.Known();
      r := session.BringUp(desk);
      if r.Success? {
        r := Verify();
        if r.Success? {
          session.PartsRevived(true);
        }
      }
    }

    /** The milestones so far, and those a restart would add as things stand. */
    ghost function Standing(): Marks
      reads session, session.os, session.Part(session.compositor), session.Part(session.desktop)
    {
      Marks(session.os.log.monitor.milestones,
            session.StopMark(session.desktop), session.StopMark(session.compositor),
            session.RunMark(session.compositor), session.RunMark(session.desktop), RunsOf(session.components),
            session.compositor.Some? ==> session.compositor.value.state == Running, session.os.refusals)
    }

    ghost function Now(): seq<Milestone>
      reads session.os
    {
      session.os.log.monitor.milestones
    }

    /** A successful recovery did what the policy says, and processes stand behind the parts. */
    ghost predicate Returned(target: Target, policy: RecoveryPolicy, m: Marks)
      reads session, session.os, session.supervisor, session.Part(session.compositor), session.Part(session.desktop)
    {
      forall s {:trigger Beside(s)} :: s == session ==>
        if policy == ComponentRestart && target == LddePart then DesktopReturned(m)
        else Restarted(target, policy, m, Now()) && session.Revived(false)
    }

    ghost predicate DesktopReturned(m: Marks)
      reads session, session.os, session.supervisor, session.Part(session.compositor), session.Part(session.desktop)
    {
      || (DesktopRestarted(m, Now()) && session.Revived(true))
      || (BothRestarted(m, Now()) && session.Revived(false) && (!m.up || session.os.refusals > m.refusals))
    }

    /** Compositor and desktop are there, nothing else is, and the open supervisor is theirs. */
    ghost predicate Whole()
      reads session, session.supervisor, session.Part(session.compositor), session.Part(session.desktop)
    {
      && session.OnlyParts() && session.Held(session.compositor) && session.Held(session.desktop)
      && !session.supervisor.shuttingDown
    }

    /** Nothing about the parts changed. */
    twostate predicate AsBefore()
      reads session, session.os, session.supervisor, session.Part(session.compositor), session.Part(session.desktop)
    {
      Standing() == old(Standing()) && Whole() == old(Whole())
    }

    twostate lemma StillAsBefore()
      requires session.os.refusals == old(session.os.refusals)
      requires unchanged(session) && unchanged(session.supervisor) && session.os.log == old(session.os.log)
      requires forall c :: c in session.Part(session.compositor) + session.Part(session.desktop) ==> unchanged(c)
      ensures AsBefore()
    {
      var parts := session.Part(session.compositor) + session.Part(session.desktop);
      assert session.compositor.Some? ==> session.compositor.value in parts;
      assert session.desktop.Some? ==> session.desktop.value in parts;
    }

    /** LDDE alone is restarted if Weston is up; otherwise its failure escalates. */
    method RecoverLdde() returns (r: Result<()>)
      requires Valid() && state == Recovering
      modifies this`state, this`path, diagnostics
      modifies session.components, session.supervisor, session.supervisor.registry, session.os, session.supervisor.procs
      ensures Valid() && session.Onward() && Recorded([], 0) && InProgress(state)
      ensures r.Success? ==> state == Verifying && !old(session.supervisor.shuttingDown)
      ensures r.Success? ==> DesktopReturned(old(Standing()))
      ensures r.Failure? && old(Whole()) ==> Refused()
    {
      var up := CheckCompositor();
      r := RecoverUnder(up);
    }

    /** The rest, once it is known whether Weston is up. */
    method RecoverUnder(up: bool) returns (r: Result<()>)
      requires Valid() && state == Recovering
      requires !up ==> session.compositor.Some?
      requires up && session.compositor.Some? ==> session.compositor.value.state == Running
      modifies this`state, this`path, diagnostics
      modifies session.components, session.supervisor, session.supervisor.registry, session.os, session.supervisor.procs
      ensures Valid() && session.Onward() && Recorded([], 0) && InProgress(state)
      ensures r.Success? ==> state == Verifying && !old(session.supervisor.shuttingDown)
      ensures r.Success? ==>
                if up then DesktopRestarted(old(Standing()), Now()) && session.Revived(true)
                else BothRestarted(old(Standing()), Now()) && session.Revived(false)
      ensures r.Failure? && old(Whole()) ==> Refused()
    {
      if !up {
        r := RecoverWeston();
      } else if session.desktop.None? {
        r := Failure(RecoveryPreconditionFailed);
      } else {
        r := RestartDesktop(session.desktop.value);
      }
    }

    /** LDDE stops before Weston, Weston starts before LDDE. */
    method RecoverWeston() returns (r: Result<()>)
      requires Valid() && state == Recovering
      modifies this`state, this`path, diagnostics
      modifies session.components, session.supervisor, session.supervisor.registry, session.os, session.supervisor.procs
      ensures Valid() && session.Onward() && Recorded([], 0) && InProgress(state)
      ensures r.Success? ==> state == Verifying && !old(session.supervisor.shuttingDown)
      ensures r.Success? ==> BothRestarted(old(Standing()), Now()) && session.Revived(false)
      ensures r.Failure? && old(Whole()) ==> Refused()
    {
      if session.compositor.None? {
        r := Failure(RecoveryPreconditionFailed);
      } else {
        r := RestartInOrder(session.compositor.value);
      }
    }

    method RestartInOrder(comp: Component) returns (r: Result<()>)
      requires Valid() && state == Recovering && session.compositor == Some(comp)
      modifies this`state, this`path, diagnostics
      modifies session.components, session.supervisor, session.supervisor.registry, session.os, session.supervisor.procs
      ensures Valid() && session.Onward() && Recorded([], 0) && state == Verifying
      ensures r.Success? ==> BothRestarted(old(Standing()), Now()) && session.Revived(false)
      ensures r.Success? ==> !old(session.supervisor.shuttingDown)
      ensures r.Failure? && old(Whole()) ==> Refused()
    {
      session.Known();
      ghost var m := Standing();
      session.StopDesktop();
      ghost var between := Now();
      r := RestartBoth(comp);
      if r.Success? {
        InThisOrder(m, between, Now());
      }
    }

    lemma InThisOrder(m: Marks, between: seq<Milestone>, now: seq<Milestone>)
      requires m.runCompositor != [] && between == m.before + m.stopDesktop
      requires now == between + (m.stopCompositor + (m.runCompositor + m.runDesktop))
      ensures BothRestarted(m, now)
    {
    }

    /** The compositor, then the desktop, which is down already. */
    method RestartBoth(comp: Component) returns (r: Result<()>)
      requires Valid() && state == Recovering && session.compositor == Some(comp)
      requires NoneLive(session.os.log.monitor, Ldde)
      modifies this`state, this`path, diagnostics
      modifies session.components, session.supervisor, session.supervisor.registry, session.os, session.supervisor.procs
      ensures Valid() && session.Onward() && Recorded([], 0) && state == Verifying
      ensures r.Success? ==> session.Revived(false) && !old(session.supervisor.shuttingDown)
      ensures r.Success? ==>
                session.Reached(old(session.StopMark(Some(comp)))
                                + (session.RunMark(Some(comp)) + session.RunMark(session.desktop)))
      ensures r.Failure? && old(Whole()) ==> Refused()
    {
      session.Known();
      session.Cycle(comp);
      NoteVerifying();
      r := BringUpBoth(comp);
    }

    /** Starts the compositor, and the desktop under it. */
    method BringUpBoth(comp: Component) returns (r: Result<()>)
      requires session.Valid() && session.compositor == Some(comp)
      modifies session.components, session.supervisor, session.supervisor.registry, session.os, session.supervisor.procs
      ensures session.Valid() && session.Onward()
      ensures r.Success? ==> session.Revived(false) && !old(session.supervisor.shuttingDown)
      ensures r.Success? ==> session.Reached(session.RunMark(Some(comp)) + session.RunMark(session.desktop))
      ensures r.Failure? && old(Startable(comp.state) && Whole()) ==> Refused()
    {
      session.Known();
      r := session.BringUp(comp);
      if r.Success? {
        r := RestartUnder();
      }
    }

    /** Starts the desktop again, if there is one; the compositor is left as it is. */
    method RestartAbove() returns (r: Result<()>)
      requires session.Valid()
      requires session.compositor.Some? ==> session.compositor.value.state == Running
      modifies session.components, session.supervisor, session.supervisor.registry, session.os, session.supervisor.procs
      ensures session.Valid() && session.Onward()
      ensures r.Success? && session.desktop.Some? ==>
                session.Manned(session.desktop) && session.desktop.value.state == Running
      ensures session.compositor.Some? ==> session.compositor.value.state == Running
      ensures r.Success? && old(session.Manned(session.compositor)) ==> session.Manned(session.compositor)
      ensures r.Failure? && old(session.Held(session.desktop) && !session.supervisor.shuttingDown) ==> Refused()
      ensures r.Success? ==> session.Reached(session.RunMark(session.desktop))
    {
      r := Success(());
      if session.desktop.Some? {
        session.Known();
        ghost var m, manned := session.os.log.monitor, session.Manned(session.compositor);
        r := RestartOnly(session.desktop.value);
        if r.Success? && session.compositor.Some? && manned {
          var comp := session.compositor.value;
          StaysEquipped(m, session.os.log.monitor, Ldde, comp.handle.value, session.supervisor.baseEnvironment,
            comp.settings.environment);
        }
      }
    }

    /** Starts the desktop again, if there is one, and checks the whole. */
    method RestartUnder() returns (r: Result<()>)
      requires session.Valid()
      requires session.compositor.Some? ==> session.compositor.value.state == Running
      modifies session.components, session.supervisor, session.supervisor.registry, session.os, session.supervisor.procs
      ensures session.Valid() && session.Onward()
      ensures r.Success? ==> session.Revived(true)
      ensures r.Success? && old(session.Manned(session.compositor)) ==> session.Revived(false)
      ensures r.Failure? && old(session.Held(session.desktop) && !session.supervisor.shuttingDown) ==> Refused()
      ensures r.Success? ==> session.Reached(session.RunMark(session.desktop))
    {
      session.Known();
      r := RestartAbove();
      if r.Success? {
        r := Verify();
        if r.Success? {
          session.PartsRevived(true);
          if session.Manned(session.compositor) {
            session.PartsRevived(false);
          }
        }
      }
    }

    method RestartOnly(desk: Component) returns (r: Result<()>)
      requires session.Valid() && desk in session.components && desk.kind == Ldde
      requires session.compositor.Some? ==> session.compositor.value.state == Running
      modifies desk, session.supervisor, session.supervisor.registry, session.os, session.supervisor.procs
      ensures session.Valid() && session.Onward()
      ensures r.Success? ==> session.Manned(Some(desk)) && desk.state == Running
      ensures session.Steady()
      ensures r.Failure? && old(desk.attached && !session.supervisor.shuttingDown) ==> Refused()
      ensures r.Success? ==> OthersKept(old(session.os.log.monitor), session.os.log.monitor, Ldde)
      ensures r.Success? ==> session.Reached(session.RunMark(Some(desk)))
    {
      session.Known();
      ghost var before := session.os.log.monitor;
      session.ResetOne(desk);
      session.Known();
      ghost var between := session.os.log.monitor;
      r := session.BringUp(desk);
      if r.Success? {
        OthersKeptTrans(before, between, session.os.log.monitor, Ldde);
      }
    }

    /** Everything down and back to Created, behind an emptied supervisor. */
    method Dismantle()
      requires session.Valid() && session.supervised
      modifies session`supervised
      modifies session.components, session.supervisor, session.supervisor.registry, session.os, session.supervisor.procs
      ensures session.Valid() && session.Onward() && session.supervised && session.os.log.monitor.live == {}
      ensures BothStopped(old(Standing()), Now())
      ensures session.PartIn(session.compositor, Created) && session.PartIn(session.desktop, Created)
      ensures !session.supervisor.shuttingDown && session.EnvironmentInUse()
    {
      session.Quiesce();
      session.RenewSupervisor();
      session.ResetParts();
    }

    ghost predicate PartsFresh()
      reads session, session.Part(session.compositor), session.Part(session.desktop)
    {
      session.PartIn(session.compositor, Created) && session.PartIn(session.desktop, Created)
    }

    /** From RECOVERING or FAILED, among others, through INITIALIZING to READY. */
    method Reinitialize() returns (r: Result<()>)
      requires session.Valid() && session.supervised && session.os.log.monitor.live == {}
      modifies session.machine, session.components, session.supervisor`listeners
      modifies session.os`log, session.os`refusals, session.os`answers
      ensures session.Valid() && session.Onward()
      ensures r.Success? ==> session.machine.currentState == READY
      ensures old(session.machine.currentState) == RECOVERING ==> r.Success?
      ensures session.Reached([])
      ensures r.Success? && old(PartsFresh() && session.OnlyParts() && !session.supervisor.shuttingDown) ==>
                session.MayStart() || Refused()
    {
      r := Enter();
      if r.Success? {
        session.ReadmitParts();
        if session.OnlyParts() && PartsFresh() {
          session.PartsPrimed();
        }
        r := session.TransitionTo(READY);
      }
    }

    /** Through STOPPED where the table allows it, to INITIALIZING. */
    method Enter() returns (r: Result<()>)
      requires session.Valid()
      modifies session.machine
      ensures session.Valid() && (r.Success? ==> session.machine.currentState == INITIALIZING)
      ensures r.Success? <==>
                old(session.machine.currentState)
                in {CREATED, INITIALIZING, STOPPING, STOPPED, FAILED, RECOVERING}
      ensures old(session.machine.currentState) == RECOVERING ==> r.Success?
    {
      var current := session.machine.currentState;
      if current == RECOVERING || current == RUNNING || current == STOPPING {
        var _ := session.TransitionTo(STOPPED);
      }
      r := session.TransitionTo(INITIALIZING);
    }

    /** Everything down, and the session READY again. */
    method Rebuild() returns (r: Result<()>)
      requires session.Valid() && session.supervised
      modifies session`supervised, session.machine
      modifies session.components, session.supervisor, session.supervisor.registry, session.os, session.supervisor.procs
      ensures session.Valid() && session.Onward()
      ensures r.Success? ==> session.machine.currentState == READY
      ensures old(session.machine.currentState) == RECOVERING ==> r.Success?
      ensures BothStopped(old(Standing()), Now())
      ensures r.Success? && old(session.OnlyParts()) ==> session.MayStart() || Refused()
    {
      Dismantle();
      r := Reinitialize();
    }

    /** Stops everything and starts the session again from READY. */
    method ExecuteSessionRestart() returns (r: Result<()>)
      requires Valid() && state == Recovering && session.supervised
      modifies this`state, this`path, diagnostics
      modifies session`supervised, session.environment, session.machine
      modifies session.components, session.supervisor, session.supervisor.registry, session.os, session.supervisor.procs
      ensures Valid() && session.Onward() && Recorded([], 0) && InProgress(state)
      ensures r.Success? ==> state == Verifying && session.Revived(false) && session.machine.currentState == RUNNING
      ensures r.Failure? && old(session.machine.currentState) == RECOVERING ==>
                session.machine.currentState == FAILED || session.machine.currentState == RUNNING
      ensures r.Success? ==> SessionRestarted(old(Standing()), Now())
      ensures r.Failure? && old(session.OnlyParts() && session.machine.currentState == RECOVERING) ==> Refused()
    {
      ghost var m := Standing();
      r := Rebuild();
      if r.Success? {
        ghost var between := Now();
        r := StartVerifying();
        AfterTheStops(m, between, Now(), RunsOf(session.components));
      }
    }

    lemma AfterTheStops(m: Marks, between: seq<Milestone>, now: seq<Milestone>, runs: seq<Milestone>)
      requires BothStopped(m, between) && m.runAll == runs
      ensures now == between + runs ==> SessionRestarted(m, now)
    {
    }

    method StartVerifying() returns (r: Result<()>)
      requires Valid() && InProgress(state) && session.machine.currentState == READY
      modifies this`state, this`path, diagnostics
      modifies session`supervised, session.environment, session.machine
      modifies session.components, session.supervisor, session.supervisor.registry, session.os, session.supervisor.procs
      ensures Valid() && session.Onward() && Recorded([], 0) && state == Verifying
      ensures r.Success? ==> session.IsGraphicalSessionReady() && session.Revived(false)
      ensures r.Success? ==> session.Reached(RunsOf(session.components))
      ensures r.Failure? ==> session.machine.currentState == FAILED || session.machine.currentState == RUNNING
      ensures r.Failure? && old(session.MayStart()) ==> Refused()
    {
      NoteVerifying();
      r := StartAgain();
      if r.Success? {
        session.RevivedRun(false);
      }
    }

    lemma PartsServed()
      requires session.Valid() && session.AllRunning() && session.Outfitted(|session.components|)
      ensures session.PartsRunning()
      ensures session.Manned(session.compositor) && session.Manned(session.desktop)
    {
      session.Known();
      assert Inside(session);
      if session.compositor.Some? {
        session.OutfittedServes(session.compositor.value);
        assert session.compositor.value in session.components;
      }
      if session.desktop.Some? {
        session.OutfittedServes(session.desktop.value);
      }
    }

    method StartAgain() returns (r: Result<()>)
      requires session.Valid() && session.machine.currentState == READY
      modifies session`supervised, session.environment, session.machine
      modifies session.components, session.supervisor, session.supervisor.registry, session.os, session.supervisor.procs
      ensures session.Valid() && session.Onward()
      ensures r.Success? ==> session.Revived(false) && session.machine.currentState == RUNNING
      ensures r.Failure? ==> session.machine.currentState == FAILED || session.machine.currentState == RUNNING
      ensures r.Success? ==> session.Reached(RunsOf(session.components))
      ensures r.Failure? && old(session.MayStart()) ==> Refused()
    {
      r := StartParts();
      if r.Success? {
        r := Verify();
        if r.Success? {
          session.PartsRevived(false);
        }
      }
    }

    /** Starts the session; compositor and desktop then run on living processes. */
    method StartParts() returns (r: Result<()>)
      requires session.Valid() && session.machine.currentState == READY
      modifies session`supervised, session.environment, session.machine
      modifies session.components, session.supervisor, session.supervisor.registry, session.os, session.supervisor.procs
      ensures session.Valid() && session.Onward()
      ensures session.machine.currentState == if r.Success? then RUNNING else FAILED
      ensures r.Success? ==>
                session.PartsRunning() && session.Manned(session.compositor) && session.Manned(session.desktop)
      ensures r.Success? ==> session.Reached(RunsOf(session.components))
      ensures r.Failure? && old(session.MayStart()) ==> Refused()
    {
      ghost var k;
      r, k := session.Start();
      if r.Success? {
        assert Beside(session);
        PartsServed();
      }
    }

    method Execute(target: Target, policy: RecoveryPolicy) returns (r: Result<()>)
      requires Valid() && state == Recovering && session.supervised
      modifies this`state, this`path, diagnostics
      modifies session`supervised, session.environment, session.machine
      modifies session.components, session.supervisor, session.supervisor.registry, session.os, session.supervisor.procs
      ensures Valid() && session.Onward() && Recorded([], 0) && InProgress(state)
      ensures r.Success? ==>
                && state == Verifying && session.PartsRunning()
                && (policy == ComponentRestart && (target == WestonPart || target == LddePart) ==>
                      !old(session.supervisor.shuttingDown))
      ensures old(session.machine.currentState) == RECOVERING ==>
                if r.Success? then session.machine.currentState == RECOVERING || session.machine.currentState == RUNNING
                else IsValidSessionTransition(session.machine.currentState, FAILED)
      ensures r.Success? ==> Returned(target, policy, old(Standing()))
      ensures r.Failure? && IsRestart(policy) && old(Whole() && session.machine.currentState == RECOVERING) ==>
                Refused()
    {
      if policy == ComponentRestart && target == LddePart {
        r := RecoverLdde();
      } else if policy == ComponentRestart && target == WestonPart {
        r := RecoverWeston();
      } else if policy == ComponentRestart || policy == SessionRestart {
        r := ExecuteSessionRestart();
      } else {
        r := Failure(RecoveryNotAllowed);
      }
      if r.Success? {
        session.RevivedRun(policy == ComponentRestart && target == LddePart && session.Revived(true));
        Returns(target, policy, old(Standing()));
      }
    }

    lemma WhatReturned(target: Target, policy: RecoveryPolicy, m: Marks)
      requires Returned(target, policy, m)
      ensures if policy == ComponentRestart && target == LddePart then DesktopReturned(m)
              else Restarted(target, policy, m, Now()) && session.Revived(false)
    {
      assert Beside(session);
    }

    lemma Returns(target: Target, policy: RecoveryPolicy, m: Marks)
      requires if policy == ComponentRestart && target == LddePart then DesktopReturned(m)
               else Restarted(target, policy, m, Now()) && session.Revived(false)
      ensures Returned(target, policy, m)
    {
    }

    method ValidatePreconditions() returns (r: Result<()>)
      ensures r.Success? <==> config.enabled && Validate(config).Success? && session.supervised
      ensures r.Failure? ==> r.code == if !config.enabled then RecoveryNotAllowed else RecoveryPreconditionFailed
    {
      if !config.enabled {
        return Failure(RecoveryNotAllowed);
      }
      r := Validate(config);
      if r.Success? && !session.supervised {
        r := Failure(RecoveryPreconditionFailed);
      }
    }

    /** What a call of Recover leaves behind. */
    twostate predicate Concluded(success: bool, started: bool)
      reads this, diagnostics, session, session.machine, session.components, session.os
    {
      && |diagnostics.full| == |old(diagnostics.full)| + 1 && old(diagnostics.full) <= diagnostics.full
      && diagnostics.totalAttempts == old(diagnostics.totalAttempts) + (if started then 1 else 0)
      && state == (if success then Recovered else RecoveryFailed)
      && diagnostics.full[|diagnostics.full| - 1].finalState == state
      && (!success ==> Down())
    }

    /** The last outcome is about this request, under the current recovery id. */
    ghost predicate LastOutcome(target: Target, reason: Reason)
      reads this, diagnostics
    {
      && |diagnostics.full| > 0
      && var o := diagnostics.full[|diagnostics.full| - 1];
      && o.target == target && o.reason == reason && o.recoveryId == currentRecoveryId
    }

    /** The last outcome tells of this policy, attempt and result. */
    ghost predicate Noted(policy: RecoveryPolicy, attempt: nat, r: Result<()>)
      reads diagnostics
    {
      && |diagnostics.full| > 0
      && var o := diagnostics.full[|diagnostics.full| - 1];
      && o.policy == policy && o.attempt == attempt && o.error == if r.Success? then None else Some(r.code)
    }

    ghost function LastPolicy(): RecoveryPolicy
      reads diagnostics
    {
      if diagnostics.full == [] then NoRecovery else diagnostics.full[|diagnostics.full| - 1].policy
    }

    /** What a success did, by the settings alone: a component restart where one is allowed, LDDE alone if that
        was enough, and otherwise a restart of the session. */
    ghost predicate Obeys(reason: Reason, target: Target, m: Marks)
      reads session, session.os, session.supervisor, session.Part(session.compositor), session.Part(session.desktop)
    {
      forall s {:trigger Beside(s)} :: s == session ==> InKeeping(reason, target, m)
    }

    ghost predicate InKeeping(reason: Reason, target: Target, m: Marks)
      reads session, session.os, session.supervisor, session.Part(session.compositor), session.Part(session.desktop)
    {
      && MayActOn(config, reason, target)
      && (OfPart(reason, target) && config.allowComponentRestart && target == LddePart ==> DesktopReturned(m))
      && (OfPart(reason, target) && config.allowComponentRestart && target == WestonPart ==>
            BothRestarted(m, Now()) && session.Revived(false))
      && (OfSession(reason) || (OfPart(reason, target) && !config.allowComponentRestart) ==>
            config.allowSessionRestart)
      && (!(OfPart(reason, target) && config.allowComponentRestart) ==>
            SessionRestarted(m, Now()) && session.Revived(false))
    }

    lemma ObeysTheSettings(reason: Reason, target: Target, attempt: nat, m: Marks)
      requires config.enabled && IsRestart(DeterminePolicy(config, reason, target, attempt))
      requires Returned(target, DeterminePolicy(config, reason, target, attempt), m)
      ensures Obeys(reason, target, m)
    {
      PolicyBySettings(config, reason, target, attempt);
      WhatReturned(target, DeterminePolicy(config, reason, target, attempt), m);
      assert InKeeping(reason, target, m);
    }

    /** A request that was counted: whether it was executed, what was recorded about it, what it was refused
        with, and that an executed one waited for its backoff. */
    ghost predicate Handled(before: seq<Request>, reason: Reason, target: Target, r: Result<()>)
      reads this, diagnostics, session.os
    {
      forall s {:trigger Beside(s)} :: s == this ==> Accords(before, reason, target, r)
    }

    ghost predicate Accords(before: seq<Request>, reason: Reason, target: Target, r: Result<()>)
      reads this, diagnostics, session.os
    {
      var attempt := Earlier(before, purgedAt, config.windowMs) + 1;
      var executed := attempt <= config.maxAttempts && MayActOn(config, reason, target);
      && requests == before + [Request(purgedAt, executed)]
      && Chosen(config, reason, target, attempt, LastPolicy()) && Noted(LastPolicy(), attempt, r)
      && (executed ==> session.os.now >= purgedAt + CalculateBackoff(config, attempt))
      && (!executed ==>
            r == Failure(if attempt <= config.maxAttempts && !OfSession(reason) && !OfPart(reason, target)
                              && config.defaultPolicy == NoRecovery
                         then RecoveryNotAllowed else RecoveryExhausted))
    }

    lemma IsHandled(before: seq<Request>, reason: Reason, target: Target, attempt: nat, r: Result<()>)
      requires config.enabled && attempt == Earlier(before, purgedAt, config.windowMs) + 1
      requires Counted(before, reason, target)
      requires var policy := DeterminePolicy(config, reason, target, attempt);
               && Noted(policy, attempt, r)
               && (Acted(policy, attempt) ==> session.os.now >= purgedAt + CalculateBackoff(config, attempt))
               && (policy == FailSession || attempt > config.maxAttempts ==> r == Failure(RecoveryExhausted))
               && (policy == NoRecovery && attempt <= config.maxAttempts ==> r == Failure(RecoveryNotAllowed))
      ensures Handled(before, reason, target, r)
    {
      PolicyBySettings(config, reason, target, attempt);
      PermittedBySettings(config, reason, target);
      assert Accords(before, reason, target, r);
    }

    /** The request was counted, with the policy the settings choose, and marked executed if they allow it. */
    ghost predicate CountedAs(before: seq<Request>, reason: Reason, target: Target)
      reads this, diagnostics
    {
      && |diagnostics.full| > 0
      && var o := diagnostics.full[|diagnostics.full| - 1];
      && Chosen(config, reason, target, o.attempt, o.policy)
      && requests == before + [Request(purgedAt, o.attempt <= config.maxAttempts && MayActOn(config, reason, target))]
    }

    lemma HandledIsCounted(before: seq<Request>, reason: Reason, target: Target, r: Result<()>)
      requires Handled(before, reason, target, r)
      ensures CountedAs(before, reason, target)
    {
      assert Beside(this);
    }

    /** A request that was not even counted. */
    ghost predicate Declined(before: seq<Request>, r: Result<()>)
      reads this, diagnostics
    {
      && requests == before && Noted(FailSession, 0, r)
      && r == Failure(if !config.enabled then RecoveryNotAllowed else RecoveryPreconditionFailed)
    }

    /** The backoff and the recovery itself. */
    method Attempt(reason: Reason, target: Target, policy: RecoveryPolicy, attempt: nat) returns (r: Result<()>)
      requires Valid() && !InProgress(state) && session.supervised && Validate(config).Success?
      modifies this`state, this`path, diagnostics
      modifies session`supervised, session.environment, session.machine
      modifies session.components, session.supervisor, session.supervisor.registry, session.os, session.supervisor.procs
      ensures Valid() && session.Onward() && Concluded(r.Success?, true)
      ensures r.Success? && policy == ComponentRestart && (target == WestonPart || target == LddePart) ==>
                !old(session.supervisor.shuttingDown)
      ensures old(session.machine.currentState) == RUNNING ==>
                if r.Success? then session.IsGraphicalSessionReady()
                else session.machine.currentState == FAILED
      ensures r.Success? ==> Returned(target, policy, old(Standing()))
      ensures session.os.now >= old(session.os.now) + CalculateBackoff(config, attempt)
      ensures LastOutcome(target, reason) && Noted(policy, attempt, r)
      ensures r.Failure? && IsRestart(policy) && old(Whole() && session.machine.currentState == RUNNING) ==> Refused()
    {
      Begin(reason, target, attempt);
      r := Carry(reason, target, policy, attempt);
    }

    /** The recovery itself and its record. */
    method Carry(reason: Reason, target: Target, policy: RecoveryPolicy, attempt: nat) returns (r: Result<()>)
      requires Valid() && state == Recovering && session.supervised
      modifies this`state, this`path, diagnostics
      modifies session`supervised, session.environment, session.machine
      modifies session.components, session.supervisor, session.supervisor.registry, session.os, session.supervisor.procs
      ensures Valid() && session.Onward() && Concluded(r.Success?, false)
      ensures r.Success? && policy == ComponentRestart && (target == WestonPart || target == LddePart) ==>
                !old(session.supervisor.shuttingDown)
      ensures old(session.machine.currentState) == RECOVERING ==>
                if r.Success? then session.IsGraphicalSessionReady()
                else session.machine.currentState == FAILED
      ensures r.Success? ==> Returned(target, policy, old(Standing()))
      ensures LastOutcome(target, reason) && Noted(policy, attempt, r)
      ensures r.Failure? && IsRestart(policy) && old(Whole() && session.machine.currentState == RECOVERING) ==>
                Refused()
    {
      var executed := Execute(target, policy);
      r := Conclude(executed, reason, target, policy, attempt, old(Standing()));
    }

    /** RECOVERING where the table allows it, then the backoff delay. */
    method Begin(reason: Reason, target: Target, attempt: nat)
      requires Valid() && !InProgress(state) && Validate(config).Success?
      modifies this`state, this`path, diagnostics, session.machine, session.os`now, session.os`children, session.os`dead
      ensures Valid() && session.Onward() && state == Recovering && Recorded([], 1)
      ensures old(session.machine.currentState) == RUNNING ==> session.machine.currentState == RECOVERING
      ensures AsBefore() && session.os.log == old(session.os.log)
      ensures session.os.now >= old(session.os.now) + CalculateBackoff(config, attempt)
    {
      NoteStart(target, reason);
      if session.machine.currentState != FAILED && session.machine.currentState != STOPPED {
        var _ := session.TransitionTo(RECOVERING);
      }
      var backoff := CalculateBackoff(config, attempt);
      if backoff > 0 {
        var _ := session.Pause(backoff);
      }
      StillAsBefore();
    }

    method Conclude(executed: Result<()>, reason: Reason, target: Target, policy: RecoveryPolicy, attempt: nat,
        ghost m: Marks) returns (r: Result<()>)
      requires executed.Success? ==> Returned(target, policy, m)
      requires Valid() && InProgress(state) && (executed.Success? ==> state == Verifying && session.PartsRunning())
      modifies this`state, this`path, diagnostics, session.machine
      modifies session.components, session.supervisor, session.supervisor.registry, session.os, session.supervisor.procs
      ensures Valid() && session.Onward() && Concluded(r.Success?, false) && r == executed
      ensures r.Success? ==> session.PartsRunning()
      ensures var before := old(session.machine.currentState);
              session.machine.currentState ==
                if r.Success? then (if before == RECOVERING then RUNNING else before)
                else if IsValidSessionTransition(before, FAILED) then FAILED else before
      ensures r.Success? ==> Returned(target, policy, m)
      ensures LastOutcome(target, reason) && Noted(policy, attempt, r)
    {
      r := executed;
      if r.Failure? {
        FailWith(target, reason, policy, attempt, r.code);
      } else {
        AcceptReturned(reason, target, policy, attempt, m);
      }
    }

    /** The parts stay as the recovery left them. */
    method AcceptReturned(reason: Reason, target: Target, policy: RecoveryPolicy, attempt: nat, ghost m: Marks)
      requires Valid() && state == Verifying && Returned(target, policy, m)
      modifies this`state, this`path, diagnostics, session.machine
      ensures Valid() && Concluded(true, false) && LastOutcome(target, reason) && Returned(target, policy, m)
      ensures Noted(policy, attempt, Success(()))
      ensures session.machine.currentState ==
                if old(session.machine.currentState) == RECOVERING then RUNNING else old(session.machine.currentState)
    {
      WhatReturned(target, policy, m);
      Accept(reason, target, policy, attempt);
      Returns(target, policy, m);
    }

    /** Records the success; the session runs again. */
    method Accept(reason: Reason, target: Target, policy: RecoveryPolicy, attempt: nat)
      requires Valid() && state == Verifying
      modifies this`state, this`path, diagnostics, session.machine
      ensures Valid() && Concluded(true, false) && LastOutcome(target, reason)
      ensures Noted(policy, attempt, Success(()))
      ensures session.machine.currentState ==
                if old(session.machine.currentState) == RECOVERING then RUNNING else old(session.machine.currentState)
      ensures old(session.Revived(true)) ==> session.Revived(true)
      ensures old(session.Revived(false)) ==> session.Revived(false)
    {
      NoteSuccess(target, reason, policy, attempt);
      if session.machine.currentState == RECOVERING {
        var _ := session.TransitionTo(RUNNING);
      }
      assert Beside(session);
    }

    /** Whether a request would be counted at all. */
    predicate Qualified()
      reads session
    {
      config.enabled && Validate(config).Success? && session.supervised
    }

    /** Counts the request and settles what to do about it. */
    method Admit(reason: Reason, target: Target, now: nat) returns (attempt: nat, policy: RecoveryPolicy)
      requires Books() && purgedAt == now
      requires config.enabled
      modifies this`attemptTimestamps, this`requests, this`currentRecoveryId
      ensures Books() && attempt == Earlier(old(requests), now, config.windowMs) + 1
      ensures policy == DeterminePolicy(config, reason, target, attempt)
      ensures Counted(old(requests), reason, target)
    {
      assert Inside(this);
      WindowSize(requests, attemptTimestamps, now, config.maxAttempts, config.windowMs);
      ghost var executed := Permitted(config, reason, target) && |attemptTimestamps| < config.maxAttempts;
      attempt := Stamp(now, executed);
      policy := DeterminePolicy(config, reason, target, attempt);
    }

    /** The request was counted once, and is executed exactly when the settings permit it and fewer than
        the allowed number of requests lie in the window before it. */
    ghost predicate Counted(before: seq<Request>, reason: Reason, target: Target)
      reads this
    {
      Counts(before, requests, purgedAt, Permitted(config, reason, target), config.maxAttempts, config.windowMs)
    }

    /** The request counted last, if any was counted since, is marked as executed. */
    ghost predicate Executed(before: seq<Request>)
      reads this
    {
      |requests| > |before| && requests[|before|].executed
    }

    predicate Acted(policy: RecoveryPolicy, attempt: nat) {
      IsRestart(policy) && attempt <= config.maxAttempts
    }

    ghost predicate OverBudget(before: seq<Request>)
      reads this
    {
      Earlier(before, purgedAt, config.windowMs) >= config.maxAttempts
    }

    /** Handles one recovery request from beginning to end. */
    method Recover(reason: Reason, requested: Target) returns (r: Result<()>)
      requires Valid()
      modifies this, diagnostics
      modifies session`supervised, session.environment, session.machine
      modifies session.components, session.supervisor, session.supervisor.registry, session.os, session.supervisor.procs
      ensures Valid() && session.Onward()
      ensures InProgress(old(state)) ==>
                r == Failure(RecoveryInProgress) && state == old(state) && requests == old(requests)
                && Recorded([], 0) && session.Idle() && session.supervised == old(session.supervised)
                && session.machine.currentState == old(session.machine.currentState)
      ensures !InProgress(old(state)) ==>
                && Concluded(r.Success?, Executed(old(requests))) && purgedAt >= old(session.os.now)
                && LastOutcome(TargetOf(reason, requested), reason)
      ensures !InProgress(old(state)) && old(session.machine.currentState) == RUNNING ==>
                if r.Success? then session.IsGraphicalSessionReady()
                else session.machine.currentState == FAILED
      ensures !InProgress(old(state)) && !old(Qualified()) ==> r.Failure? && requests == old(requests)
      ensures !InProgress(old(state)) && old(Qualified()) ==>
                && Counted(old(requests), reason, TargetOf(reason, requested))
                && (OverBudget(old(requests)) ==> r == Failure(RecoveryExhausted))
      ensures r.Success? && old(session.supervisor.shuttingDown) ==>
                RestartsSession(config, reason, TargetOf(reason, requested))
      ensures r.Success? ==>
                var target := TargetOf(reason, requested);
                Returned(target, DeterminePolicy(config, reason, target, config.maxAttempts), old(Standing()))
      ensures !InProgress(old(state)) ==>
                if old(Qualified()) then Handled(old(requests), reason, TargetOf(reason, requested), r)
                else Declined(old(requests), r)
      ensures r.Success? ==> Obeys(reason, TargetOf(reason, requested), old(Standing()))
      ensures !InProgress(old(state)) && r.Failure? && Executed(old(requests)) ==>
                !old(Whole() && session.machine.currentState == RUNNING) || Refused()
    {
      if InProgress(state) {
        return Failure(RecoveryInProgress);
      }
      r := Proceed(reason, TargetOf(reason, requested));
    }

    /** Brings the stamps up to date and handles the request. */
    method Proceed(reason: Reason, target: Target) returns (r: Result<()>)
      requires Valid() && !InProgress(state)
      modifies this, diagnostics
      modifies session`supervised, session.environment, session.machine
      modifies session.components, session.supervisor, session.supervisor.registry, session.os, session.supervisor.procs
      ensures Valid() && session.Onward() && Concluded(r.Success?, Executed(old(requests)))
      ensures purgedAt >= old(session.os.now)
      ensures old(session.machine.currentState) == RUNNING ==>
                if r.Success? then session.IsGraphicalSessionReady()
                else session.machine.currentState == FAILED
      ensures !old(Qualified()) ==> r.Failure? && requests == old(requests)
      ensures old(Qualified()) ==>
                && Counted(old(requests), reason, target)
                && (OverBudget(old(requests)) ==> r == Failure(RecoveryExhausted))
      ensures r.Success? && old(session.supervisor.shuttingDown) ==> RestartsSession(config, reason, target)
      ensures r.Success? ==>
                Returned(target, DeterminePolicy(config, reason, target, config.maxAttempts), old(Standing()))
      ensures LastOutcome(target, reason)
      ensures if old(Qualified()) then Handled(old(requests), reason, target, r) else Declined(old(requests), r)
      ensures r.Success? ==> Obeys(reason, target, old(Standing()))
      ensures r.Failure? && Executed(old(requests)) && old(Whole() && session.machine.currentState == RUNNING) ==>
                Refused()
    {
      var now := session.Pause(0);
      PurgeExpired(now);
      StillAsBefore();
      r := Handle(reason, target, now);
    }

    /** Handles a request once the stamps are up to date. */
    method Handle(reason: Reason, target: Target, now: nat) returns (r: Result<()>)
      requires Valid() && !InProgress(state)
      requires purgedAt == now
      modifies this, diagnostics
      modifies session`supervised, session.environment, session.machine
      modifies session.components, session.supervisor, session.supervisor.registry, session.os, session.supervisor.procs
      ensures Valid() && session.Onward() && Concluded(r.Success?, Executed(old(requests))) && purgedAt == now
      ensures old(session.machine.currentState) == RUNNING ==>
                if r.Success? then session.IsGraphicalSessionReady()
                else session.machine.currentState == FAILED
      ensures !old(Qualified()) ==> r.Failure? && requests == old(requests)
      ensures old(Qualified()) ==>
                && Counted(old(requests), reason, target)
                && (OverBudget(old(requests)) ==> r == Failure(RecoveryExhausted))
      ensures r.Success? && old(session.supervisor.shuttingDown) ==> RestartsSession(config, reason, target)
      ensures r.Success? ==>
                Returned(target, DeterminePolicy(config, reason, target, config.maxAttempts), old(Standing()))
      ensures LastOutcome(target, reason)
      ensures if old(Qualified()) then Handled(old(requests), reason, target, r) else Declined(old(requests), r)
      ensures r.Success? ==> Obeys(reason, target, old(Standing()))
      ensures r.Failure? && Executed(old(requests)) && old(Whole() && session.machine.currentState == RUNNING) ==>
                Refused()
    {
      var ready := ValidatePreconditions();
      if ready.Failure? {
        FailWith(target, reason, FailSession, 0, ready.code);
        return Failure(ready.code);
      }
      r := Treat(reason, target, now);
    }

    /** Counts a qualified request and acts on it. */
    method Treat(reason: Reason, target: Target, now: nat) returns (r: Result<()>)
      requires Valid() && !InProgress(state) && Qualified()
      requires purgedAt == now
      modifies this, diagnostics, session`supervised, session.environment, session.machine
      modifies session.components, session.supervisor, session.supervisor.registry, session.os, session.supervisor.procs
      ensures Valid() && session.Onward() && Concluded(r.Success?, Executed(old(requests))) && purgedAt == now
      ensures old(session.machine.currentState) == RUNNING ==>
                if r.Success? then session.IsGraphicalSessionReady()
                else session.machine.currentState == FAILED
      ensures Counted(old(requests), reason, target)
      ensures OverBudget(old(requests)) ==> r == Failure(RecoveryExhausted)
      ensures r.Success? && old(session.supervisor.shuttingDown) ==> RestartsSession(config, reason, target)
      ensures r.Success? ==>
                Returned(target, DeterminePolicy(config, reason, target, config.maxAttempts), old(Standing()))
      ensures LastOutcome(target, reason) && Handled(old(requests), reason, target, r)
      ensures r.Success? ==> Obeys(reason, target, old(Standing()))
      ensures r.Failure? && Executed(old(requests)) && old(Whole() && session.machine.currentState == RUNNING) ==>
                Refused()
    {
      var attempt, policy := Admit(reason, target, now);
      StillAsBefore();
      r := ActOn(reason, target, policy, attempt, old(requests));
    }

    lemma SamePolicy(reason: Reason, target: Target, attempt: nat)
      requires attempt <= config.maxAttempts
      ensures DeterminePolicy(config, reason, target, attempt) ==
                DeterminePolicy(config, reason, target, config.maxAttempts)
    {
    }

    /** Acts on a request that was just counted. */
    method ActOn(reason: Reason, target: Target, policy: RecoveryPolicy, attempt: nat, ghost before: seq<Request>)
      returns (r: Result<()>)
      requires Valid() && !InProgress(state) && Qualified()
      requires policy == DeterminePolicy(config, reason, target, attempt)
      requires attempt == Earlier(before, purgedAt, config.windowMs) + 1 && Counted(before, reason, target)
      modifies this`state, this`path, diagnostics
      modifies session`supervised, session.environment, session.machine
      modifies session.components, session.supervisor, session.supervisor.registry, session.os, session.supervisor.procs
      ensures Valid() && session.Onward() && Concluded(r.Success?, Executed(before))
      ensures old(session.machine.currentState) == RUNNING ==>
                if r.Success? then session.IsGraphicalSessionReady()
                else session.machine.currentState == FAILED
      ensures OverBudget(before) ==> r == Failure(RecoveryExhausted)
      ensures r.Success? && old(session.supervisor.shuttingDown) ==> RestartsSession(config, reason, target)
      ensures r.Success? ==>
                Returned(target, DeterminePolicy(config, reason, target, config.maxAttempts), old(Standing()))
      ensures LastOutcome(target, reason) && Handled(before, reason, target, r)
      ensures r.Success? ==> Obeys(reason, target, old(Standing()))
      ensures r.Failure? && Executed(before) && old(Whole() && session.machine.currentState == RUNNING) ==> Refused()
    {
      r := Act(reason, target, policy, attempt);
      IsHandled(before, reason, target, attempt, r);
      if attempt <= config.maxAttempts {
        SamePolicy(reason, target, attempt);
      }
      if r.Success? {
        ObeysTheSettings(reason, target, attempt, old(Standing()));
      }
    }

    /** Refuses the attempt, or makes it. */
    method Act(reason: Reason, target: Target, policy: RecoveryPolicy, attempt: nat) returns (r: Result<()>)
      requires Valid() && !InProgress(state) && session.supervised && Validate(config).Success?
      modifies this`state, this`path, diagnostics
      modifies session`supervised, session.environment, session.machine
      modifies session.components, session.supervisor, session.supervisor.registry, session.os, session.supervisor.procs
      ensures Valid() && session.Onward() && Concluded(r.Success?, Acted(policy, attempt))
      ensures policy == FailSession || attempt > config.maxAttempts ==> r == Failure(RecoveryExhausted)
      ensures policy == NoRecovery && attempt <= config.maxAttempts ==> r == Failure(RecoveryNotAllowed)
      ensures r.Success? ==> policy == ComponentRestart || policy == SessionRestart
      ensures r.Success? && policy == ComponentRestart && (target == WestonPart || target == LddePart) ==>
                !old(session.supervisor.shuttingDown)
      ensures old(session.machine.currentState) == RUNNING ==>
                if r.Success? then session.IsGraphicalSessionReady()
                else session.machine.currentState == FAILED
      ensures r.Success? ==> Returned(target, policy, old(Standing()))
      ensures Acted(policy, attempt) ==> session.os.now >= old(session.os.now) + CalculateBackoff(config, attempt)
      ensures LastOutcome(target, reason) && Noted(policy, attempt, r)
      ensures r.Failure? && Acted(policy, attempt) && old(Whole() && session.machine.currentState == RUNNING) ==>
                Refused()
    {
      if policy == FailSession || attempt > config.maxAttempts {
        FailWith(target, reason, policy, attempt, RecoveryExhausted);
        r := Failure(RecoveryExhausted);
      } else if policy == NoRecovery {
        FailWith(target, reason, policy, attempt, RecoveryNotAllowed);
        r := Failure(RecoveryNotAllowed);
      } else {
        r := Attempt(reason, target, policy, attempt);
      }
    }
  }
}
