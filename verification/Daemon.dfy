/** The main loop: crashes reach the listeners only through a reap pass, and every operation of the
    session and of the recovery manager is one step of a run. */
module Daemon {
  import opened Focus
  import opened Results
  import opened Transitions
  import opened Trace
  import opened OperatingSystem
  import opened Processes
  import opened Environment
  import opened Supervisor
  import opened Components
  import opened Sessions
  import opened RecoveryConfigs
  import opened AttemptWindow
  import opened Diagnostics
  import opened Recovery
  import opened Runs

  class MainLoop {
    const session: Session
    const recovery: RecoveryManager
    ghost var heard: seq<nat>           // the exits the session's listener was called for
    ghost var told: seq<Call>           // for each of them whose it was and the managers called after it

    ghost predicate Parts()
      reads recovery, recovery.diagnostics, session, session.machine, session.components, session.supervisor,
            session.supervisor.registry, session.os, session.supervisor.procs
    {
      recovery.session == session && recovery.Valid()
    }

    /** The session's listener was called once for every exit reported so far, in order, and after it every
        manager that had the supervisor; no component runs on a process whose exit was reported; and no process
        was killed unasked. */
    ghost predicate Valid()
      reads this, recovery, recovery.diagnostics, session, session.machine, session.components, session.supervisor,
            session.supervisor.registry, session.os, session.supervisor.procs
    {
      && Parts() && heard == session.os.log.monitor.reports && Unforced(session.os.sent)
      && |told| == |heard| && (forall i :: 0 <= i < |told| ==> Complete(told[i]))
      && AllNoticed()
    }

    /** No component is Running on a process whose exit was heard of. */
    ghost predicate AllNoticed()
      reads this, session, session.components
    {
      forall pid :: pid in heard ==> session.Deserted(pid)
    }

    ghost function Attached(): set<Kind>
      reads session, session.components
    {
      set c | c in session.components && c.attached :: c.kind
    }

    /** Whatever happened, no component went back to a process reported before. */
    twostate lemma StillNoticed(pid: nat)
      requires old(Valid()) && Parts() && session.components == old(session.components)
      requires old(session.os.log.events) <= session.os.log.events && pid in old(heard)
      ensures session.Deserted(pid)
    {
      var log := old(session.os.log);
      if pid > 0 {
        SettledIsDead(log, |log.events|, pid);
        session.StillDeserted(pid);
      }
    }

    twostate lemma AllStillNoticed()
      requires old(Valid()) && Parts() && session.components == old(session.components)
      requires old(session.os.log.events) <= session.os.log.events
      requires heard == old(heard)
               || (|heard| == |old(heard)| + 1 && old(heard) < heard && session.Deserted(heard[|heard| - 1]))
      ensures AllNoticed()
    {
      forall pid | pid in old(heard)
        ensures session.Deserted(pid)
      {
        StillNoticed(pid);
      }
      assert forall pid :: pid in heard ==> pid in old(heard) || pid == heard[|heard| - 1];
    }

    constructor (recovery: RecoveryManager)
      requires recovery.Valid() && recovery.session.os.log.monitor.reports == [] && Unforced(recovery.session.os.sent)
      ensures Valid() && this.recovery == recovery
    {
      this.recovery, this.session := recovery, recovery.session;
      heard, told := [], [];
    }

    /** Recovery was asked once for the part the process name tells, if the session ran and recovery was
        free; otherwise nothing was asked. */
    twostate predicate Asked(kind: Kind)
      reads recovery, recovery.diagnostics, session.machine
    {
      && old(recovery.diagnostics.full) <= recovery.diagnostics.full &&
      var request := Concerned(kind);
      if old(session.machine.currentState) == RUNNING && request.Some? && !InProgress(old(recovery.state)) then
        && |recovery.diagnostics.full| == |old(recovery.diagnostics.full)| + 1
        && recovery.LastOutcome(request.value.1, request.value.0)
      else Unasked()
    }

    /** Recovery was not asked. */
    twostate predicate Unasked()
      reads recovery, recovery.diagnostics, session.machine
    {
      && recovery.diagnostics.full == old(recovery.diagnostics.full) && recovery.state == old(recovery.state)
      && session.machine.currentState == old(session.machine.currentState)
    }

    /** The session's listener: an exit while RUNNING starts a recovery. */
    method OnExit(e: ProcessEvent)
      requires Parts()
      modifies this`heard, recovery, recovery.diagnostics, session`supervised, session.environment, session.machine
      modifies session.components, session.supervisor, session.supervisor.registry, session.os, session.supervisor.procs
      ensures Parts() && session.Onward() && heard == old(heard) + [e.pid] && Asked(e.kind)
      ensures old(session.machine.currentState == RUNNING && !InProgress(recovery.state)) && Concerned(e.kind).Some?
              ==> session.IsGraphicalSessionReady() || (session.machine.currentState == FAILED && recovery.Down())
      ensures old(session.machine.currentState) != RUNNING || Concerned(e.kind).None? || InProgress(old(recovery.state))
              ==> session.os.log == old(session.os.log)
    {
      heard := heard + [e.pid];
      if session.machine.currentState == RUNNING {
        var concerned := Concerned(e.kind);
        if concerned.Some? {
          var _ := recovery.Recover(concerned.value.0, concerned.value.1);
        }
      }
    }

    /** Calls the managers among the listeners, each as often as it registered. */
    method Tell(listeners: seq<Listener>, e: ProcessEvent, ghost attached: set<Kind>)
      requires Parts() && Led(listeners) && IsExit(e) && DeadPid(session.os.log.monitor, e.pid) && e.pid > 0
      modifies this`told, session.components, session.os`log
      ensures Parts() && session.Onward() && told == old(told) + [Call(e.kind, attached, Managers(listeners))]
      ensures session.States() ==
                NotifiedBy(session.components, old(session.States()), old(session.Pids()), Managers(listeners), e.pid)
      ensures session.NoneRunsOn(Managers(listeners), e.pid)
    {
      told := told + [Call(e.kind, attached, Managers(listeners))];
      ghost var states := session.States();
      session.TellManagers(listeners, e);
      session.NobodyLeft(states, Managers(listeners), e.pid);
    }

    /** A new exit goes to those who listen at that moment: to the session first, and then to every manager
        that has the supervisor, once or more. */
    method Deliver(e: ProcessEvent)
      requires Parts() && session.supervised && IsExit(e) && DeadPid(session.os.log.monitor, e.pid) && e.pid > 0
      modifies this, recovery, recovery.diagnostics, session`supervised, session.environment, session.machine
      modifies session.components, session.supervisor, session.supervisor.registry, session.os, session.supervisor.procs
      ensures Parts() && session.Onward() && Asked(e.kind) && heard == old(heard) + [e.pid]
      ensures old(Led(session.supervisor.listeners))
      ensures told == old(told) + [Call(e.kind, old(Attached()), Managers(old(session.supervisor.listeners)))]
      ensures Complete(told[|told| - 1]) && session.Deserted(e.pid)
    {
      session.AttachedListen();
      var copied := session.supervisor.listeners;
      ghost var log, attached := session.os.log, Attached();
      OnExit(e);
      DeadForGood(log, session.os.log, e.pid);
      Tell(copied, e, attached);
      session.NoneOfThem(Managers(copied), e.pid);
      session.StillDeserted(e.pid);
    }

    /** One process of a reap pass: its exit, if new, is reported and passed on. */
    method ReapStep(process: Process)
      requires Valid() && session.supervised && process in session.supervisor.procs
      modifies this, recovery, recovery.diagnostics, session`supervised, session.environment, session.machine
      modifies session.components, session.supervisor, session.supervisor.registry, session.os, session.supervisor.procs
      ensures Valid() && session.Forward()
      ensures heard == old(heard) || heard == old(heard) + [old(process.pid)]
      ensures if heard == old(heard) then told == old(told) && Unasked()
              else
                && |told| == |old(told)| + 1 && old(told) <= told && Asked(process.handle.kind)
                && told[|old(told)|].kind == process.handle.kind && told[|old(told)|].attached == old(Attached())
      ensures old(process.handle in session.os.dead) ==>
                Accounted(session.os.log.monitor, process.handle, old(session.os.log.monitor.reopenings))
    {
      var event := session.ReapOne(process);
      if event.Some? {
        ghost var log := session.os.log;
        Deliver(event.value);
        AccountedForGood(log, session.os.log, log.monitor.reopenings);
      }
      AllStillNoticed();
    }

    /** Unless the supervisor was closed or reopened, no component runs on a process that has been accounted
        for. */
    lemma NobodyRunsOn(h: Handle, reopenings: nat)
      requires Valid() && session.os.log.monitor.isOpen && session.os.log.monitor.reopenings == reopenings
      requires Accounted(session.os.log.monitor, h, reopenings)
      ensures forall c :: c in session.components && c.state == Running ==> c.handle != Some(h)
    {
      forall c | c in session.components && c.state == Running
        ensures c.handle != Some(h)
      {
        if c.handle == Some(h) {
          session.RunsOnReported(c, h);
        }
      }
    }

    /** The session runs and recovery is free. */
    predicate Waiting()
      reads session.machine, recovery
    {
      session.machine.currentState == RUNNING && !InProgress(recovery.state)
    }

    /** Since these exits and outcomes the first exit that concerned a part decided the first request. */
    ghost predicate Follows(since: Mark)
      reads this, session.machine, recovery, recovery.diagnostics
    {
      OnCourse(told, since.told, recovery.diagnostics.full, since.outcomes, Waiting())
    }

    /** The next exit of a pass was passed on, or there was none. */
    twostate lemma StillFollows(since: Mark)
      requires old(Follows(since))
      requires if told == old(told) then Unasked()
               else |told| == |old(told)| + 1 && old(told) <= told && Asked(told[|old(told)|].kind)
      ensures Follows(since)
    {
      if told != old(told) {
        var call := told[|old(told)|];
        assert told == old(told) + [call];
        OnCourseStill(old(told), since.told, old(recovery.diagnostics.full), since.outcomes, old(Waiting()), call,
          recovery.diagnostics.full, Waiting());
      }
    }

    /** A reap pass over the processes registered at its beginning, whatever the listeners do meanwhile:
        unless the supervisor was reopened, every one of them that had died is reported or was ended on
        request, and all reports were passed on; unless it was closed as well, no component runs on one of
        them any more. Recovery is asked for the part that the first exit concerns. */
    method ReapPass()
      requires Valid()
      modifies this, recovery, recovery.diagnostics, session`supervised, session.environment, session.machine
      modifies session.components, session.supervisor, session.supervisor.registry, session.os, session.supervisor.procs
      ensures Valid() && session.Forward()
      ensures old(session.supervised) ==> AllAccounted()
      ensures old(session.supervised) && StayedOpen() ==> NoneOnTheDead()
      ensures Does(Reap)
    {
      if session.supervised {
        ReapAll();
        ghost var m := session.os.log.monitor;
        if m.isOpen && m.reopenings == old(session.os.log.monitor.reopenings) {
          forall h | h in old(session.supervisor.registry.byHandle) && h in old(session.os.dead)
            ensures forall c :: c in session.components && c.state == Running ==> c.handle != Some(h)
          {
            NobodyRunsOn(h, m.reopenings);
          }
        }
      }
      WentAsking(Reap);
      ReapShown();
    }

    /** Every process that was registered and dead is reported or was ended on request, unless the supervisor was
        reopened. */
    twostate predicate AllAccounted()
      reads session.supervisor, session.supervisor.registry, session.os
    {
      forall h :: h in old(session.supervisor.registry.byHandle) && h in old(session.os.dead) ==>
                    Accounted(session.os.log.monitor, h, old(session.os.log.monitor.reopenings))
    }

    /** The supervisor was neither closed nor reopened. */
    twostate predicate StayedOpen()
      reads session.os
    {
      var m := session.os.log.monitor;
      m.isOpen && m.reopenings == old(session.os.log.monitor.reopenings)
    }

    /** No component runs on a process that was registered and dead. */
    twostate predicate NoneOnTheDead()
      reads session, session.components, session.supervisor, session.supervisor.registry, session.os
    {
      forall h :: h in old(session.supervisor.registry.byHandle) && h in old(session.os.dead) ==>
                    forall c :: c in session.components && c.state == Running ==> c.handle != Some(h)
    }

    twostate lemma ReapShown()
      requires Parts() && session.components == old(session.components)
      requires !old(session.supervised) ==> Refused() && Unasked() && unchanged(this) && unchanged(recovery)
      requires old(session.supervised) ==> AllAccounted()
      requires old(session.supervised) && StayedOpen() ==> NoneOnTheDead()
      requires old(session.supervised && Waiting()) ==> Follows(Mark(|old(told)|, |old(recovery.diagnostics.full)|))
      ensures Effective(Reap, old(Now()), Now())
    {
      OpenMeans();
      assert AfterReap(old(Now()), Now());
      Fulfils(recovery.config, session.components, Reap, old(Now()), Now());
    }

    lemma OpenMeans()
      requires Parts()
      ensures session.os.log.monitor.isOpen == !session.supervisor.shuttingDown
    {
      session.OpenMeans();
    }

    method ReapAll()
      requires Valid() && session.supervised
      modifies this, recovery, recovery.diagnostics, session`supervised, session.environment, session.machine
      modifies session.components, session.supervisor, session.supervisor.registry, session.os, session.supervisor.procs
      ensures Valid() && session.Forward() && AllAccounted()
      ensures old(recovery.diagnostics.full) <= recovery.diagnostics.full && old(heard) <= heard && old(told) <= told
      ensures old(Waiting()) ==> Follows(Mark(|old(told)|, |old(recovery.diagnostics.full)|))
    {
      ghost var dead, reopenings := session.os.dead, session.os.log.monitor.reopenings;
      ghost var since, waiting := Mark(|told|, |recovery.diagnostics.full|), Waiting();
      var all := session.ListProcesses();
      for k := 0 to |all|
        invariant Valid() && session.supervised && session.Forward() && reopenings <= session.os.log.monitor.reopenings
        invariant forall i :: 0 <= i < k && all[i].handle in dead ==>
                    Accounted(session.os.log.monitor, all[i].handle, reopenings)
        invariant old(recovery.diagnostics.full) <= recovery.diagnostics.full
        invariant old(heard) <= heard && old(told) <= told
        invariant waiting ==> Follows(since)
      {
        ReapNext(all[k], since, waiting, reopenings);
      }
    }

    method ReapNext(process: Process, ghost since: Mark, ghost waiting: bool, ghost reopenings: nat)
      requires Valid() && session.supervised && process in session.supervisor.procs && (waiting ==> Follows(since))
      requires reopenings <= session.os.log.monitor.reopenings
      modifies this, recovery, recovery.diagnostics, session`supervised, session.environment, session.machine
      modifies session.components, session.supervisor, session.supervisor.registry, session.os, session.supervisor.procs
      ensures Valid() && session.Forward() && (waiting ==> Follows(since))
      ensures old(recovery.diagnostics.full) <= recovery.diagnostics.full && old(heard) <= heard && old(told) <= told
      ensures reopenings <= session.os.log.monitor.reopenings
      ensures old(process.handle in session.os.dead) ==>
                Accounted(session.os.log.monitor, process.handle, reopenings)
      ensures forall h :: old(Accounted(session.os.log.monitor, h, reopenings)) ==>
                            Accounted(session.os.log.monitor, h, reopenings)
    {
      ghost var log := session.os.log;
      ReapStep(process);
      AccountedForGood(log, session.os.log, reopenings);
      if waiting {
        StillFollows(since);
      }
    }

    /** The compositor and the desktop are running. */
    ghost predicate PartsUp()
      reads session, session.components
    {
      forall c :: c in session.components && c.kind in {Weston, Ldde} ==> c.state == Running
    }

    /** Everything there is to see just now. */
    ghost function Now(): Moment
      reads this, recovery, recovery.diagnostics, session, session.machine, session.components, session.supervisor,
            session.supervisor.registry, session.os
    {
      Moment(
        session.machine.currentState, session.supervised, session.supervisor.shuttingDown,
        session.supervisor.registry.byHandle.Keys, session.os.dead,
        session.States(), session.Attachments(), session.Handles(), PartsUp(),
        session.os.log, session.os.now, session.os.refusals,
        recovery.state, recovery.requests, recovery.diagnostics.full, heard, told)
    }

    /** The operation did what it is for. */
    twostate predicate Does(op: Operation)
      requires session.components == old(session.components)
      reads this, recovery, recovery.diagnostics, session, session.machine, session.components, session.supervisor,
            session.supervisor.registry, session.os
    {
      Did(recovery.config, session.components, op, old(Now()), Now())
    }

    /** The session did something, and recovery was not asked. */
    twostate lemma Went(op: Operation)
      requires Parts() && session.Onward() && session.components == old(session.components)
      requires unchanged(recovery) && unchanged(recovery.diagnostics) && unchanged(this)
      ensures WentOn(op, old(Now()), Now())
    {
      assert Onwards(old(Now()), Now()) && Undisturbed(old(Now()), Now());
    }

    ghost predicate Effective(op: Operation, a: Moment, b: Moment)
      reads session
    {
      Fulfilled(recovery.config, session.components, op, a, b)
    }

    /** The same for an operation that may ask recovery. */
    twostate lemma WentAsking(op: Operation)
      requires Parts() && session.Forward() && session.components == old(session.components) && AsksRecovery(op)
      requires old(recovery.diagnostics.full) <= recovery.diagnostics.full
      requires old(heard) <= heard && old(told) <= told
      ensures WentOn(op, old(Now()), Now())
    {
      assert Onwards(old(Now()), Now());
    }

    twostate lemma SleepShown(ms: nat)
      requires session.components == old(session.components) && Refused()
      requires session.os.now >= old(session.os.now) + ms
      ensures Effective(Sleep(ms), old(Now()), Now())
    {
      assert AfterSleep(ms, old(Now()), Now());
      Fulfils(recovery.config, session.components, Sleep(ms), old(Now()), Now());
    }

    twostate lemma ResetShown()
      requires session.components == old(session.components) && Refused() && unchanged(this)
      requires recovery.diagnostics.full == old(recovery.diagnostics.full)
      requires if InProgress(old(recovery.state)) then unchanged(recovery)
               else recovery.state == Idle && recovery.requests == []
      ensures Effective(ResetRecovery, old(Now()), Now())
    {
      assert AfterReset(old(Now()), Now());
      Fulfils(recovery.config, session.components, ResetRecovery, old(Now()), Now());
    }

    twostate lemma RecoverShown(op: Operation)
      requires Parts() && session.components == old(session.components) && unchanged(this) && op.Recover?
      requires InProgress(old(recovery.state)) ==>
                 Refused() && Unasked() && recovery.requests == old(recovery.requests)
      requires !InProgress(old(recovery.state)) ==> Concluded(op.reason, TargetOf(op.reason, op.target))
      ensures Effective(op, old(Now()), Now())
    {
      PartsAreUp();
      assert AfterRecover(recovery.config, op.reason, op.target, old(Now()), Now());
      Fulfils(recovery.config, session.components, op, old(Now()), Now());
    }

    /** What a request ended in that recovery was free for. */
    twostate predicate Concluded(reason: Reason, target: Target)
      requires session.components == old(session.components) && recovery.session == session
      reads recovery, recovery.diagnostics, session, session.machine, session.components, session.supervisor,
            session.os, Session.Part(session.compositor), Session.Part(session.desktop)
    {
      var success := recovery.state == Recovered;
      && recovery.Concluded(success, recovery.Executed(old(recovery.requests)))
      && recovery.LastOutcome(target, reason)
      && (if old(recovery.Qualified()) then recovery.CountedAs(old(recovery.requests), reason, target)
          else recovery.requests == old(recovery.requests) && !success)
      && (old(session.machine.currentState) == RUNNING ==>
            if success then session.IsGraphicalSessionReady() else session.machine.currentState == FAILED)
    }

    lemma PartsAreUp()
      requires Parts()
      ensures session.PartsRunning() ==> PartsUp()
    {
      session.Known();
    }

    twostate lemma InitializeShown(success: bool)
      requires session.components == old(session.components)
      requires success ==> ReadyNow() && IsValidSessionTransition(old(session.machine.currentState), INITIALIZING)
      requires !success && IsValidSessionTransition(old(session.machine.currentState), INITIALIZING) ==>
                 session.machine.currentState == FAILED && session.os.refusals > old(session.os.refusals)
      requires !IsValidSessionTransition(old(session.machine.currentState), INITIALIZING) ==> Refused()
      ensures Effective(Initialize, old(Now()), Now())
    {
      assert AfterInitialize(old(Now()), Now());
      Fulfils(recovery.config, session.components, Initialize, old(Now()), Now());
    }

    twostate lemma PrepareShown(success: bool)
      requires session.components == old(session.components)
      requires old(session.machine.currentState) == CREATED ==>
                 if success then ReadyNow()
                 else session.machine.currentState == FAILED && session.os.refusals > old(session.os.refusals)
      requires old(session.machine.currentState) != CREATED ==> Refused()
      ensures Effective(Prepare, old(Now()), Now())
    {
      assert AfterPrepare(old(Now()), Now());
      Fulfils(recovery.config, session.components, Prepare, old(Now()), Now());
    }

    twostate predicate ReadyNow()
      requires session.components == old(session.components)
      reads session, session.machine, session.components, session.supervisor, session.supervisor.registry, session.os
    {
      && session.machine.currentState == READY && session.Opened() && session.AllAttached()
      && session.States() == old(session.States()) && session.os.log.monitor.live == {} && session.Reached([])
    }

    /** The session does not do this in its state. */
    twostate predicate Refused()
      requires session.components == old(session.components)
      reads session, session.machine, session.components, session.os
    {
      && session.Idle() && session.supervised == old(session.supervised)
      && session.machine.currentState == old(session.machine.currentState)
    }

    twostate lemma StartShown(k: nat)
      requires session.components == old(session.components)
      requires old(session.machine.currentState) in {CREATED, READY} ==>
                 || (session.machine.currentState == RUNNING && session.AllStartedFrom(old(session.Snapshot())))
                 || (session.machine.currentState == FAILED && k < |session.components|
                     && session.NoneStarted(k, old(session.Snapshot())))
                 || (session.machine.currentState == FAILED && old(session.machine.currentState) == CREATED
                     && session.os.log.monitor.live == {} && session.Reached([]))
      requires old(session.machine.currentState) !in {CREATED, READY} ==> Refused()
      ensures Effective(Start, old(Now()), Now())
    {
      assert Beside(session);
      if old(session.machine.currentState) in {CREATED, READY} {
        if session.machine.currentState == RUNNING {
          AllHandlesLive();
        } else if k < |session.components| && session.NoneStarted(k, old(session.Snapshot())) {
          assert RolledBack(session.components, k, old(Now()), Now());
        }
      }
      assert AfterStart(session.components, old(Now()), Now());
      Fulfils(recovery.config, session.components, Start, old(Now()), Now());
    }

    lemma AllHandlesLive()
      requires session.Outfitted(|session.components|)
      ensures forall j :: 0 <= j < |session.Handles()| ==>
                session.Handles()[j].Some? && session.Handles()[j].value in session.os.log.monitor.live
    {
      forall j: nat | j < |session.Handles()|
        ensures session.Handles()[j].Some? && session.Handles()[j].value in session.os.log.monitor.live
      {
        assert Round(j);
      }
    }

    twostate lemma StopShown()
      requires session.components == old(session.components)
      requires session.machine.currentState == session.AfterStop(old(session.machine.currentState))
      requires old(session.machine.currentState) !in {CREATED, STOPPING, STOPPED} ==> Halted()
      requires old(session.machine.currentState) in {CREATED, STOPPING, STOPPED} ==> session.Idle()
      requires session.supervised == old(session.supervised)
      ensures Effective(Stop, old(Now()), Now())
    {
      if old(session.machine.currentState) !in {CREATED, STOPPING, STOPPED} {
        HaltedIsTornDown();
      }
      assert AfterStop(session.components, old(Now()), Now());
      Fulfils(recovery.config, session.components, Stop, old(Now()), Now());
    }

    /** The running components were stopped and nothing is left. */
    twostate predicate Halted()
      requires session.components == old(session.components)
      reads session, session.components, session.supervisor, session.supervisor.registry, session.os
    {
      && session.AllHalted(old(session.States()), old(session.os.log.monitor.milestones))
      && session.os.log.monitor.live == {} && (session.supervised ==> session.Closed())
    }

    twostate lemma HaltedIsTornDown()
      requires session.components == old(session.components) && Halted()
      ensures TornDown(session.components, old(Now()), Now())
    {
      HaltedMeans();
      assert old(Now()).states == old(session.States()) && Now().states == session.States();
    }

    twostate lemma HaltedMeans()
      requires session.components == old(session.components) && Halted()
      ensures session.States() == HaltedFrom(old(session.States()), 0)
      ensures session.os.log.monitor.milestones ==
                old(session.os.log.monitor.milestones)
                + HaltsOf(session.components, old(session.States()), |session.components|)
      ensures forall j :: 0 <= j < |session.States()| ==> session.States()[j] != Running
    {
      session.NoneIsRunning(old(session.States()), old(session.os.log.monitor.milestones));
    }

    twostate lemma FailShown()
      requires session.components == old(session.components)
      requires session.machine.currentState ==
                 if old(session.machine.currentState) in {STOPPED, FAILED} then old(session.machine.currentState)
                 else FAILED
      requires Halted()
      ensures Effective(Fail, old(Now()), Now())
    {
      HaltedIsTornDown();
      assert AfterFail(session.components, old(Now()), Now());
      Fulfils(recovery.config, session.components, Fail, old(Now()), Now());
    }

    twostate lemma CleanupShown()
      requires session.components == old(session.components)
      requires session.machine.currentState == session.AfterStop(old(session.machine.currentState))
      requires session.os.log.monitor.live == {} && (session.supervised ==> session.Closed())
      ensures Effective(Cleanup, old(Now()), Now())
    {
      assert AfterCleanup(old(Now()), Now());
      Fulfils(recovery.config, session.components, Cleanup, old(Now()), Now());
    }

    /** One operation. */
    method Step(op: Operation)
      requires Valid()
      modifies this, recovery, recovery.diagnostics, session`supervised, session.environment, session.machine
      modifies session.components, session.supervisor, session.supervisor.registry, session.os, session.supervisor.procs
      ensures Valid() && session.Forward() && Does(op)
    {
      if op == Reap {
        ReapPass();
      } else {
        Operate(op);
        AllStillNoticed();
      }
    }

    /** Anything but a reap pass. */
    method Operate(op: Operation)
      requires Parts() && op != Reap
      modifies recovery, recovery.diagnostics, session`supervised, session.environment, session.machine
      modifies session.components, session.supervisor, session.supervisor.registry, session.os, session.supervisor.procs
      ensures Parts() && session.Onward() && Does(op)
    {
      match op {
        case Initialize =>
          InitializeStep();
        case Prepare =>
          PrepareStep();
        case Start =>
          StartStep();
        case Stop =>
          StopStep();
        case Fail =>
          FailStep();
        case Cleanup =>
          CleanupStep();
        case Recover(reason, target) =>
          RecoverStep(reason, target);
        case ResetRecovery =>
          ResetStep();
        case Sleep(ms) =>
          SleepStep(ms);
        case Reap =>
          assert false;
      }
    }

    method RecoverStep(reason: Reason, target: Target)
      requires Parts()
      modifies recovery, recovery.diagnostics, session`supervised, session.environment, session.machine
      modifies session.components, session.supervisor, session.supervisor.registry, session.os, session.supervisor.procs
      ensures Parts() && session.Onward() && Does(Operation.Recover(reason, target))
    {
      var r := recovery.Recover(reason, target);
      WentAsking(Operation.Recover(reason, target));
      if !InProgress(old(recovery.state)) && old(recovery.Qualified()) {
        recovery.HandledIsCounted(old(recovery.requests), reason, TargetOf(reason, target), r);
      }
      RecoverShown(Operation.Recover(reason, target));
    }

    method ResetStep()
      requires Parts()
      modifies recovery, recovery.diagnostics
      ensures Parts() && session.Onward() && Does(ResetRecovery)
    {
      if !InProgress(recovery.state) {
        recovery.Reset();
      }
      WentAsking(ResetRecovery);
      ResetShown();
    }

    method SleepStep(ms: nat)
      requires Parts()
      modifies session.os`now, session.os`children, session.os`dead
      ensures Parts() && session.Onward() && Does(Sleep(ms))
    {
      var _ := session.Pause(ms);
      Went(Sleep(ms));
      SleepShown(ms);
    }

    method InitializeStep()
      requires Parts()
      modifies session`supervised, session.environment, session.machine
      modifies session.components, session.supervisor, session.supervisor.registry, session.os, session.supervisor.procs
      ensures Parts() && session.Onward() && Does(Initialize)
    {
      var r := session.Initialize();
      Went(Initialize);
      InitializeShown(r.Success?);
    }

    method PrepareStep()
      requires Parts()
      modifies session`supervised, session.environment, session.machine
      modifies session.components, session.supervisor, session.supervisor.registry, session.os, session.supervisor.procs
      ensures Parts() && session.Onward() && Does(Prepare)
    {
      var r := session.Prepare();
      Went(Prepare);
      PrepareShown(r.Success?);
    }

    method StartStep()
      requires Parts()
      modifies session`supervised, session.environment, session.machine
      modifies session.components, session.supervisor, session.supervisor.registry, session.os, session.supervisor.procs
      ensures Parts() && session.Onward() && Does(Start)
    {
      var r, k := session.Start();
      Went(Start);
      StartShown(k);
    }

    method StopStep()
      requires Parts()
      modifies session.machine
      modifies session.components, session.supervisor, session.supervisor.registry, session.os, session.supervisor.procs
      ensures Parts() && session.Onward() && Does(Stop)
    {
      var stopped := session.Stop();
      Went(Stop);
      StopShown();
    }

    method FailStep()
      requires Parts()
      modifies session.machine
      modifies session.components, session.supervisor, session.supervisor.registry, session.os, session.supervisor.procs
      ensures Parts() && session.Onward() && Does(Fail)
    {
      session.Fail();
      Went(Fail);
      FailShown();
    }

    method CleanupStep()
      requires Parts()
      modifies session.machine
      modifies session.components, session.supervisor, session.supervisor.registry, session.os, session.supervisor.procs
      ensures Parts() && session.Onward() && Does(Cleanup)
    {
      session.Cleanup();
      Went(Cleanup);
      CleanupShown();
    }

    /** Any operations in any order, with crashes at any moment in between. Each did what it is for. */
    method Run(ops: seq<Operation>) returns (ghost moments: seq<Moment>)
      requires Valid()
      modifies this, recovery, recovery.diagnostics, session`supervised, session.environment, session.machine
      modifies session.components, session.supervisor, session.supervisor.registry, session.os, session.supervisor.procs
      ensures Valid() && session.Forward() && Safe() && heard == Reports(session.os.log.events) && |told| == |heard|
      ensures (forall i :: 0 <= i < |told| ==> Complete(told[i])) && AllNoticed()
      ensures AllDone(recovery.config, session.components, ops, moments)
      ensures moments[0] == old(Now()) && moments[|ops|] == Now()
    {
      moments := [Now()];
      for i := 0 to |ops|
        invariant Valid() && session.Forward()
        invariant AllDone(recovery.config, session.components, ops[..i], moments)
        invariant moments[0] == old(Now()) && moments[i] == Now()
      {
        Step(ops[i]);
        OneMoreDone(recovery.config, session.components, ops, i, moments, Now());
        moments := moments + [Now()];
      }
      assert ops[..|ops|] == ops;
      EveryRunIsSafe();
    }

    /** The start order held throughout, components were declared running only on proof, no exit was reported
        twice without a reopening in between, no process was killed before it was asked to end and its grace
        period had passed, and no window saw more executed recoveries than allowed. */
    ghost predicate Safe()
      reads session.os, recovery
    {
      && SafeHistory(session.os.log.events) && KillsFollowRequests(session.os.sent)
      && (forall a: nat, b: nat :: b <= a + recovery.config.windowMs ==>
                                     ExecutedBetween(recovery.requests, a, b) <= recovery.config.maxAttempts)
    }

    lemma EveryRunIsSafe()
      requires Valid()
      ensures Safe() && heard == Reports(session.os.log.events) && |told| == |heard|
    {
      assert Inside(recovery) && Round(|recovery.requests|);
      EveryHistoryIsSafe(session.os.log);
      forall a: nat, b: nat | b <= a + recovery.config.windowMs
        ensures ExecutedBetween(recovery.requests, a, b) <= recovery.config.maxAttempts
      {
        RateLimit(recovery.requests, recovery.config.maxAttempts, recovery.config.windowMs, a, b);
      }
      session.KillsWereAsked();
      SeenReports(session.os.log, |session.os.log.events|);
      assert session.os.log.events[..|session.os.log.events|] == session.os.log.events;
    }
  }

  /** What the history of every run keeps, in terms of its events alone. */
  ghost predicate SafeHistory(t: seq<Event>) {
    && (forall n: nat :: n <= |t| ==> DesktopNeedsCompositor(t[..n]))
    && (forall n: nat :: n < |t| ==> StartsInOrder(t, n))
    && (forall n: nat :: n < |t| ==> RunningIsProven(t, n))
    && (forall i: nat, j: nat :: i < j < |t| && t[i].Settled? && t[j] == Settled(t[i].pid, true) ==>
                                   ReopenedBetween(t, i, j))
    && (forall i: nat, j: nat :: i < j < |t| && t[i] == ShutDown && t[j].Spawned? ==> ReopenedBetween(t, i, j))
  }

  ghost predicate ReopenedBetween(t: seq<Event>, i: nat, j: nat)
    requires i < j < |t|
  {
    exists r :: i < r < j && t[r] == Reopened
  }

  lemma EveryHistoryIsSafe(l: AcceptedLog)
    ensures SafeHistory(l.events)
  {
    var t := l.events;
    forall n: nat | n <= |t|
      ensures DesktopNeedsCompositor(t[..n])
      ensures n < |t| ==> StartsInOrder(t, n) && RunningIsProven(t, n)
    {
      DependencyOrder(l, n);
      if n < |t| {
        EveryRunningIsProven(l, n);
      }
    }
    forall i: nat, j: nat | i < j < |t| && t[i].Settled? && t[j] == Settled(t[i].pid, true)
      ensures ReopenedBetween(t, i, j)
    {
      ExitsReportedOnce(l, i, j);
    }
    forall i: nat, j: nat | i < j < |t| && t[i] == ShutDown && t[j].Spawned?
      ensures ReopenedBetween(t, i, j)
    {
      NoSpawnAfterShutdown(l, i, j);
    }
  }

  /** The daemon's own sequence: both managers and the recovery manager attached, the session initialised and
      started, then the loop. It comes up unless the system refuses something. */
  method Boot(system: map<string, string>, settings: SessionSettings, locations: SessionLocations,
      inheritedHome: Option<string>, weston: Settings, ldde: Settings, config: RecoveryConfig, ops: seq<Operation>)
    returns (loop: MainLoop, up: bool, ghost moments: seq<Moment>)
    ensures loop.Valid() && loop.Safe() && loop.heard == Reports(loop.session.os.log.events)
    ensures loop.recovery.config == config && Configured(loop.session, settings, locations, inheritedHome, weston, ldde)
    ensures !up ==> loop.session.os.refusals > 0
    ensures up ==>
              Served(config, loop.session.components, ops, moments) && moments[|ops|] == loop.Now()
  {
    var recovery;
    recovery, up := Begin(system, settings, locations, inheritedHome, weston, ldde, config);
    loop, moments := Serve(recovery, up, ops, Inherited(system));
  }

  /** Everything before the loop. */
  method Begin(system: map<string, string>, settings: SessionSettings, locations: SessionLocations,
      inheritedHome: Option<string>, weston: Settings, ldde: Settings, config: RecoveryConfig)
    returns (recovery: RecoveryManager, up: bool)
    ensures recovery.Valid() && recovery.session.os.log.monitor.reports == [] && Unforced(recovery.session.os.sent)
    ensures recovery.config == config
    ensures Configured(recovery.session, settings, locations, inheritedHome, weston, ldde)
    ensures if up then IsUp(recovery.session, Inherited(system))
            else recovery.session.os.refusals > 0
    ensures fresh(recovery) && fresh(recovery.diagnostics) && fresh(recovery.session)
    ensures fresh(recovery.session.environment) && fresh(recovery.session.machine) && fresh(recovery.session.os)
    ensures fresh(recovery.session.components) && fresh(recovery.session.supervisor)
    ensures fresh(recovery.session.supervisor.registry) && fresh(recovery.session.supervisor.procs)
  {
    var session := Assemble(system, settings, locations, inheritedHome, weston, ldde);
    up := BringUp(session);
    recovery := new RecoveryManager(session, config);
  }

  /** The loop, over a session that is up. */
  method Serve(recovery: RecoveryManager, up: bool, ops: seq<Operation>, ghost inherited: map<string, string>)
    returns (loop: MainLoop, ghost moments: seq<Moment>)
    requires recovery.Valid() && recovery.session.os.log.monitor.reports == [] && Unforced(recovery.session.os.sent)
    requires up ==> IsUp(recovery.session, inherited)
    modifies recovery, recovery.diagnostics, recovery.session`supervised, recovery.session.environment
    modifies recovery.session.machine, recovery.session.components, recovery.session.supervisor
    modifies recovery.session.supervisor.registry, recovery.session.os, recovery.session.supervisor.procs
    ensures fresh(loop) && loop.recovery == recovery && loop.session == recovery.session
    ensures loop.Valid() && loop.Safe() && loop.heard == Reports(loop.session.os.log.events)
    ensures recovery.session.os.refusals >= old(recovery.session.os.refusals)
    ensures up ==> Served(recovery.config, recovery.session.components, ops, moments) && moments[|ops|] == loop.Now()
  {
    loop := new MainLoop(recovery);
    moments := [];
    if up {
      moments := RunUp(loop, ops, inherited);
    } else {
      loop.EveryRunIsSafe();
    }
  }

  method RunUp(loop: MainLoop, ops: seq<Operation>, ghost inherited: map<string, string>)
    returns (ghost moments: seq<Moment>)
    requires loop.Valid() && IsUp(loop.session, inherited)
    modifies loop, loop.recovery, loop.recovery.diagnostics, loop.session`supervised, loop.session.environment
    modifies loop.session.machine, loop.session.components, loop.session.supervisor
    modifies loop.session.supervisor.registry, loop.session.os, loop.session.supervisor.procs
    ensures loop.Valid() && loop.Safe() && loop.heard == Reports(loop.session.os.log.events)
    ensures loop.session.os.refusals >= old(loop.session.os.refusals)
    ensures Served(loop.recovery.config, loop.session.components, ops, moments) && moments[|ops|] == loop.Now()
  {
    UpMeans(loop.session, inherited);
    moments := loop.Run(ops);
  }

  /** A run that begins with every component of a RUNNING session up. */
  ghost predicate Served(c: RecoveryConfig, cs: seq<Component>, ops: seq<Operation>, moments: seq<Moment>) {
    AllDone(c, cs, ops, moments) && BeginsUp(moments[0], |cs|)
  }

  predicate BeginsUp(start: Moment, n: nat) {
    && start.session == RUNNING && |start.states| == n
    && forall j :: 0 <= j < n ==> start.states[j] == Running
  }

  /** The compositor and the desktop, in this order, with their settings, in a session with its own. */
  ghost predicate Configured(session: Session, settings: SessionSettings, locations: SessionLocations,
      inheritedHome: Option<string>, weston: Settings, ldde: Settings)
    reads session`components, session`compositor, session`desktop
  {
    forall s {:trigger Beside(s)} :: s == session ==>
      && s.settings == settings && s.locations == locations && s.inheritedHome == inheritedHome
      && s.compositor.Some? && s.desktop.Some? && s.components == [s.compositor.value, s.desktop.value]
      && s.compositor.value.kind == Weston && s.compositor.value.settings == weston
      && s.desktop.value.kind == Ldde && s.desktop.value.settings == ldde
  }

  /** The daemon from its start to its end, with as many rounds of its loop as it takes until it is asked to
      stop: in every round it sleeps and reaps, and in the end it stops the session. */
  method Live(system: map<string, string>, settings: SessionSettings, locations: SessionLocations,
      inheritedHome: Option<string>, weston: Settings, ldde: Settings, config: RecoveryConfig, rounds: nat)
    returns (loop: MainLoop, up: bool, ghost moments: seq<Moment>)
    ensures loop.Valid() && loop.Safe()
    ensures !up ==> loop.session.os.refusals > 0
    ensures up ==>
              && |moments| == 2 * rounds + 2 && moments[2 * rounds + 1] == loop.Now()
              && (forall k: nat :: k < rounds ==>
                    AfterSleep(100, moments[2 * k], moments[2 * k + 1])
                    && AfterReap(moments[2 * k + 1], moments[2 * k + 2]))
              && AfterStop(loop.session.components, moments[2 * rounds], loop.Now())
  {
    loop, up, moments := Boot(system, settings, locations, inheritedHome, weston, ldde, config, Rounds(rounds));
    RoundsEnd(rounds);
    if up {
      EveryRound(config, loop.session.components, rounds, moments);
    }
  }

  lemma EveryRound(c: RecoveryConfig, cs: seq<Component>, rounds: nat, moments: seq<Moment>)
    requires AllDone(c, cs, Rounds(rounds), moments) && |Rounds(rounds)| == 2 * rounds + 1
    ensures forall k: nat :: k < rounds ==>
              AfterSleep(100, moments[2 * k], moments[2 * k + 1]) && AfterReap(moments[2 * k + 1], moments[2 * k + 2])
    ensures AfterStop(cs, moments[2 * rounds], moments[2 * rounds + 1])
  {
    var ops := Rounds(rounds);
    RoundsEnd(rounds);
    forall k: nat | k < rounds
      ensures AfterSleep(100, moments[2 * k], moments[2 * k + 1]) && AfterReap(moments[2 * k + 1], moments[2 * k + 2])
    {
      assert ops[2 * k] == Sleep(100) && ops[2 * k + 1] == Reap;
      Effected(c, cs, ops[2 * k], moments[2 * k], moments[2 * k + 1]);
      Effected(c, cs, ops[2 * k + 1], moments[2 * k + 1], moments[2 * k + 2]);
    }
    assert ops[2 * rounds] == Stop;
    Effected(c, cs, ops[2 * rounds], moments[2 * rounds], moments[2 * rounds + 1]);
  }

  /** A session with both managers attached. */
  method Assemble(system: map<string, string>, settings: SessionSettings, locations: SessionLocations,
      inheritedHome: Option<string>, weston: Settings, ldde: Settings) returns (session: Session)
    ensures session.Valid() && session.machine.currentState == CREATED && session.AllStartable()
    ensures fresh(session) && fresh(session.environment) && fresh(session.machine) && fresh(session.components)
    ensures fresh(session.supervisor) && fresh(session.supervisor.registry) && fresh(session.os)
    ensures fresh(session.supervisor.procs) && session.os.log.monitor.reports == [] && session.os.sent == []
    ensures session.OnlyParts() && Configured(session, settings, locations, inheritedHome, weston, ldde)
    ensures session.environment.variables == Inherited(system)
  {
    var os := new Os();
    var environment := new SessionEnvironment(system);
    session := new Session(os, environment, settings, locations, inheritedHome);
    AttachBoth(session, weston, ldde);
  }

  method AttachBoth(session: Session, weston: Settings, ldde: Settings)
    requires session.Valid() && !session.supervised && session.components == []
    modifies session`components, session`compositor, session`desktop, session.os`log
    ensures session.Valid() && session.Onward() && session.AllStartable() && session.OnlyParts()
    ensures session.machine.currentState == old(session.machine.currentState) && fresh(session.components)
    ensures Configured(session, session.settings, session.locations, session.inheritedHome, weston, ldde)
  {
    var compositor := session.Attach(Weston, weston);
    var desktop := session.Attach(Ldde, ldde);
    assert session.components == [compositor, desktop];
  }

  /** The session is RUNNING, with every component on a living process that was given the session's variables,
      these being the standard ones over the inherited. */
  ghost predicate IsUp(session: Session, inherited: map<string, string>)
    reads session, session.machine, session.components, session.os, session.supervisor, session.environment
  {
    forall s {:trigger Beside(s)} :: s == session ==>
      && s.machine.currentState == RUNNING && s.AllRunning()
      && s.Outfitted(|s.components|) && s.EnvironmentInUse() && s.Furnished(inherited)
  }

  lemma UpMeans(session: Session, inherited: map<string, string>)
    requires IsUp(session, inherited)
    ensures session.machine.currentState == RUNNING && session.AllRunning()
  {
    assert Beside(session);
  }

  method BringUp(session: Session) returns (up: bool)
    requires session.Valid() && session.machine.currentState == CREATED && session.AllStartable()
    modifies session`supervised, session.environment, session.machine
    modifies session.components, session.supervisor, session.supervisor.registry, session.os, session.supervisor.procs
    ensures session.Valid() && session.Onward()
    ensures up ==> IsUp(session, old(session.environment.variables))
    ensures !up ==> session.os.refusals > old(session.os.refusals)
  {
    var initialized := session.Initialize();
    if initialized.Failure? {
      up := false;
    } else {
      up := StartUp(session, old(session.environment.variables));
    }
  }

  method StartUp(session: Session, ghost inherited: map<string, string>) returns (up: bool)
    requires session.Valid() && session.machine.currentState == READY && session.MayStart() && session.supervised
    requires session.Furnished(inherited)
    modifies session`supervised, session.environment, session.machine
    modifies session.components, session.supervisor, session.supervisor.registry, session.os, session.supervisor.procs
    ensures session.Valid() && session.Onward()
    ensures up ==> IsUp(session, inherited)
    ensures !up ==> session.os.refusals > old(session.os.refusals)
  {
    assert Inside(session.environment);
    var started, _ := session.Start();
    assert Beside(session);
    up := started.Success?;
  }
}
