/** The process supervisor: it starts, stops and reaps children and reports each exit once. */
module Supervisor {
  import opened Focus
  import opened Results
  import opened Transitions
  import opened Trace
  import opened OperatingSystem
  import opened Environment
  import opened Processes
  import opened Registry

  datatype EventType = Started | StartupFailed | Exited | Signaled | TerminationRequested | Terminated

  datatype ProcessEvent = ProcessEvent(eventType: EventType, pid: nat, kind: Kind)

  predicate IsExit(e: ProcessEvent) {
    e.eventType == Exited || e.eventType == Signaled
  }

  /** The event that closes a pid's story: its exit, or its end on request. */
  predicate Closes(e: ProcessEvent) {
    IsExit(e) || e.eventType == Terminated
  }

  /** No pid is reported as exited twice, nor after it was stopped or killed on request. */
  ghost predicate ReportedOnce(events: seq<ProcessEvent>) {
    forall i, j :: 0 <= i < j < |events| && Closes(events[i]) && IsExit(events[j]) ==> events[i].pid != events[j].pid
  }

  ghost predicate Marked(events: seq<ProcessEvent>, pids: set<nat>) {
    forall i :: 0 <= i < |events| && Closes(events[i]) ==> events[i].pid in pids
  }

  /** What the start order asks of a spawn. */
  predicate StartAllowed(m: Monitor, kind: Kind) {
    && (kind == Ldde && Weston in m.states ==> m.states[Weston] == Running)
    && (kind == Weston ==> !LddeLive(m))
  }

  /** Processes ended, were reported or were marked; no other record changed. */
  predicate Subsided(before: Monitor, after: Monitor) {
    && after == before.(live := after.live, ended := after.ended, settled := after.settled, reports := after.reports)
    && after.live <= before.live && before.ended <= after.ended && before.settled <= after.settled
  }

  /** At most the process named h ended, and at most one pid was marked. */
  predicate Released(before: Monitor, after: Monitor, h: Handle) {
    && after == before.(live := before.live - {h}, ended := after.ended, settled := after.settled)
    && before.ended <= after.ended && before.settled <= after.settled
    && (forall p :: p in after.settled ==> p in before.settled || p == 0 || (p in after.owner && after.owner[p] == h))
  }

  /** Who hears of an event: the session itself, or the manager of a component. */
  datatype Listener = SessionListener | ManagerListener(kind: Kind)

  lemma ReleaseKeepsOthers(before: Monitor, after: Monitor, h: Handle)
    requires Released(before, after, h)
    ensures OthersKept(before, after, h.kind)
  {
    assert KeptApart(before, after, h.kind);
  }

  const DEFAULT_STOP_TIMEOUT: nat := 5000
  const DEFAULT_KILL_TIMEOUT: nat := 2000

  class ProcessSupervisor {
    const os: Os
    const registry: ProcessRegistry
    var emittedExitPids: set<nat>
    var shuttingDown: bool
    var baseEnvironment: seq<string>
    var listeners: seq<Listener>                // called for every event, in this order
    ghost var procs: set<Process>               // every process ever created here
    ghost var events: seq<ProcessEvent>         // everything emitted since the last reset

    ghost predicate Valid()
      reads this, os, registry, procs
    {
      forall s {:trigger Inside(s)} :: s == this ==> Sound() && AllStarted()
    }

    /** Every process was at least tried to be started. */
    ghost predicate AllStarted()
      reads this, procs
    {
      forall p :: p in procs ==> p.state != ProcCreated
    }

    ghost predicate Sound()
      reads this, os, registry, procs
    {
      && os.Valid() && registry.Valid()
      && os.log.monitor.isOpen == !shuttingDown
      && (forall p :: p in procs ==> p.os == os && p.Valid())
      && (forall p, q :: p in procs && q in procs && p.handle == q.handle ==> p == q)
      && (forall h :: h in registry.byHandle ==> registry.byHandle[h] in procs)
      && (forall p :: p in procs ==> p.handle in registry.byHandle || p.IsTerminated())
      && (forall h :: h in os.log.monitor.live ==> h in registry.byHandle)
      && ReportedOnce(events) && Marked(events, emittedExitPids) && emittedExitPids == os.log.monitor.settled
    }

    constructor (os: Os)
      requires os.Valid() && os.log.monitor.live == {}
      modifies os`log
      ensures Valid() && this.os == os && fresh(registry) && procs == {}
      ensures os.log == Extend(old(os.log), Reopened) && registry.byHandle == map[] && !shuttingDown
      ensures listeners == []
    {
      this.os := os;
      registry := new ProcessRegistry();
      emittedExitPids, shuttingDown, baseEnvironment, listeners := {}, false, [], [];
      procs, events := {}, [];
      new;
      os.RecordOpen(true);
      assert Inside(this);
    }

    method SetBaseEnvironment(env: seq<string>)
      requires Valid()
      modifies this`baseEnvironment
      ensures Valid() && baseEnvironment == env
    {
      assert Inside(this);
      baseEnvironment := env;
    }

    method RegisterListener(l: Listener)
      requires Valid()
      modifies this`listeners
      ensures Valid() && listeners == old(listeners) + [l]
    {
      assert Inside(this);
      listeners := listeners + [l];
    }

    /** Nobody listens; as in a supervisor just made. */
    method ClearListeners()
      requires Valid()
      modifies this`listeners
      ensures Valid() && listeners == []
    {
      assert Inside(this);
      listeners := [];
    }

    /** Processes are only ever added, and only new ones. */
    twostate predicate Grew()
      reads this
    {
      old(procs) <= procs && forall p :: p in procs ==> p in old(procs) || fresh(p)
    }

    ghost method Announce(e: ProcessEvent)
      requires Valid() && !Closes(e)
      modifies this`events
      ensures Valid() && events == old(events) + [e]
    {
      assert Inside(this);
      Emit(e);
    }

    method StartProcess(spec: ProcessSpec) returns (r: Result<Process>)
      requires Valid() && StartAllowed(os.log.monitor, spec.kind)
      modifies this`procs, this`events, os, registry
      ensures Valid()
      ensures shuttingDown ==> r == Failure(ProcessInvalidState) && events == old(events)
      ensures !shuttingDown ==>
                events == old(events) + [if r.Success? then ProcessEvent(Started, r.value.pid, spec.kind)
                                         else ProcessEvent(StartupFailed, 0, spec.kind)]
      ensures r.Failure? ==> os.log == old(os.log)
      ensures r.Success? ==> !shuttingDown && fresh(r.value) && WasSpawned(r.value, spec)
      ensures os.nextPid >= old(os.nextPid) && os.Elapsed() && os.sent == old(os.sent)
      ensures r.Failure? && !shuttingDown ==> os.refusals > old(os.refusals)
      ensures Grew()
    {
      if shuttingDown {
        return Failure(ProcessInvalidState);
      }
      var process := Adopt(spec);
      var started := Launch(process);
      Announce(if started.Success? then ProcessEvent(Started, process.pid, spec.kind)
           else ProcessEvent(StartupFailed, 0, spec.kind));
      r := if started.Success? then Success(process) else Failure(started.code);
    }

    /** A new process is running and nothing else changed in the history. */
    twostate predicate WasSpawned(new p: Process, spec: ProcessSpec)
      reads this, os, registry, p
    {
      && p.handle !in old(os.log.monitor.live) && p.handle.kind == spec.kind
      && 0 < old(os.nextPid) <= p.pid < os.nextPid
      && MayStart(old(os.log.monitor), p.handle) && p.pid !in old(os.log.monitor.owner)
      && os.log == Extend(old(os.log), Spawned(p.handle, p.pid, EnvironmentOf(os.log.monitor, p.handle)))
      && p.handle in registry.byHandle && registry.byHandle[p.handle] == p
      && Lists(EnvironmentOf(os.log.monitor, p.handle), Rebuild(baseEnvironment) + spec.environment)
    }

    /** Creates a process under a fresh handle. */
    method NewProcess(spec: ProcessSpec) returns (process: Process)
      requires Valid()
      modifies os`nextSerial
      ensures Valid() && fresh(process) && process.Valid() && process.os == os && process.state == ProcCreated
      ensures process.handle.kind == spec.kind && process.spec == spec && process.handle !in registry.byHandle
      ensures forall p :: p in procs ==> p.handle != process.handle
    {
      assert Inside(this);
      var serial := os.FreshSerial();
      var h := Handle(spec.kind, serial);
      forall p | p in procs
        ensures p.handle != h
      {
        assert Inside(p);
      }
      process := new Process(os, h, spec);
      OthersIdledTwoCases(os.children, h, Child(0, Reaped));
      OthersUndisturbed(h);
    }

    /** Creates and registers a process. */
    method Adopt(spec: ProcessSpec) returns (process: Process)
      requires Valid()
      modifies this`procs, os`nextSerial, registry
      ensures Adopted(process) && fresh(process) && process.os == os
      ensures process.handle.kind == spec.kind && process.spec == spec && procs == old(procs) + {process}
      ensures process.handle in registry.byHandle && registry.byHandle[process.handle] == process
    {
      process := NewProcess(spec);
      Register(process);
    }

    method Register(process: Process)
      requires Valid() && process.Valid() && process.os == os && process.state == ProcCreated
      requires process.handle !in registry.byHandle && forall p :: p in procs ==> p.handle != process.handle
      modifies this`procs, registry
      ensures Adopted(process) && procs == old(procs) + {process}
      ensures process.handle in registry.byHandle && registry.byHandle[process.handle] == process
    {
      assert Inside(this);
      var registered := registry.RegisterProcess(process);
      procs := procs + {process};
    }

    /** After an operation on one process the others are still valid. */
    twostate lemma OthersUndisturbed(h: Handle)
      requires os.Valid() && os.TouchedOnly(h)
      requires forall p :: p in old(procs) && p.handle != h ==> p.os == os && old(p.Valid()) && unchanged(p)
      ensures forall p :: p in old(procs) && p.handle != h ==> p.Valid()
    {
      forall p | p in old(procs) && p.handle != h
        ensures p.Valid()
      {
        p.Undisturbed(h);
      }
    }

    /** All but this newly registered process were tried to be started. */
    ghost predicate Adopted(process: Process)
      reads this, os, registry, procs
    {
      forall s {:trigger Inside(s)} :: s == this ==>
        && Sound() && process in procs && process.state == ProcCreated
        && (forall p :: p in procs && p.state == ProcCreated ==> p == process)
        && process.handle in registry.byHandle
    }

    /** After the first process operation of its life the supervisor is valid. */
    twostate lemma Launched(process: Process)
      requires old(Adopted(process)) && unchanged(this) && unchanged(registry) && process in procs
      requires forall p :: p in procs && p != process ==> unchanged(p)
      requires os.Valid() && os.TouchedOnly(process.handle) && os.log.monitor.settled == old(os.log.monitor.settled)
      requires process.Valid() && process.state != ProcCreated
      ensures Valid()
    {
      assert Inside(this);
      OthersUndisturbed(process.handle);
      forall h | h in os.log.monitor.live && h != process.handle
        ensures h in old(os.log.monitor.live)
      {
        OthersLiveAt(old(os.log.monitor), os.log.monitor, process.handle, h);
      }
    }

    /** Starts one process and leaves the others alone. */
    method Launch(process: Process) returns (r: Result<()>)
      requires Adopted(process) && process in procs
      requires !shuttingDown && StartAllowed(os.log.monitor, process.handle.kind)
      modifies process, os
      ensures Valid() && os.nextSerial == old(os.nextSerial) && os.Elapsed() && os.sent == old(os.sent)
      ensures r.Failure? ==> os.refusals > old(os.refusals)
      ensures r.Failure? ==>
                && os.log == old(os.log) && os.children == old(os.children) && os.nextPid == old(os.nextPid)
      ensures r.Success? ==>
                && 0 < old(os.nextPid) <= process.pid < os.nextPid
                && os.children == old(os.children)[process.handle := Child(process.pid, Alive)]
                && MayStart(old(os.log.monitor), process.handle) && process.pid !in old(os.log.monitor.owner)
                && var given := EnvironmentOf(os.log.monitor, process.handle);
                && os.log == Extend(old(os.log), Spawned(process.handle, process.pid, given))
                && Lists(given, Rebuild(baseEnvironment) + process.spec.environment)
    {
      assert Inside(this);
      var h := process.handle;
      assert Inside(process);
      r := process.Start(baseEnvironment);
      OthersIdledTwoCases(old(os.children), h, Child(process.pid, Alive));
      assert os.log.monitor.live - {h} == old(os.log.monitor.live) - {h};
      assert Inside(process);
      Launched(process);
    }

    /** Passes an event on; only its place in the record matters here. */
    ghost method Emit(e: ProcessEvent)
      requires ReportedOnce(events) && Marked(events, emittedExitPids)
      requires IsExit(e) ==> e.pid !in emittedExitPids
      modifies this`events
      ensures events == old(events) + [e] && ReportedOnce(events)
      ensures !Closes(e) ==> Marked(events, emittedExitPids)
      ensures Marked(events, emittedExitPids + {e.pid})
    {
      events := events + [e];
    }

    /** The process is gone; the history says so if it was alive, and otherwise did not change. */
    twostate predicate Finished(h: Handle)
      reads this, os
    {
      && h !in os.log.monitor.live
      && os.log == (if h in old(os.log.monitor.live) then Extend(old(os.log), Ended(h)) else old(os.log))
    }

    /** The process is gone and the history tells of nothing else. */
    twostate predicate WasReleased(h: Handle)
      reads this, os
    {
      old(os.log.events) <= os.log.events && Released(old(os.log.monitor), os.log.monitor, h)
    }

    lemma IsSound(process: Process)
      requires Valid() && process in procs
      ensures os.Valid() && process.os == os && process.Valid() && process.state != ProcCreated
      ensures emittedExitPids == os.log.monitor.settled
    {
      assert Inside(this);
    }

    /** After an operation that started nothing on one process the supervisor is valid again. */
    twostate lemma Resumed(process: Process)
      requires old(Valid()) && process in procs && unchanged(this) && unchanged(registry)
      requires forall p :: p in procs && p != process ==> unchanged(p)
      requires os.Valid() && os.TouchedOnly(process.handle) && os.log.monitor.live <= old(os.log.monitor.live)
      requires os.log.monitor.settled == old(os.log.monitor.settled)
      requires process.Valid() && process.state != ProcCreated
      requires old(process.IsTerminated()) ==> process.IsTerminated()
      ensures Valid()
    {
      assert Inside(this);
      OthersUndisturbed(process.handle);
    }

    /** Ends one process and leaves the others alone. */
    method End(process: Process, timeoutMs: nat, gently: bool)
      requires Valid() && process in procs
      modifies process, os
      ensures Valid() && process.IsTerminated() && Finished(process.handle)
      ensures process.pid == old(process.pid) && os.Elapsed()
      ensures old(os.sent) <= os.sent && (gently ==> process.Escalates(timeoutMs) && os.Patient())
      ensures !gently ==> Struck(process)
      ensures process.pid == 0 || Over(process)
    {
      IsSound(process);
      if gently {
        process.Stop(Some(timeoutMs));
      } else {
        process.Kill(Some(timeoutMs));
      }
      if gently && old(process.state) == ProcRunning {
        EscalationAsks(old(os.sent), os.sent, process.pid, old(os.now), timeoutMs);
      }
      assert Inside(process);
      Resumed(process);
    }

    /** This pid is that of the process, and the process has ended. */
    ghost predicate Over(process: Process)
      reads os, process
    {
      DeadPid(os.log.monitor, process.pid) && os.log.monitor.owner[process.pid] == process.handle
    }

    /** A running process got one SIGKILL, unasked; nobody else got a signal. */
    twostate predicate Struck(process: Process)
      reads os, process
    {
      os.sent == old(os.sent) +
                 if old(process.state) == ProcRunning then [Sent.Kill(process.pid, old(os.now), true)] else []
    }

    /** From now on the exit of this pid is not reported. */
    method MarkTerminated(process: Process)
      requires Valid() && (process.pid == 0 || DeadPid(os.log.monitor, process.pid))
      modifies this`emittedExitPids, this`events, os`log
      ensures Valid() && emittedExitPids == old(emittedExitPids) + {process.pid}
      ensures events == old(events) + [ProcessEvent(Terminated, process.pid, process.handle.kind)]
      ensures os.log == Extend(old(os.log), Settled(process.pid, false))
    {
      assert Inside(this);
      Emit(ProcessEvent(Terminated, process.pid, process.handle.kind));
      emittedExitPids := emittedExitPids + {process.pid};
      os.RecordSettled(process.pid, false);
      SettlingDisturbsNobody();
    }

    /** Marking a pid changes nothing about any process. */
    twostate lemma SettlingDisturbsNobody()
      requires old(Valid()) && procs == old(procs) && forall p :: p in procs ==> unchanged(p)
      requires unchanged(os`children) && unchanged(os`nextSerial)
      requires var m := os.log.monitor;
               m == old(os.log.monitor).(settled := m.settled, reports := m.reports)
      ensures forall p :: p in procs ==> p.Valid()
    {
      assert Inside(this);
      forall p | p in procs
        ensures p.Valid()
      {
        assert Inside(p);
      }
    }

    method StopProcess(process: Process, timeoutMs: Option<nat>)
      requires Valid() && process in procs
      modifies this`emittedExitPids, this`events, process, os
      ensures Valid() && process.IsTerminated() && WasReleased(process.handle)
      ensures emittedExitPids == old(emittedExitPids) + {process.pid} && process.pid == old(process.pid)
      ensures events == old(events) + [ProcessEvent(TerminationRequested, process.pid, process.handle.kind),
                                       ProcessEvent(Terminated, process.pid, process.handle.kind)]
      ensures os.Elapsed() && os.Patient()
      ensures process.Escalates(if timeoutMs.Some? then timeoutMs.value else 5000)
    {
      Announce(ProcessEvent(TerminationRequested, process.pid, process.handle.kind));
      End(process, if timeoutMs.Some? then timeoutMs.value else DEFAULT_STOP_TIMEOUT, true);
      MarkTerminated(process);
    }

    method StopByHandle(h: Handle, timeoutMs: Option<nat>) returns (r: Result<()>)
      requires Valid()
      modifies this`emittedExitPids, this`events, procs, os
      ensures Valid() && WasReleased(h)
      ensures r == if h in registry.byHandle then Success(()) else Failure(ProcessNotFound)
      ensures h in registry.byHandle ==>
                registry.byHandle[h].IsTerminated() && old(registry.byHandle[h].pid) in emittedExitPids
      ensures os.Elapsed() && os.Patient()
      ensures os.Dismissed(h, if timeoutMs.Some? then timeoutMs.value else 5000)
    {
      assert Inside(this);
      var found := registry.FindByHandle(h);
      match found {
        case None =>
          r := Failure(ProcessNotFound);
        case Some(process) =>
          assert Inside(process);
          StopProcess(process, timeoutMs);
          r := Success(());
      }
    }

    /** A registered process has this pid. */
    ghost predicate Knows(pid: nat)
      reads registry, registry.byHandle.Values
    {
      exists h :: h in registry.byHandle && registry.byHandle[h].pid == pid > 0
    }

    lemma OnePidOneProcess(pid: nat)
      requires Valid()
      ensures forall p, q :: p in procs && q in procs && p.pid == pid && q.pid == pid && pid > 0 ==> p == q
    {
      assert Inside(this);
      forall p | p in procs && p.pid == pid && pid > 0
        ensures pid in os.log.monitor.owner && os.log.monitor.owner[pid] == p.handle
      {
        assert Inside(p);
      }
    }

    method StopByPid(pid: nat, timeoutMs: Option<nat>) returns (r: Result<()>)
      requires Valid()
      modifies this`emittedExitPids, this`events, procs, os
      ensures Valid() && r == if old(Knows(pid)) then Success(()) else Failure(ProcessNotFound)
      ensures r.Success? ==> pid in emittedExitPids
      ensures forall h :: h in registry.byHandle && old(registry.byHandle[h].pid) == pid > 0 ==>
                            && registry.byHandle[h].IsTerminated()
                            && registry.byHandle[h].Escalates(
                                 if timeoutMs.Some? then timeoutMs.value else 5000)
      ensures r.Failure? ==> os.sent == old(os.sent)
      ensures os.Elapsed() && os.Patient()
    {
      assert Inside(this);
      OnePidOneProcess(pid);
      var found := registry.FindByPid(pid);
      match found {
        case None =>
          r := Failure(ProcessNotFound);
        case Some(process) =>
          StopProcess(process, timeoutMs);
          r := Success(());
      }
    }

    method KillProcess(pid: nat, timeoutMs: Option<nat>) returns (r: Result<()>)
      requires Valid()
      modifies this`emittedExitPids, this`events, procs, os
      ensures Valid() && r == if old(Knows(pid)) then Success(()) else Failure(ProcessNotFound)
      ensures r.Success? ==> pid in emittedExitPids
      ensures forall h :: h in registry.byHandle && old(registry.byHandle[h].pid) == pid > 0 ==>
                            registry.byHandle[h].IsTerminated() && Struck(registry.byHandle[h])
      ensures r.Failure? ==> os.sent == old(os.sent)
      ensures os.Elapsed()
    {
      assert Inside(this);
      OnePidOneProcess(pid);
      var found := registry.FindByPid(pid);
      match found {
        case None =>
          r := Failure(ProcessNotFound);
        case Some(process) =>
          End(process, if timeoutMs.Some? then timeoutMs.value else DEFAULT_KILL_TIMEOUT, false);
          MarkTerminated(process);
          r := Success(());
      }
    }

    /** Nothing can be alive once no registered process is running. */
    lemma NothingLive(all: seq<Process>)
      requires Valid() && forall h :: h in registry.byHandle ==> registry.byHandle[h] in all
      requires forall i :: 0 <= i < |all| ==> all[i].IsTerminated()
      ensures os.log.monitor.live == {}
    {
      assert Inside(this);
      forall h | h in registry.byHandle
        ensures h !in os.log.monitor.live
      {
        assert Inside(registry.byHandle[h]);
      }
    }

    /** The history went on without a start, a component's change of state, a probe, or the supervisor
        reopening. */
    twostate predicate OnlyEnded()
      reads os
    {
      && old(os.log.events) <= os.log.events && Subsided(old(os.log.monitor), os.log.monitor)
      && os.Elapsed() && old(os.sent) <= os.sent
    }

    /** No exit was reported. */
    twostate predicate NoneReported()
      reads os
    {
      os.log.monitor.reports == old(os.log.monitor.reports)
    }

    /** One pass over the processes, ending those that still run. */
    method EndRunning(all: seq<Process>, timeoutMs: nat, gently: bool)
      requires Valid() && forall i :: 0 <= i < |all| ==> all[i] in procs
      modifies this`emittedExitPids, this`events, procs, os
      ensures Valid() && OnlyEnded() && NoneReported()
      ensures forall i :: 0 <= i < |all| ==> all[i].IsTerminated()
      ensures gently || (forall i :: 0 <= i < |all| ==> old(all[i].IsTerminated())) ==> os.Patient()
      ensures gently ==> forall i :: 0 <= i < |all| && old(all[i].IsRunning()) ==>
                                       Requested(os.sent, |old(os.sent)|, old(all[i].pid), timeoutMs)
    {
      for k := 0 to |all|
        invariant Valid() && OnlyEnded() && NoneReported()
        invariant forall i :: 0 <= i < k ==> all[i].IsTerminated()
        invariant gently || (forall i :: 0 <= i < |all| ==> old(all[i].IsTerminated())) ==> os.Patient()
        invariant forall i :: 0 <= i < |all| && old(all[i].IsTerminated()) ==> all[i].IsTerminated()
        invariant gently ==> forall i :: 0 <= i < |all| && old(all[i].IsRunning()) ==>
                    (all[i].IsRunning() && all[i].pid == old(all[i].pid))
                    || Requested(os.sent, |old(os.sent)|, old(all[i].pid), timeoutMs)
      {
        if all[k].IsRunning() {
          EndOne(all, k, timeoutMs, gently, |old(os.sent)|);
        } else {
          NotRunning(all[k]);
        }
      }
    }

    lemma NotRunning(process: Process)
      requires Valid() && process in procs && !process.IsRunning()
      ensures process.IsTerminated()
    {
      assert Inside(this);
      assert Inside(process);
    }

    method EndOne(all: seq<Process>, k: nat, timeoutMs: nat, gently: bool, ghost first: nat)
      requires Valid() && k < |all| && all[k] in procs && all[k].IsRunning() && first <= |os.sent|
      modifies this`emittedExitPids, this`events, all[k], os
      ensures Valid() && all[k].IsTerminated() && OnlyEnded() && NoneReported()
      ensures gently ==> os.Patient() && Requested(os.sent, first, old(all[k].pid), timeoutMs)
      ensures forall i :: 0 <= i < |all| && old(Requested(os.sent, first, all[i].pid, timeoutMs)) ==>
                            Requested(os.sent, first, old(all[i].pid), timeoutMs)
    {
      var process := all[k];
      assert process.state == ProcRunning by {
        assert Inside(this) && Inside(process);
      }
      if gently {
        StopProcess(process, Some(timeoutMs));
        EscalationAsks(old(os.sent), os.sent, process.pid, old(os.now), timeoutMs);
      } else {
        End(process, timeoutMs, false);
      }
      AllRequestedStill(old(os.sent), os.sent, first);
    }

    method BeginShutdown()
      requires Valid()
      modifies this`shuttingDown, os`log
      ensures Valid() && shuttingDown && os.log == Extend(old(os.log), ShutDown)
    {
      assert Inside(this);
      shuttingDown := true;
      os.RecordOpen(false);
      OthersIdledTwoCases(os.children, Handle(Weston, 0), Child(0, Reaped));
      Kept();
    }

    /** Time passing, deaths not yet noticed and component events do not disturb the supervisor. */
    twostate lemma Kept()
      requires old(Valid()) && os.Valid() && os.log.monitor.isOpen == !shuttingDown
      requires unchanged(registry) && procs == old(procs) && forall p :: p in procs ==> unchanged(p)
      requires events == old(events) && emittedExitPids == old(emittedExitPids)
      requires Idled(old(os.children), os.children) && os.log.monitor.live == old(os.log.monitor.live)
      requires os.log.monitor.ended == old(os.log.monitor.ended) && os.log.monitor.owner == old(os.log.monitor.owner)
      requires os.log.monitor.born == old(os.log.monitor.born)
      requires os.log.monitor.settled == old(os.log.monitor.settled)
      requires os.nextSerial >= old(os.nextSerial)
      ensures Valid()
    {
      assert Inside(this);
      forall p | p in procs
        ensures p.Valid()
      {
        assert Inside(p);
      }
    }

    /** A question to the system changes nothing here. */
    twostate lemma Asked()
      requires old(Valid()) && unchanged(this) && unchanged(registry) && forall p :: p in procs ==> unchanged(p)
      requires os.Valid() && unchanged(os`children) && unchanged(os`log) && unchanged(os`nextSerial)
      ensures Valid()
    {
      OthersIdledTwoCases(os.children, Handle(Weston, 0), Child(0, Reaped));
      SameChildren(os.children);
      assert os.log.monitor.isOpen == !shuttingDown by {
        assert Inside(this);
      }
      Kept();
    }

    /** A component changed state. */
    ghost method Note(kind: Kind, state: ComponentState)
      requires Valid() && Allowed(os.log.monitor, Entered(kind, state))
      modifies os`log
      ensures Valid() && os.log == Extend(old(os.log), Entered(kind, state))
    {
      OsIsValid();
      os.RecordEntered(kind, state);
      SameChildren(os.children);
      Kept();
    }

    /** A component let go of the supervisor. */
    ghost method NoteOrphaned(kind: Kind)
      requires Valid()
      modifies os`log
      ensures Valid() && os.log == Extend(old(os.log), Orphaned(kind))
    {
      OsIsValid();
      os.RecordOrphaned(kind);
      SameChildren(os.children);
      Kept();
    }

    lemma OsIsValid()
      requires Valid()
      ensures os.Valid() && os.log.monitor.isOpen == !shuttingDown
    {
      assert Inside(this);
    }

    method ClearRegistry()
      requires Valid() && os.log.monitor.live == {}
      modifies registry
      ensures Valid() && registry.byHandle == map[]
    {
      assert Inside(this);
      forall p | p in procs
        ensures p.IsTerminated()
      {
        assert Inside(p);
      }
      registry.Clear();
    }

    /** A gentle pass and then a forced one. */
    method EndAll(all: seq<Process>, stopTimeoutMs: Option<nat>, killTimeoutMs: Option<nat>)
      requires Valid() && forall i :: 0 <= i < |all| ==> all[i] in procs
      modifies this`emittedExitPids, this`events, procs, os
      ensures Valid() && OnlyEnded() && NoneReported()
      ensures forall i :: 0 <= i < |all| ==> all[i].IsTerminated()
      ensures os.Patient()
      ensures forall i :: 0 <= i < |all| && old(all[i].IsRunning()) ==>
                Requested(os.sent, |old(os.sent)|, old(all[i].pid),
                  if stopTimeoutMs.Some? then stopTimeoutMs.value else 5000)
    {
      EndRunning(all, if stopTimeoutMs.Some? then stopTimeoutMs.value else DEFAULT_STOP_TIMEOUT, true);
      ghost var sent := os.sent;
      EndRunning(all, if killTimeoutMs.Some? then killTimeoutMs.value else DEFAULT_KILL_TIMEOUT, false);
      AllRequestedStill(sent, os.sent, |old(os.sent)|);
    }

    /** Ends every registered process, gently if possible, and empties the table. */
    method StopAll(stopTimeoutMs: Option<nat>, killTimeoutMs: Option<nat>)
      requires Valid()
      modifies this`shuttingDown, this`emittedExitPids, this`events, registry, procs, os
      ensures Valid() && shuttingDown && registry.byHandle == map[] && os.log.monitor.live == {}
      ensures Extend(old(os.log), ShutDown).events <= os.log.events && !os.log.monitor.isOpen
      ensures Subsided(old(os.log.monitor).(isOpen := false), os.log.monitor) && NoneReported()
      ensures forall h :: h in old(registry.byHandle) ==> old(registry.byHandle)[h].IsTerminated()
      ensures os.Elapsed() && os.Patient()
      ensures forall h :: h in old(registry.byHandle) && old(registry.byHandle[h].IsRunning()) ==>
                Requested(os.sent, |old(os.sent)|, old(registry.byHandle[h].pid),
                  if stopTimeoutMs.Some? then stopTimeoutMs.value else 5000)
    {
      Close(stopTimeoutMs, killTimeoutMs);
      ClearRegistry();
    }

    /** Refuses starts and ends what runs; the table is left as it is. */
    method Close(stopTimeoutMs: Option<nat>, killTimeoutMs: Option<nat>)
      requires Valid()
      modifies this`shuttingDown, this`emittedExitPids, this`events, procs, os
      ensures Valid() && shuttingDown && os.log.monitor.live == {}
      ensures Extend(old(os.log), ShutDown).events <= os.log.events && !os.log.monitor.isOpen
      ensures Subsided(old(os.log.monitor).(isOpen := false), os.log.monitor) && NoneReported()
      ensures forall h :: h in registry.byHandle ==> registry.byHandle[h].IsTerminated()
      ensures os.Elapsed() && os.Patient()
      ensures forall h :: h in registry.byHandle && old(registry.byHandle[h].IsRunning()) ==>
                Requested(os.sent, |old(os.sent)|, old(registry.byHandle[h].pid),
                  if stopTimeoutMs.Some? then stopTimeoutMs.value else 5000)
    {
      BeginShutdown();
      EndRegistered(stopTimeoutMs, killTimeoutMs);
    }

    method EndRegistered(stopTimeoutMs: Option<nat>, killTimeoutMs: Option<nat>)
      requires Valid()
      modifies this`emittedExitPids, this`events, procs, os
      ensures Valid() && OnlyEnded() && NoneReported() && os.Patient() && os.log.monitor.live == {}
      ensures forall h :: h in registry.byHandle ==> registry.byHandle[h].IsTerminated()
      ensures forall h :: h in registry.byHandle && old(registry.byHandle[h].IsRunning()) ==>
                Requested(os.sent, |old(os.sent)|, old(registry.byHandle[h].pid),
                  if stopTimeoutMs.Some? then stopTimeoutMs.value else 5000)
    {
      assert Inside(this);
      var all := registry.AllProcesses();
      if |all| > 0 {
        EndAll(all, stopTimeoutMs, killTimeoutMs);
      }
      NothingLive(all);
    }

    /** Forgets everything; used once all processes were stopped. */
    method Reset()
      requires Valid() && os.log.monitor.live == {}
      modifies this`shuttingDown, this`emittedExitPids, this`events, registry, os`log
      ensures Valid() && !shuttingDown && registry.byHandle == map[] && emittedExitPids == {} && events == []
      ensures os.log == Extend(old(os.log), Reopened)
    {
      ClearRegistry();
      Reopen();
    }

    method Reopen()
      requires Valid()
      modifies this`shuttingDown, this`emittedExitPids, this`events, os`log
      ensures Valid() && !shuttingDown && emittedExitPids == {} && events == []
      ensures os.log == Extend(old(os.log), Reopened)
    {
      assert Inside(this);
      shuttingDown, emittedExitPids, events := false, {}, [];
      os.RecordOpen(true);
      forall p | p in procs
        ensures p.Valid()
      {
        assert Inside(p);
      }
    }

    /** The process has died, whether or not that was noticed yet. */
    ghost predicate Gone(process: Process)
      reads process, os
    {
      process.pid > 0 && process.handle in os.dead
    }

    /** A process that died keeps the pid it was started with. */
    lemma PidForGood(process: Process)
      requires Valid() && process in procs && process.handle in os.dead
      ensures Gone(process) && process.handle in os.log.monitor.born
      ensures os.log.monitor.born[process.handle].pid == process.pid
    {
      assert Inside(this) && Inside(os) && Inside(process);
    }

    /** One step of a reap pass: reports the process if it died and was not reported or ended before. */
    method ReapOne(process: Process) returns (event: Option<ProcessEvent>)
      requires Valid() && process in procs
      modifies this`emittedExitPids, this`events, process, os`children, os`dead, os`log
      ensures Valid() && OnlyEnded() && old(emittedExitPids) <= emittedExitPids
      ensures event.Some? ==>
                && IsExit(event.value) && event.value.pid == process.pid > 0
                && process.pid !in old(emittedExitPids) && emittedExitPids == old(emittedExitPids) + {process.pid}
                && event.value.kind == process.handle.kind && events == old(events) + [event.value]
                && DeadPid(os.log.monitor, process.pid)
      ensures event.Some? ==>
                && process.exitInfo.Some?
                && event.value.eventType == if process.exitInfo.value.signaled then Signaled else Exited
      ensures event.None? ==> events == old(events) && emittedExitPids == old(emittedExitPids)
      ensures os.log.monitor.reports == old(os.log.monitor.reports) + if event.Some? then [event.value.pid] else []
      ensures process.pid == old(process.pid) && (old(Gone(process)) ==> process.pid in emittedExitPids)
    {
      if process.pid == 0 {
        return None;
      }
      if process.pid in emittedExitPids {
        return None;
      }
      var info := PollProcess(process);
      if info.None? {
        return None;
      }
      var e := ProcessEvent(if info.value.signaled then Signaled else Exited, process.pid, process.handle.kind);
      MarkExited(e);
      event := Some(e);
    }

    method PollProcess(process: Process) returns (info: Option<ExitInfo>)
      requires Valid() && process in procs
      modifies process, os`children, os`dead, os`log
      ensures Valid() && OnlyEnded() && NoneReported() && process.pid == old(process.pid)
      ensures os.log.monitor.settled == old(os.log.monitor.settled)
      ensures info.Some? ==> DeadPid(os.log.monitor, process.pid)
      ensures old(Gone(process)) ==> info.Some?
      ensures info == process.exitInfo
      ensures emittedExitPids == os.log.monitor.settled
    {
      IsSound(process);
      assert Inside(process);
      info := process.Poll();
      assert Inside(process);
      Resumed(process);
    }

    method MarkExited(e: ProcessEvent)
      requires Valid() && IsExit(e) && e.pid !in emittedExitPids && Allowed(os.log.monitor, Settled(e.pid, true))
      modifies this`emittedExitPids, this`events, os`log
      ensures Valid() && emittedExitPids == old(emittedExitPids) + {e.pid} && events == old(events) + [e]
      ensures os.log == Extend(old(os.log), Settled(e.pid, true))
    {
      assert Inside(this);
      Emit(e);
      emittedExitPids := emittedExitPids + {e.pid};
      os.RecordSettled(e.pid, true);
      SettlingDisturbsNobody();
    }

    method ListAll() returns (all: seq<Process>)
      requires Valid()
      ensures forall i :: 0 <= i < |all| ==> all[i] in procs
      ensures forall h :: h in registry.byHandle ==> registry.byHandle[h] in all && registry.byHandle[h].handle == h
      ensures forall i, j :: 0 <= i < j < |all| ==> all[i] != all[j]
    {
      assert Inside(this);
      all := registry.AllProcesses();
    }
  }
}
