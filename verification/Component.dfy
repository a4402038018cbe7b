/** A component manager: the compositor's and the desktop's are the same machine over different tables. */
module Components {
  import opened Focus
  import opened Results
  import opened Transitions
  import opened Trace
  import opened Probes
  import opened OperatingSystem
  import opened Environment
  import opened Processes
  import opened Supervisor
  import R = Readiness

  datatype Settings = Settings(
    mode: R.Mode, environment: map<string, string>, readyTimeoutMs: nat, stopTimeoutMs: nat)

  /** LDDE may start only on a running Weston, if one is attached. */
  predicate CompositorUp(m: Monitor, kind: Kind) {
    kind == Ldde && Weston in m.states ==> m.states[Weston] == Running
  }

  /** Weston leaves Running or Failed only when no LDDE process is alive. */
  predicate DesktopDown(m: Monitor, kind: Kind) {
    kind == Weston ==> NoneLive(m, Ldde)
  }

  /** An operation on a component leaves alone what the start order asks for it. */
  lemma OrderStill(before: Monitor, after: Monitor, kind: Kind)
    requires OthersKept(before, after, kind)
    ensures CompositorUp(before, kind) ==> CompositorUp(after, kind)
    ensures DesktopDown(before, kind) ==> DesktopDown(after, kind)
  {
    assert Apart(kind);
  }

  /** This process was given the base environment overridden by the variables of its own. */
  ghost predicate EquippedWith(m: Monitor, h: Handle, base: seq<string>, own: map<string, string>) {
    h in m.born && Lists(EnvironmentOf(m, h), Rebuild(base) + own)
  }

  class Component {
    const kind: Kind
    const settings: Settings
    const os: Os
    const supervisor: ProcessSupervisor
    var attached: bool             // the supervisor pointer is set
    var state: ComponentState
    var handle: Option<Handle>
    var pid: nat                   // of the process last started, until stopped or reset

    /** Holds between operations: a living process of this kind is the one of a running component. */
    ghost predicate Valid()
      reads this, os
    {
      forall c {:trigger Inside(c)} :: c == this ==>
        && Facts() && Quiet() && Abreast()
        && (state != Running ==> NoneLive(os.log.monitor, kind))
    }

    /** A running component that lost its process has been told, is about to be told, or had it ended by a
        shutdown of the supervisor. */
    ghost predicate Abreast()
      reads this, os
    {
      state == Running ==>
        var m := os.log.monitor;
        if handle.None? then CrewOf(m, kind) == {} else m.isOpen && pid in m.settled ==> pid in m.reports
    }

    ghost predicate Quiet()
      reads this
    {
      state != Starting && state != WaitingReady && state != Stopping
    }

    /** Holds at every step. */
    ghost predicate Facts()
      reads this, os
    {
      && supervisor.os == os
      && kind in os.log.monitor.states && os.log.monitor.states[kind] == state
      && (forall h: Handle :: h in os.log.monitor.live && h.kind == kind ==> handle == Some(h))
      && (state == Running && handle.Some? ==> CrewOf(os.log.monitor, kind) == {handle.value})
      && (pid > 0 <==> handle.Some?) && (handle.Some? ==> attached)
      && (handle.Some? ==>
            && pid in os.log.monitor.owner && os.log.monitor.owner[pid] == handle.value && handle.value.kind == kind
            && handle.value in os.log.monitor.born && os.log.monitor.born[handle.value].pid == pid)
    }

    /** A new manager, in a history that knows nothing of its kind yet. */
    constructor (supervisor: ProcessSupervisor, kind: Kind, settings: Settings)
      requires supervisor.Valid() && Allowed(supervisor.os.log.monitor, Entered(kind, Created))
      requires NoneLive(supervisor.os.log.monitor, kind)
      modifies supervisor.os`log
      ensures Valid() && supervisor.Valid() && state == Created && !attached
      ensures this.supervisor == supervisor && this.os == supervisor.os
      ensures this.kind == kind && this.settings == settings
      ensures os.log == Extend(old(supervisor.os.log), Entered(kind, Created))
    {
      this.kind, this.settings, this.os, this.supervisor := kind, settings, supervisor.os, supervisor;
      attached, state, handle, pid := false, Created, None, 0;
      new;
      supervisor.Note(kind, Created);
      assert Inside(this);
    }

    /** What every operation keeps; none but the two that take the supervisor registers a listener. */
    twostate predicate Only()
      reads this, os, supervisor
    {
      Moved() && supervisor.listeners == old(supervisor.listeners)
    }

    twostate predicate Moved()
      reads this, os, supervisor
    {
      && old(os.log.events) <= os.log.events && OthersKept(old(os.log.monitor), os.log.monitor, kind)
      && os.log.monitor.reports == old(os.log.monitor.reports)
      && os.Elapsed() && os.Patient()
      && supervisor.baseEnvironment == old(supervisor.baseEnvironment)
      && supervisor.shuttingDown == old(supervisor.shuttingDown) && supervisor.Grew()
    }

    /** The component has a living process of its kind. */
    ghost predicate Served()
      reads this, os
    {
      handle.Some? && handle.value.kind == kind && handle.value in os.log.monitor.live
    }

    /** The last look at the component's process showed it ready. */
    ghost predicate Answered()
      reads this, os
    {
      pid in os.log.monitor.looks && StatusOf(os.log.monitor.looks[pid]) == Ready
    }

    /** The process was given the supervisor's base environment overridden by the component's settings. */
    ghost predicate Equipped()
      reads this, os, supervisor
    {
      handle.Some? && EquippedWith(os.log.monitor, handle.value, supervisor.baseEnvironment, settings.environment)
    }

    /** The component's process, if it was alive, was asked to end at once and killed only after its grace
        period; nobody else got a signal. */
    twostate predicate Dismissed(graceMs: nat)
      reads this, os
    {
      if old(handle).Some? then os.Dismissed(old(handle).value, graceMs) else os.sent == old(os.sent)
    }

    /** What a start saw of its process until its time was over. */
    twostate predicate Waited(r: Result<()>, looks: seq<Seen>)
      reads this, os
    {
      R.Waited(r, looks, old(os.now), |old(os.log.events)|, os.log.events, pid, settings.readyTimeoutMs, kind,
        settings.mode)
    }

    predicate IsRunning()
      reads this
    {
      state == Running
    }

    /** The milestones this operation added. */
    twostate predicate Reached(more: seq<Milestone>)
      reads os
    {
      os.log.monitor.milestones == old(os.log.monitor.milestones) + more
    }

    /** The component is not disturbed by operations on another one. */
    twostate lemma Undisturbed(other: Kind)
      requires old(Valid()) && unchanged(this) && other != kind
      requires OthersKept(old(os.log.monitor), os.log.monitor, other)
      ensures Valid()
    {
      assert Inside(this) && Apart(other);
    }

    /** A component does not return to a process that has ended. */
    twostate lemma StaysAway(gone: nat)
      requires old(Valid()) && Valid() && old(os.log.events) <= os.log.events && DeadPid(old(os.log.monitor), gone)
      requires old(state != Running || pid != gone)
      ensures state != Running || pid != gone || gone == 0
    {
      assert Inside(this);
      HistoryKeeps(old(os.log), os.log);
      if state == Running && pid == gone > 0 {
        NoReturnToTheDead(old(os.log), os.log, kind, handle.value);
      }
    }

    /** Makes the transition if the table has it. */
    method TransitionTo(target: ComponentState) returns (r: Result<()>)
      requires supervisor.Valid() && Facts() && MayEnter(os.log.monitor, kind, target)
      modifies this`state, os`log
      ensures supervisor.Valid() && Facts() && Only()
      ensures r.Success? <==> IsValidComponentTransition(kind, old(state), target)
      ensures state == if r.Success? then target else old(state)
      ensures os.log == if r.Success? then Extend(old(os.log), Entered(kind, target)) else old(os.log)
    {
      if !IsValidComponentTransition(kind, state, target) {
        return Failure(ComponentInvalidState);
      }
      Enter(target);
      r := Success(());
    }

    method Enter(target: ComponentState)
      requires supervisor.Valid() && Facts()
      requires Allowed(os.log.monitor, Entered(kind, target))
      modifies this`state, os`log
      ensures supervisor.Valid() && Facts() && Only()
      ensures state == target && os.log == Extend(old(os.log), Entered(kind, target))
    {
      EntryKeepsOthers(os.log.monitor, kind, target);
      state := target;
      supervisor.Note(kind, target);
    }

    /** Takes the supervisor and listens to it, once more if it did already. */
    method SetSupervisor()
      requires supervisor.Valid() && Valid()
      modifies this`attached, supervisor`listeners
      ensures supervisor.Valid() && Valid() && attached
      ensures supervisor.listeners == old(supervisor.listeners) + [ManagerListener(kind)]
    {
      assert Inside(this);
      attached := true;
      supervisor.RegisterListener(ManagerListener(kind));
    }

    /** The supervisor was replaced: nothing of the old one can be reached any more. */
    method Detach()
      requires supervisor.Valid() && Valid() && NoneLive(os.log.monitor, kind)
      modifies this`attached, this`handle, this`pid, os`log
      ensures supervisor.Valid() && Valid() && Only() && !attached && handle == None && pid == 0
      ensures os.log == Extend(old(os.log), Orphaned(kind)) && state == old(state)
    {
      assert Inside(this);
      OrphanKeepsOthers(os.log.monitor, kind);
      attached, handle, pid := false, None, 0;
      supervisor.NoteOrphaned(kind);
    }

    /** Takes the supervisor from the context, listens to it and resolves the executable. */
    method Initialize() returns (r: Result<()>)
      requires supervisor.Valid() && Valid() && NoneLive(os.log.monitor, kind)
      modifies this`attached, this`state, supervisor`listeners, os`log, os`refusals, os`answers
      ensures supervisor.Valid() && Valid() && Moved() && attached
      ensures supervisor.listeners == old(supervisor.listeners) + [ManagerListener(kind)]
      ensures r.Failure? ==> os.refusals > old(os.refusals)
      ensures os.answers == old(os.answers) + [r.Success?]
      ensures Reached([])
      ensures r.Success? ==> state == old(state) && os.log == old(os.log)
      ensures r.Failure? ==>
                r.code == ComponentExecutableNotFound && state == if old(state) == Stopped then Stopped else Failed
      ensures os.log.monitor.live == old(os.log.monitor.live)
    {
      SetSupervisor();
      AtRest();
      r := Resolve();
      Settle();
    }

    /** Looks for the executable. */
    method Resolve() returns (r: Result<()>)
      requires supervisor.Valid() && Facts() && Quiet() && NoneLive(os.log.monitor, kind)
      modifies this`state, os`log, os`refusals, os`answers
      ensures supervisor.Valid() && Facts() && Quiet() && Only() && os.log.monitor.live == old(os.log.monitor.live)
      ensures Reached([])
      ensures r.Success? ==> state == old(state) && os.log == old(os.log)
      ensures r.Failure? ==>
                r.code == ComponentExecutableNotFound && state == if old(state) == Stopped then Stopped else Failed
      ensures state == Running ==> os.log == old(os.log)
      ensures r.Failure? ==> os.refusals > old(os.refusals)
      ensures os.answers == old(os.answers) + [r.Success?]
    {
      var resolved := AskSystem();
      if resolved {
        r := Success(());
      } else {
        var _ := TransitionTo(Failed);
        r := Failure(ComponentExecutableNotFound);
      }
    }

    /** One question to the system. */
    method AskSystem() returns (answer: bool)
      requires supervisor.Valid() && Facts()
      modifies os`refusals, os`answers
      ensures supervisor.Valid() && Facts() && Only() && os.answers == old(os.answers) + [answer]
      ensures os.refusals == old(os.refusals) + if answer then 0 else 1
    {
      supervisor.OsIsValid();
      answer := os.Ask();
      supervisor.Asked();
    }

    /** Directories, stale sockets, generated configuration and the process description. */
    method Prepare() returns (r: Result<()>)
      requires supervisor.Valid() && Valid()
      requires state == Created ==> DesktopDown(os.log.monitor, kind)
      modifies this`state, os`log, os`refusals, os`answers
      ensures supervisor.Valid() && Valid() && Only() && os.log.monitor.live == old(os.log.monitor.live)
      ensures Reached([])
      ensures os.answers == old(os.answers) + if old(state) in {Created, Preparing} then [r.Success?] else []
      ensures r.Failure? && (old(state) == Created || old(state) == Preparing) ==>
                os.refusals > old(os.refusals) && r.code == ComponentPrepareFailed
      ensures old(state) != Created && old(state) != Preparing ==>
                r == Failure(ComponentInvalidState) && state == old(state) && os.log == old(os.log)
      ensures old(state) == Created || old(state) == Preparing ==>
                state == if r.Success? then Preparing else Failed
    {
      if state != Created && state != Preparing {
        r := Failure(ComponentInvalidState);
      } else {
        r := PrepareNow();
      }
    }

    method PrepareNow() returns (r: Result<()>)
      requires supervisor.Valid() && Valid() && (state == Created || state == Preparing)
      requires state == Created ==> DesktopDown(os.log.monitor, kind)
      modifies this`state, os`log, os`refusals, os`answers
      ensures supervisor.Valid() && Valid() && Only() && os.log.monitor.live == old(os.log.monitor.live)
      ensures Reached([])
      ensures os.answers == old(os.answers) + [r.Success?]
      ensures r.Failure? ==> os.refusals > old(os.refusals) && r.code == ComponentPrepareFailed
      ensures state == if r.Success? then Preparing else Failed
    {
      AtRest();
      BeginPreparing();
      ghost var between := os.log.monitor;
      r := Provide();
      OthersKeptTrans(old(os.log.monitor), between, os.log.monitor, kind);
    }

    method BeginPreparing()
      requires supervisor.Valid() && Facts() && (state == Created || state == Preparing)
      requires state == Created ==> DesktopDown(os.log.monitor, kind)
      modifies this`state, os`log
      ensures supervisor.Valid() && Facts() && Only() && os.log.monitor.live == old(os.log.monitor.live)
      ensures Reached([]) && state == Preparing
    {
      if state == Created {
        var _ := TransitionTo(Preparing);
      }
    }

    method Provide() returns (r: Result<()>)
      requires supervisor.Valid() && Facts() && state == Preparing && NoneLive(os.log.monitor, kind)
      modifies this`state, os`log, os`refusals, os`answers
      ensures supervisor.Valid() && Valid() && Only() && os.log.monitor.live == old(os.log.monitor.live)
      ensures Reached([])
      ensures state == if r.Success? then Preparing else Failed
      ensures os.answers == old(os.answers) + [r.Success?]
      ensures r.Failure? ==> os.refusals > old(os.refusals) && r.code == ComponentPrepareFailed
    {
      var provided := AskSystem();
      if provided {
        r := Success(());
      } else {
        var _ := TransitionTo(Failed);
        r := Failure(ComponentPrepareFailed);
      }
      Settle();
    }

    /** Starts the process; on success its handle and pid are kept. */
    method Spawn() returns (r: Result<()>)
      requires supervisor.Valid() && Facts() && state == Starting && attached && NoneLive(os.log.monitor, kind)
      requires CompositorUp(os.log.monitor, kind) && DesktopDown(os.log.monitor, kind)
      modifies this`state, this`handle, this`pid, supervisor, supervisor.registry, os, supervisor.procs
      ensures supervisor.Valid() && Facts() && Only()
      ensures Reached([])
      ensures state == if r.Success? then WaitingReady else Failed
      ensures r.Success? ==> Served() && Equipped() && !supervisor.shuttingDown
      ensures r.Failure? ==> NoneLive(os.log.monitor, kind) && Hindered() && r.code == ComponentSpawnFailed
    {
      var started := Fork();
      ghost var between := os.log.monitor;
      OrderStill(old(os.log.monitor), between, kind);
      if started {
        var _ := TransitionTo(WaitingReady);
        r := Success(());
      } else {
        var _ := TransitionTo(Failed);
        r := Failure(ComponentSpawnFailed);
      }
      OthersKeptTrans(old(os.log.monitor), between, os.log.monitor, kind);
    }

    method Fork() returns (started: bool)
      requires supervisor.Valid() && Facts() && state == Starting && attached && NoneLive(os.log.monitor, kind)
      requires CompositorUp(os.log.monitor, kind) && DesktopDown(os.log.monitor, kind)
      modifies this`handle, this`pid, supervisor, supervisor.registry, os, supervisor.procs
      ensures supervisor.Valid() && Facts() && Only()
      ensures Reached([])
      ensures started ==> Served() && Equipped() && !supervisor.shuttingDown
      ensures !started ==> os.log == old(os.log) && Hindered()
    {
      var spawned := supervisor.StartProcess(
        ProcessSpec(kind, settings.environment, settings.stopTimeoutMs, DEFAULT_KILL_TIMEOUT));
      if spawned.Success? {
        handle, pid := Some(spawned.value.handle), spawned.value.pid;
        SpawnKeepsOthers(old(os.log.monitor), handle.value, pid, EnvironmentOf(os.log.monitor, handle.value));
      }
      started := spawned.Success?;
    }

    /** Waits for readiness; a component that does not become ready is stopped. */
    method AwaitReady() returns (r: Result<()>, ghost looks: seq<Seen>)
      requires supervisor.Valid() && Facts() && state == WaitingReady && Served() && Equipped()
      modifies this`state, supervisor, os, supervisor.procs
      ensures supervisor.Valid() && Facts() && Only()
      ensures Reached(if r.Success? then [Milestone(kind, Running)] else [])
      ensures state == if r.Success? then Running else Failed
      ensures r.Failure? ==> NoneLive(os.log.monitor, kind) && Hindered()
      ensures r.Success? ==> Served() && Answered() && Equipped()
      ensures looks != [] && Waited(r, looks)
    {
      r, looks := Watch(settings.readyTimeoutMs);
      ghost var log, between := os.log, os.log.monitor;
      if r.Failure? {
        Abandon();
      } else {
        assert ProvenBy(os.log.monitor, kind, pid);
        var _ := TransitionTo(Running);
      }
      OthersKeptTrans(old(os.log.monitor), between, os.log.monitor, kind);
      R.WaitIsOver(old(os.log), log, os.log, r, looks, old(os.now), pid, settings.readyTimeoutMs, kind, settings.mode);
    }

    /** The component failed: its process is stopped, its handle kept. */
    method Abandon()
      requires supervisor.Valid() && Facts() && state == WaitingReady && handle.Some?
      modifies this`state, supervisor, os, supervisor.procs
      ensures supervisor.Valid() && Facts() && Only() && state == Failed && NoneLive(os.log.monitor, kind)
      ensures Reached([]) && Dismissed(1000)
    {
      var _ := TransitionTo(Failed);
      ghost var between := os.log.monitor;
      EndProcess(1000);
      OthersKeptTrans(old(os.log.monitor), between, os.log.monitor, kind);
    }

    /** Polls until ready, failed or timed out; the history gains these looks and nothing else. */
    method Watch(timeoutMs: nat) returns (r: Result<()>, ghost looks: seq<Seen>)
      requires supervisor.Valid() && Facts()
      modifies os`now, os`children, os`dead, os`log, os`refusals
      ensures supervisor.Valid() && Facts() && Only() && OnlyLooked(old(os.log.monitor), os.log.monitor, pid)
      ensures R.Polled(old(os.log), os.log, pid, looks) && looks != []
      ensures R.Judged(r, looks, old(os.now), timeoutMs) && R.AllFit(kind, settings.mode, looks)
      ensures r.Success? ==> R.ShowsReady(kind, settings.mode, looks[|looks| - 1].look)
      ensures |looks| <= R.CeilDiv(timeoutMs, 20) + 1
      ensures r.Failure? ==> os.refusals > old(os.refusals)
      ensures r.Success? ==> Answered()
    {
      supervisor.OsIsValid();
      r, looks := R.WaitForReadiness(os, kind, settings.mode, pid, timeoutMs, R.POLL_INTERVAL);
      LooksKeepOthers(old(os.log.monitor), os.log.monitor, pid, kind);
      supervisor.Kept();
    }

    /** Ends the process of this component. */
    method EndProcess(timeoutMs: nat)
      requires supervisor.Valid() && Facts() && handle.Some?
      modifies supervisor, os, supervisor.procs
      ensures supervisor.Valid() && Facts() && Only() && NoneLive(os.log.monitor, kind)
      ensures Reached([]) && Dismissed(timeoutMs)
    {
      ghost var before := os.log.monitor;
      var _ := supervisor.StopByHandle(handle.value, Some(timeoutMs));
      ReleaseKeepsOthers(before, os.log.monitor, handle.value);
    }

    /** From Created or Preparing to Running, or to Failed with nothing left alive. */
    method Start() returns (r: Result<()>, ghost looks: seq<Seen>)
      requires supervisor.Valid() && Valid() && CompositorUp(os.log.monitor, kind)
      modifies this`state, this`handle, this`pid, supervisor, supervisor.registry, os, supervisor.procs
      ensures supervisor.Valid() && Valid() && Only()
      ensures Reached(if r.Success? then [Milestone(kind, Running)] else [])
      ensures old(state) != Created && old(state) != Preparing ==>
                r.Failure? && state == old(state) && os.log == old(os.log)
      ensures old(state) == Created || old(state) == Preparing ==> state == if r.Success? then Running else Failed
      ensures r.Success? ==> old(attached) && !supervisor.shuttingDown && DesktopDown(os.log.monitor, kind)
      ensures r.Success? ==> Served() && Answered() && Equipped()
      ensures r.Failure? && (old(state) == Created || old(state) == Preparing) ==> !old(attached) || Hindered()
      ensures Waited(r, looks)
      ensures r.Success? ==> looks != [] && R.ShowsReady(kind, settings.mode, looks[|looks| - 1].look)
    {
      if state == Created {
        AtRest();
        NoDesktopYet();
        r, looks := PrepareAndStart();
        OrderStill(old(os.log.monitor), os.log.monitor, kind);
      } else if state != Preparing {
        r, looks := Failure(ComponentInvalidState), [];
      } else {
        AtRest();
        NoDesktopYet();
        r, looks := StartPrepared();
        OrderStill(old(os.log.monitor), os.log.monitor, kind);
      }
      if r.Success? {
        R.WaitedShows(r, looks, old(os.now), |old(os.log.events)|, os.log.events, pid, settings.readyTimeoutMs, kind,
          settings.mode);
      }
    }

    /** The supervisor accepts no starts, or the system refused something. */
    twostate predicate Hindered()
      reads os, supervisor
    {
      supervisor.shuttingDown || os.refusals > old(os.refusals)
    }

    method PrepareAndStart() returns (r: Result<()>, ghost looks: seq<Seen>)
      requires supervisor.Valid() && Valid() && state == Created
      requires CompositorUp(os.log.monitor, kind) && DesktopDown(os.log.monitor, kind)
      modifies this`state, this`handle, this`pid, supervisor, supervisor.registry, os, supervisor.procs
      ensures supervisor.Valid() && Valid() && Only()
      ensures Reached(if r.Success? then [Milestone(kind, Running)] else [])
      ensures state == if r.Success? then Running else Failed
      ensures r.Success? ==> old(attached) && !supervisor.shuttingDown
      ensures r.Success? ==> Served() && Answered() && Equipped()
      ensures r.Failure? ==> !old(attached) || Hindered()
      ensures Waited(r, looks)
    {
      looks := [];
      r := PrepareFirst();
      if r.Success? {
        ghost var between, since, first := os.log.monitor, os.now, |os.log.events|;
        r, looks := StartPrepared();
        R.WaitedSince(r, looks, since, first, os.log.events, pid, settings.readyTimeoutMs, kind,
          settings.mode, old(os.now), |old(os.log.events)|);
        OthersKeptTrans(old(os.log.monitor), between, os.log.monitor, kind);
      }
    }

    method PrepareFirst() returns (r: Result<()>)
      requires supervisor.Valid() && Valid() && state == Created
      requires CompositorUp(os.log.monitor, kind) && DesktopDown(os.log.monitor, kind)
      modifies this`state, os`log, os`refusals, os`answers
      ensures supervisor.Valid() && Valid() && Only() && Reached([])
      ensures CompositorUp(os.log.monitor, kind) && DesktopDown(os.log.monitor, kind)
      ensures state == if r.Success? then Preparing else Failed
      ensures r.Failure? ==> os.refusals > old(os.refusals) && r.code == ComponentPrepareFailed
    {
      r := Prepare();
      OrderStill(old(os.log.monitor), os.log.monitor, kind);
    }

    /** While Weston is not up no LDDE process can be alive. */
    lemma NoDesktopYet()
      requires Facts() && state != Running && state != Failed
      ensures DesktopDown(os.log.monitor, kind)
    {
      SeenOrder(os.log, |os.log.events|);
    }

    method StartPrepared() returns (r: Result<()>, ghost looks: seq<Seen>)
      requires supervisor.Valid() && Valid() && state == Preparing
      requires CompositorUp(os.log.monitor, kind) && DesktopDown(os.log.monitor, kind)
      modifies this`state, this`handle, this`pid, supervisor, supervisor.registry, os, supervisor.procs
      ensures supervisor.Valid() && Valid() && Only()
      ensures Reached(if r.Success? then [Milestone(kind, Running)] else [])
      ensures state == if r.Success? then Running else Failed
      ensures r.Success? ==> old(attached) && !supervisor.shuttingDown
      ensures r.Success? ==> Served() && Answered() && Equipped()
      ensures r.Failure? ==> !old(attached) || Hindered()
      ensures Waited(r, looks)
    {
      AtRest();
      if !attached {
        var _ := TransitionTo(Failed);
        Settle();
        return Failure(ComponentSpawnFailed), [];
      }
      r, looks := Begin();
    }

    method Begin() returns (r: Result<()>, ghost looks: seq<Seen>)
      requires supervisor.Valid() && Facts() && state == Preparing && attached && NoneLive(os.log.monitor, kind)
      requires CompositorUp(os.log.monitor, kind) && DesktopDown(os.log.monitor, kind)
      modifies this`state, this`handle, this`pid, supervisor, supervisor.registry, os, supervisor.procs
      ensures supervisor.Valid() && Valid() && Only()
      ensures Reached(if r.Success? then [Milestone(kind, Running)] else [])
      ensures state == if r.Success? then Running else Failed
      ensures r.Success? ==> !supervisor.shuttingDown
      ensures r.Success? ==> Served() && Answered() && Equipped()
      ensures r.Failure? ==> Hindered()
      ensures Waited(r, looks)
    {
      BeginStarting();
      ghost var between, since, first := os.log.monitor, os.now, |os.log.events|;
      r, looks := Launch();
      R.WaitedSince(r, looks, since, first, os.log.events, pid, settings.readyTimeoutMs, kind,
        settings.mode, old(os.now), |old(os.log.events)|);
      OthersKeptTrans(old(os.log.monitor), between, os.log.monitor, kind);
    }

    method BeginStarting()
      requires supervisor.Valid() && Facts() && state == Preparing && DesktopDown(os.log.monitor, kind)
      modifies this`state, os`log
      ensures supervisor.Valid() && Facts() && Only() && os.log == Extend(old(os.log), Entered(kind, Starting))
      ensures Reached([]) && state == Starting
    {
      var _ := TransitionTo(Starting);
    }

    /** What the invariant says. */
    lemma AtRest()
      requires Valid()
      ensures Facts() && Quiet() && Abreast() && (state != Running ==> NoneLive(os.log.monitor, kind))
    {
      assert Inside(this);
    }

    /** The living process of a component has not been marked. */
    lemma NotSettled()
      requires Facts() && Served()
      ensures Abreast()
    {
      if pid in os.log.monitor.settled {
        SettledIsDead(os.log, |os.log.events|, pid);
      }
    }

    /** What it takes to have the invariant again. */
    lemma Settle()
      requires Facts() && Quiet() && Abreast() && (state != Running ==> NoneLive(os.log.monitor, kind))
      ensures Valid()
    {
    }

    method Launch() returns (r: Result<()>, ghost looks: seq<Seen>)
      requires supervisor.Valid() && Facts() && state == Starting && attached && NoneLive(os.log.monitor, kind)
      requires CompositorUp(os.log.monitor, kind) && DesktopDown(os.log.monitor, kind)
      modifies this`state, this`handle, this`pid, supervisor, supervisor.registry, os, supervisor.procs
      ensures supervisor.Valid() && Valid() && Only()
      ensures Reached(if r.Success? then [Milestone(kind, Running)] else [])
      ensures state == if r.Success? then Running else Failed
      ensures r.Success? ==> !supervisor.shuttingDown
      ensures r.Success? ==> Served() && Answered() && Equipped()
      ensures r.Failure? ==> Hindered()
      ensures Waited(r, looks)
    {
      looks := [];
      r := Spawn();
      if r.Success? {
        ghost var between, since, first := os.log.monitor, os.now, |os.log.events|;
        r, looks := AwaitReady();
        R.WaitedSince(r, looks, since, first, os.log.events, pid, settings.readyTimeoutMs, kind,
          settings.mode, old(os.now), |old(os.log.events)|);
        OthersKeptTrans(old(os.log.monitor), between, os.log.monitor, kind);
        if r.Success? {
          NotSettled();
        }
      }
      Settle();
    }

    /** Succeeds at once when running, fails at once when not even starting, and else polls. */
    method WaitUntilReady(timeoutMs: nat) returns (r: Result<()>, ghost looks: seq<Seen>)
      requires supervisor.Valid() && Facts()
      modifies os`now, os`children, os`dead, os`log, os`refusals
      ensures supervisor.Valid() && Facts() && Only()
      ensures r.Failure? && state == WaitingReady ==> os.refusals > old(os.refusals)
      ensures state != WaitingReady ==>
                os.log == old(os.log) && r == if state == Running then Success(()) else Failure(ComponentInvalidState)
      ensures state == WaitingReady ==>
                && OnlyLooked(old(os.log.monitor), os.log.monitor, pid) && R.Polled(old(os.log), os.log, pid, looks)
                && looks != [] && (r.Success? ==> Answered())
                && R.Judged(r, looks, old(os.now), if timeoutMs == 0 then settings.readyTimeoutMs else timeoutMs)
                && R.AllFit(kind, settings.mode, looks)
                && (r.Success? ==> R.ShowsReady(kind, settings.mode, looks[|looks| - 1].look))
    {
      looks := [];
      if state == Running {
        return Success(()), looks;
      }
      if state != WaitingReady {
        return Failure(ComponentInvalidState), looks;
      }
      r, looks := Watch(if timeoutMs == 0 then settings.readyTimeoutMs else timeoutMs);
    }

    /** Ends Stopped from every state, also from Failed, and leaves no process of this kind. */
    method Stop() returns (r: Result<()>)
      requires supervisor.Valid() && Valid() && DesktopDown(os.log.monitor, kind)
      modifies this`state, this`handle, this`pid, supervisor, os, supervisor.procs
      ensures supervisor.Valid() && Valid() && Only()
      ensures Reached(if old(state) == Stopped then [] else [Milestone(kind, Stopped)])
      ensures r.Success? && state == Stopped
      ensures old(state) != Stopped ==> handle == None && pid == 0
      ensures Dismissed(settings.stopTimeoutMs)
    {
      assert Inside(this);
      if state == Stopped {
        return Success(());
      }
      var _ := TransitionTo(Stopping);
      ghost var between := os.log.monitor;
      OrderStill(old(os.log.monitor), between, kind);
      WindDown();
      OthersKeptTrans(old(os.log.monitor), between, os.log.monitor, kind);
      r := Success(());
    }

    method WindDown()
      requires supervisor.Valid() && Facts() && (state == Stopping || state == Failed)
      requires DesktopDown(os.log.monitor, kind)
      modifies this`state, this`handle, this`pid, supervisor, os, supervisor.procs
      ensures supervisor.Valid() && Valid() && Only() && state == Stopped
      ensures Reached([Milestone(kind, Stopped)])
      ensures handle == None && pid == 0 && Dismissed(settings.stopTimeoutMs)
    {
      ReleaseProcess(settings.stopTimeoutMs);
      ghost var between := os.log.monitor;
      OrderStill(old(os.log.monitor), between, kind);
      Finish();
      OthersKeptTrans(old(os.log.monitor), between, os.log.monitor, kind);
    }

    method Finish()
      requires supervisor.Valid() && Facts() && (state == Stopping || state == Failed) && NoneLive(os.log.monitor, kind)
      requires DesktopDown(os.log.monitor, kind)
      modifies this`state, os`log
      ensures supervisor.Valid() && Valid() && Only() && state == Stopped
      ensures Reached([Milestone(kind, Stopped)])
      ensures handle == old(handle) && pid == old(pid)
    {
      assert Inside(this);
      var _ := TransitionTo(Stopped);
    }

    /** Ends the process, if there is one, and forgets it. */
    method ReleaseProcess(timeoutMs: nat)
      requires supervisor.Valid() && Facts()
      modifies this`handle, this`pid, supervisor, os, supervisor.procs
      ensures supervisor.Valid() && Facts() && Only() && NoneLive(os.log.monitor, kind)
      ensures Reached([])
      ensures handle == None && pid == 0 && Dismissed(timeoutMs)
    {
      if attached && handle.Some? {
        EndProcess(timeoutMs);
        handle, pid := None, 0;
      }
    }

    /** The exit of the component's own process turns a running component into a failed one. */
    method OnProcessEvent(e: ProcessEvent)
      requires supervisor.Valid() && Valid() && (IsExit(e) ==> DeadPid(os.log.monitor, e.pid))
      modifies this`state, os`log
      ensures supervisor.Valid() && Valid() && Only()
      ensures Reached([])
      ensures state == if IsExit(e) && pid > 0 && e.pid == pid && old(state) == Running then Failed else old(state)
    {
      assert Inside(this);
      if pid > 0 && e.pid == pid && IsExit(e) {
        if state == Running || state == WaitingReady || state == Starting {
          supervisor.OsIsValid();
          assert Inside(os);
          var _ := TransitionTo(Failed);
        }
      }
    }

    /** Back to Created, whatever the state. */
    method Reset()
      requires supervisor.Valid() && Valid() && DesktopDown(os.log.monitor, kind)
      modifies this`state, this`handle, this`pid, supervisor, os, supervisor.procs
      ensures supervisor.Valid() && Valid() && Only() && state == Created && attached == old(attached)
      ensures Reached([])
      ensures NoneLive(os.log.monitor, kind)
      ensures handle == None && pid == 0 && Dismissed(1000)
    {
      assert Inside(this);
      ReleaseProcess(1000);
      ghost var between := os.log.monitor;
      OrderStill(old(os.log.monitor), between, kind);
      Enter(Created);
      OthersKeptTrans(old(os.log.monitor), between, os.log.monitor, kind);
    }
  }
}
