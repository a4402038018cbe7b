/** The graphical session: components started in order, rolled back, stopped in reverse. */
module Sessions {
  import opened Focus
  import opened Results
  import opened Text
  import opened Transitions
  import opened Probes
  import opened Trace
  import opened OperatingSystem
  import opened Processes
  import opened Environment
  import opened Supervisor
  import opened Components
  import opened SessionStates

  class Session {
    const os: Os
    const machine: SessionStateMachine
    const supervisor: ProcessSupervisor
    const environment: SessionEnvironment
    const settings: SessionSettings
    const locations: SessionLocations
    const inheritedHome: Option<string>
    var supervised: bool                  // the supervisor pointer is set
    var components: seq<Component>
    var compositor: Option<Component>
    var desktop: Option<Component>

    ghost predicate Valid()
      reads this, machine, components, supervisor, supervisor.registry, os, supervisor.procs
    {
      forall s {:trigger Inside(s)} :: s == this ==> Facts()
    }

    ghost predicate Facts()
      reads this, machine, components, supervisor, supervisor.registry, os, supervisor.procs
    {
      && machine.Valid() && supervisor.os == os && supervisor.Valid()
      && (forall c :: c in components ==> c.os == os && c.supervisor == supervisor && c.Valid())
      && Ordered() && Roles()
      && (Weston in os.log.monitor.states ==> compositor.Some?)
      && (desktop.None? ==> NoneLive(os.log.monitor, Ldde))
      && (!supervised ==> os.log.monitor.live == {} && forall c :: c in components ==> !c.attached)
      && (supervised ==> Led(supervisor.listeners))
      && (forall c :: c in components && c.attached ==> ManagerListener(c.kind) in supervisor.listeners)
      && (machine.currentState == CREATED ==> !supervised)
    }

    /** The compositor and the desktop are the components of their kinds. */
    ghost predicate Roles()
      reads this
    {
      && (forall c :: c in components && c.kind == Weston ==> compositor == Some(c))
      && (forall c :: c in components && c.kind == Ldde ==> desktop == Some(c))
      && (compositor.Some? ==> compositor.value in components && compositor.value.kind == Weston)
      && (desktop.Some? ==> desktop.value in components && desktop.value.kind == Ldde)
    }

    /** The components stand in start order. */
    ghost predicate Ordered()
      reads this
    {
      InStartOrder(components)
    }

    constructor (os: Os, environment: SessionEnvironment, settings: SessionSettings, locations: SessionLocations,
        inheritedHome: Option<string>)
      requires os.Valid() && os.log == EMPTY_LOG
      modifies os`log
      ensures Valid() && machine.currentState == CREATED && !supervised && components == []
      ensures this.os == os && this.environment == environment
      ensures this.settings == settings && this.locations == locations && this.inheritedHome == inheritedHome
      ensures fresh(machine) && fresh(supervisor) && fresh(supervisor.registry) && supervisor.procs == {}
      ensures os.log.monitor.reports == []
    {
      this.os, this.environment := os, environment;
      this.settings, this.locations, this.inheritedHome := settings, locations, inheritedHome;
      machine := new SessionStateMachine(CREATED);
      supervisor := new ProcessSupervisor(os);
      supervised, components, compositor, desktop := false, [], None, None;
      new;
      assert Inside(this);
    }

    /** Time and history go forward, the dead stay dead and no object is taken over from elsewhere. */
    twostate predicate Forward()
      reads this, os, supervisor
    {
      && old(os.log.events) <= os.log.events && os.Elapsed() && os.Patient() && supervisor.Grew()
      && (old(supervised) ==> supervised)
    }

    /** Forward, and no exit was reported: only a reap pass does that. */
    twostate predicate Onward()
      reads this, os, supervisor
    {
      Forward() && os.log.monitor.reports == old(os.log.monitor.reports)
    }

    /** The supervisor accepts starts or not as before, hands out the same environment and has the same
        listeners. */
    twostate predicate Steady()
      reads this, supervisor
    {
      && supervisor.shuttingDown == old(supervisor.shuttingDown)
      && supervisor.baseEnvironment == old(supervisor.baseEnvironment)
      && supervisor.listeners == old(supervisor.listeners)
    }

    /** The supervisor accepts no starts, or the system refused something. */
    twostate predicate Hindered()
      reads supervisor, os
    {
      supervisor.shuttingDown || os.refusals > old(os.refusals)
    }

    /** The supervisor hands out the session's variables. */
    ghost predicate EnvironmentInUse()
      reads environment, supervisor
    {
      Lists(supervisor.baseEnvironment, environment.variables)
    }

    /** A new component is attached last, before the session is initialised. */
    method Attach(kind: Kind, managed: Settings) returns (c: Component)
      requires Valid() && !supervised && forall d :: d in components ==> InOrder(d.kind, kind)
      modifies this`components, this`compositor, this`desktop, os`log
      ensures Valid() && Onward() && fresh(c) && c.kind == kind && c.state == Created && c.settings == managed
      ensures components == old(components) + [c] && machine.currentState == old(machine.currentState)
      ensures compositor == (if kind == Weston then Some(c) else old(compositor))
      ensures desktop == (if kind == Ldde then Some(c) else old(desktop))
    {
      assert Inside(this);
      c := Introduce(kind, managed);
      assert Apart(kind);
      Enroll(c);
    }

    /** A component that nobody knows yet takes its place. */
    method Enroll(c: Component)
      requires machine.Valid() && supervisor.os == os && supervisor.Valid() && Ordered() && Roles()
      requires forall d :: d in components + [c] ==> d.os == os && d.supervisor == supervisor && d.Valid()
      requires !supervised && os.log.monitor.live == {} && forall d :: d in components + [c] ==> !d.attached
      requires Weston in os.log.monitor.states ==> compositor.Some? || c.kind == Weston
      requires c !in components && forall d :: d in components ==> InOrder(d.kind, c.kind)
      modifies this`components, this`compositor, this`desktop
      ensures Valid() && components == old(components) + [c]
      ensures compositor == (if c.kind == Weston then Some(c) else old(compositor))
      ensures desktop == (if c.kind == Ldde then Some(c) else old(desktop))
    {
      InOrderStill(components, c);
      Append(c);
      assert Facts();
    }

    method Append(c: Component)
      requires Roles() && Ordered() && InStartOrder(components + [c]) && c !in components
      requires forall d :: d in components ==> InOrder(d.kind, c.kind)
      modifies this`components, this`compositor, this`desktop
      ensures Roles() && Ordered() && components == old(components) + [c]
      ensures compositor == (if c.kind == Weston then Some(c) else old(compositor))
      ensures desktop == (if c.kind == Ldde then Some(c) else old(desktop))
    {
      components := components + [c];
      if c.kind == Weston {
        compositor := Some(c);
      } else if c.kind == Ldde {
        desktop := Some(c);
      }
    }

    method Introduce(kind: Kind, managed: Settings) returns (c: Component)
      requires Facts() && !supervised && forall d :: d in components ==> InOrder(d.kind, kind)
      modifies os`log
      ensures fresh(c) && c.Valid() && c.os == os && c.supervisor == supervisor
      ensures c.kind == kind && c.state == Created && c.settings == managed
      ensures !c.attached && supervisor.Valid() && forall d :: d in components ==> d.Valid()
      ensures Onward() && OthersKept(old(os.log.monitor), os.log.monitor, kind)
      ensures os.log.monitor.live == {}
    {
      EntryKeepsOthers(os.log.monitor, kind, Created);
      c := new Component(supervisor, kind, managed);
      NewcomerIsOther(c);
    }

    /** The components already there do not notice a newcomer. */
    twostate lemma NewcomerIsOther(new c: Component)
      requires old(Facts()) && unchanged(this)
      requires forall d :: d in components ==> unchanged(d) && InOrder(d.kind, c.kind)
      requires OthersKept(old(os.log.monitor), os.log.monitor, c.kind)
      ensures forall d :: d in components ==> d.Valid()
    {
      forall d | d in components
        ensures d.Valid()
      {
        d.Undisturbed(c.kind);
      }
    }

    method TransitionTo(target: SessionState) returns (r: Result<()>)
      requires Valid()
      modifies machine
      ensures Valid() && old(machine.history) <= machine.history
      ensures r.Success? <==> IsValidSessionTransition(old(machine.currentState), target)
      ensures machine.currentState == if r.Success? then target else old(machine.currentState)
    {
      assert Inside(this);
      r := machine.TransitionTo(target);
    }

    method StopAt(i: nat)
      requires Valid() && i < |components| && DesktopDown(os.log.monitor, components[i].kind)
      modifies components[i], supervisor, os, supervisor.procs
      ensures Valid() && Onward() && Touched(i) && components[i].state == Stopped
      ensures Reached(if old(components[i].state) == Stopped then [] else [Milestone(components[i].kind, Stopped)])
      ensures os.log.monitor.live <= old(os.log.monitor.live)
    {
      assert Ordered() by {
        assert Inside(this);
      }
      StopOne(components[i]);
      OthersStates(i);
    }

    method StopOne(c: Component)
      requires Valid() && c in components && DesktopDown(os.log.monitor, c.kind)
      modifies c, supervisor, os, supervisor.procs
      ensures Valid() && Onward() && Steady() && c.state == Stopped && c.attached == old(c.attached)
      ensures OthersKept(old(os.log.monitor), os.log.monitor, c.kind)
      ensures NoneLive(os.log.monitor, c.kind) && os.log.monitor.live <= old(os.log.monitor.live)
      ensures Reached(if old(c.state) == Stopped then [] else [Milestone(c.kind, Stopped)])
      ensures c.Dismissed(c.settings.stopTimeoutMs)
    {
      assert Inside(this);
      var _ := c.Stop();
      Resumed(c);
    }

    method StartAt(i: nat) returns (r: Result<()>)
      requires Valid() && i < |components| && CompositorUp(os.log.monitor, components[i].kind)
      modifies components[i], supervisor, supervisor.registry, os, supervisor.procs
      ensures Valid() && Onward() && Touched(i)
      ensures Reached(if r.Success? then [Milestone(components[i].kind, Running)] else [])
      ensures r.Success? ==> Startable(old(components[i].state)) && components[i].state == Running
      ensures r.Failure? ==>
                && components[i].state ==
                     (if Startable(old(components[i].state)) then Failed else old(components[i].state))
                && os.log.monitor.live <= old(os.log.monitor.live)
      ensures r.Success? ==> !supervisor.shuttingDown && DesktopDown(os.log.monitor, components[i].kind)
      ensures Handles() == old(Handles())[i := components[i].handle] && Attachments() == old(Attachments())
      ensures r.Success? ==> supervised && components[i].Served() && components[i].Equipped()
      ensures r.Failure? && Startable(old(components[i].state)) && old(Attachments())[i] ==> Hindered()
    {
      assert Ordered() by {
        assert Inside(this);
      }
      r := StartOne(components[i]);
      OthersStates(i);
    }

    method StartOne(c: Component) returns (r: Result<()>)
      requires Valid() && c in components && CompositorUp(os.log.monitor, c.kind)
      modifies c, supervisor, supervisor.registry, os, supervisor.procs
      ensures Valid() && Onward() && Steady()
      ensures OthersKept(old(os.log.monitor), os.log.monitor, c.kind)
      ensures Reached(if r.Success? then [Milestone(c.kind, Running)] else [])
      ensures r.Success? ==> Startable(old(c.state)) && c.state == Running
      ensures r.Failure? ==>
                && c.state == (if Startable(old(c.state)) then Failed else old(c.state))
                && os.log.monitor.live <= old(os.log.monitor.live)
      ensures r.Success? ==> !supervisor.shuttingDown && DesktopDown(os.log.monitor, c.kind)
      ensures r.Success? ==> supervised && c.Served() && c.Answered() && c.Equipped()
      ensures c.attached == old(c.attached)
      ensures r.Failure? && Startable(old(c.state)) && old(c.attached) ==> Hindered()
    {
      assert Inside(this);
      ghost var looks;
      r, looks := c.Start();
      Resumed(c);
    }

    method ResetOne(c: Component)
      requires Valid() && c in components && DesktopDown(os.log.monitor, c.kind)
      modifies c, supervisor, os, supervisor.procs
      ensures Valid() && Onward() && Steady() && c.state == Created && c.attached == old(c.attached)
      ensures OthersKept(old(os.log.monitor), os.log.monitor, c.kind)
      ensures Reached([])
      ensures NoneLive(os.log.monitor, c.kind) && os.log.monitor.live <= old(os.log.monitor.live)
    {
      assert Inside(this);
      c.Reset();
      Resumed(c);
    }

    method AwaitOne(c: Component) returns (r: Result<()>)
      requires Valid() && c in components
      modifies os`now, os`children, os`dead, os`log, os`refusals
      ensures Valid() && Onward() && (c.state == Running ==> r.Success? && os.log == old(os.log))
    {
      assert Inside(this) && Inside(c);
      ghost var looks;
      r, looks := c.WaitUntilReady(0);
      Resumed(c);
    }

    ghost function States(): (r: seq<ComponentState>)
      reads this, components
      ensures |r| == |components| && forall j :: 0 <= j < |r| ==> r[j] == components[j].state
    {
      seq(|components|, j requires 0 <= j < |components| reads this, components => components[j].state)
    }

    ghost function Handles(): (r: seq<Option<Handle>>)
      reads this, components
      ensures |r| == |components| && forall j :: 0 <= j < |r| ==> r[j] == components[j].handle
    {
      seq(|components|, j requires 0 <= j < |components| reads this, components => components[j].handle)
    }

    ghost function Attachments(): (r: seq<bool>)
      reads this, components
      ensures |r| == |components| && forall j :: 0 <= j < |r| ==> r[j] == components[j].attached
    {
      seq(|components|, j requires 0 <= j < |components| reads this, components => components[j].attached)
    }

    /** Only component i moved. */
    twostate predicate Touched(i: nat)
      requires i < |components| && i < |old(components)| && components == old(components)
      reads this, os, supervisor, components
    {
      && Steady()
      && OthersKept(old(os.log.monitor), os.log.monitor, components[i].kind)
      && States() == old(States())[i := components[i].state]
    }

    /** The milestones this operation added. */
    twostate predicate Reached(more: seq<Milestone>)
      reads os
    {
      os.log.monitor.milestones == old(os.log.monitor.milestones) + more
    }

    /** After an operation on one component the session is valid again. */
    twostate lemma Resumed(c: Component)
      requires old(Valid()) && unchanged(this) && unchanged(machine) && c in components
      requires forall d :: d in components && d != c ==> unchanged(d)
      requires supervisor.Valid() && c.Valid() && OthersKept(old(os.log.monitor), os.log.monitor, c.kind)
      requires !supervised ==> !c.attached
      requires Joined(old(supervisor.listeners), supervisor.listeners, c.kind)
      requires c.attached && !old(c.attached) ==> ManagerListener(c.kind) in supervisor.listeners
      ensures Valid()
      ensures c.state != Running ==>
                NoneLive(os.log.monitor, c.kind) && os.log.monitor.live <= old(os.log.monitor.live)
    {
      assert Inside(this) && Inside(c) && Apart(c.kind);
      forall d | d in components && d != c
        ensures d.Valid()
      {
        KindsDiffer(c, d);
        d.Undisturbed(c.kind);
      }
    }

    lemma KindsDiffer(c: Component, d: Component)
      requires Ordered() && c in components && d in components && c != d
      ensures c.kind != d.kind
    {
      var i :| 0 <= i < |components| && components[i] == c;
      var j :| 0 <= j < |components| && components[j] == d;
      assert if i < j then InOrder(components[i].kind, components[j].kind)
             else InOrder(components[j].kind, components[i].kind);
    }

    twostate lemma OthersStates(i: nat)
      requires Ordered() && i < |components| && components == old(components)
      requires forall d :: d in components && d != components[i] ==> unchanged(d)
      ensures States() == old(States())[i := components[i].state]
      ensures Handles() == old(Handles())[i := components[i].handle]
      ensures Attachments() == old(Attachments())[i := components[i].attached]
    {
      forall j | 0 <= j < |components| && j != i
        ensures components[j].state == old(components[j].state) && components[j].handle == old(components[j].handle)
        ensures components[j].attached == old(components[j].attached)
      {
        assert components[j] in components;
        assert if i < j then InOrder(components[i].kind, components[j].kind)
               else InOrder(components[j].kind, components[i].kind);
      }
    }

    /** Weston is among the first k components only together with LDDE, or while no LDDE process lives. */
    ghost predicate Shielded(k: nat)
      requires k <= |components|
      reads this, os
    {
      Includes(k, Weston) ==> Includes(k, Ldde) || NoneLive(os.log.monitor, Ldde)
    }

    ghost predicate Includes(k: nat, kind: Kind)
      requires k <= |components|
      reads this
    {
      exists j :: 0 <= j < k && components[j].kind == kind
    }

    lemma MayStop(i: nat)
      requires Valid() && i < |components| && Shielded(i + 1)
      ensures DesktopDown(os.log.monitor, components[i].kind)
    {
      assert Inside(this);
      if components[i].kind == Weston {
        forall j | 0 <= j <= i
          ensures components[j].kind != Ldde
        {
          assert j < i ==> InOrder(components[j].kind, components[i].kind);
        }
      }
    }

    twostate lemma StillShielded(i: nat)
      requires Valid() && old(Ordered()) && i < |components| && unchanged(this) && old(Shielded(i + 1))
      requires components[i].state == Stopped && os.log.monitor.live <= old(os.log.monitor.live)
      ensures Shielded(i)
    {
      assert Inside(this);
      assert components[i] in components;
      assert Inside(components[i]);
      if Includes(i, Weston) {
        assert Includes(i + 1, Weston);
        if old(Includes(i + 1, Ldde)) && components[i].kind != Ldde {
          assert Includes(i, Ldde);
        }
      }
    }

    method RollBackOne(i: nat)
      requires Valid() && i < |components| && Shielded(i + 1) && components[i].state == Running
      modifies components[i], supervisor, os, supervisor.procs
      ensures Valid() && Onward() && Steady() && Shielded(i)
      ensures Reached([Milestone(components[i].kind, Stopped)])
      ensures States() == old(States())[i := Stopped]
      ensures os.log.monitor.live <= old(os.log.monitor.live)
    {
      assert Ordered() by {
        assert Inside(this);
      }
      MayStop(i);
      StopAt(i);
      StillShielded(i);
    }

    method RollBackNext(i: nat, k: nat, ghost states: seq<ComponentState>, ghost was: seq<Milestone>)
      requires Valid() && i < k <= |components| == |states| && Shielded(i + 1)
      requires RollingBack(components, i + 1, k, states, was, States(), os.log.monitor.milestones)
      requires forall j :: 0 <= j < k ==> states[j] == Running
      modifies components[i], supervisor, os, supervisor.procs
      ensures Valid() && Onward() && Steady() && Shielded(i)
      ensures RollingBack(components, i, k, states, was, States(), os.log.monitor.milestones)
      ensures os.log.monitor.live <= old(os.log.monitor.live)
    {
      assert Round(i) && Round(i + 1) && States()[i] == Running;
      OneMore(components, i, os.log.monitor.milestones);
      RollBackOne(i);
    }

    /** Stops the first k components, the last one first. */
    method RollBack(k: nat)
      requires Valid() && k <= |components| && Shielded(k)
      requires forall j :: 0 <= j < k ==> States()[j] == Running
      modifies components, supervisor, os, supervisor.procs
      ensures Valid() && Onward() && Steady()
      ensures Reached(StopsOf(components[..k]))
      ensures States() == Overwritten(old(States()), 0, k, Stopped)
      ensures os.log.monitor.live <= old(os.log.monitor.live)
    {
      ghost var states, was := States(), os.log.monitor.milestones;
      assert Overwritten(states, k, k, Stopped) == states;
      assert RollingBack(components, k, k, states, was, States(), was);
      for i := k downto 0
        invariant Valid() && Onward() && Steady() && Shielded(i)
        invariant |States()| == |components| == |states|
        invariant RollingBack(components, i, k, states, was, States(), os.log.monitor.milestones)
        invariant os.log.monitor.live <= old(os.log.monitor.live)
      {
        RollBackNext(i, k, states, was);
      }
      assert Round(0);
    }

    /** The compositor, if there is one, is running by the time the desktop's turn comes. */
    lemma CompositorIsUp(k: nat)
      requires Valid() && k < |components| && forall j :: 0 <= j < k ==> States()[j] == Running
      ensures CompositorUp(os.log.monitor, components[k].kind)
    {
      assert Inside(this);
      if components[k].kind == Ldde && compositor.Some? {
        assert Inside(compositor.value);
        var j :| 0 <= j < |components| && components[j] == compositor.value;
        assert j < k;
        assert States()[j] == Running;
      }
    }

    twostate lemma Shields(k: nat)
      requires k < |components| && unchanged(this) && old(Shielded(k))
      requires OthersKept(old(os.log.monitor), os.log.monitor, components[k].kind)
      requires DesktopDown(os.log.monitor, components[k].kind)
      ensures Shielded(k + 1)
    {
      assert Apart(components[k].kind);
      if Includes(k + 1, Weston) && components[k].kind != Weston && components[k].kind != Ldde {
        assert old(Includes(k, Weston));
        if old(Includes(k, Ldde)) {
          assert Includes(k + 1, Ldde);
        }
      }
    }

    twostate lemma OutfittedNext(k: nat)
      requires Valid() && k < |components| && unchanged(this) && Steady()
      requires OthersKept(old(os.log.monitor), os.log.monitor, components[k].kind)
      requires Handles() == old(Handles())[k := components[k].handle]
      requires components[k].Served() && components[k].Equipped()
      ensures old(Outfitted(k)) ==> Outfitted(k + 1)
    {
      assert Ordered() && components[k].os == os && components[k].supervisor == supervisor by {
        assert Inside(this);
      }
      if old(Outfitted(k)) {
        OneMoreOutfitted(components, k, old(os.log.monitor), os.log.monitor, supervisor.baseEnvironment, old(Handles()),
          Handles());
      }
    }

    method StartNext(k: nat) returns (r: Result<()>)
      requires Valid() && k < |components| && Shielded(k)
      requires forall j :: 0 <= j < k ==> States()[j] == Running
      modifies components[k], supervisor, supervisor.registry, os, supervisor.procs
      ensures Valid() && Onward() && Steady()
      ensures States() == old(States())[k := components[k].state]
      ensures Reached(if r.Success? then [Milestone(components[k].kind, Running)] else [])
      ensures OthersKept(old(os.log.monitor), os.log.monitor, components[k].kind)
      ensures r.Success? ==>
                && Startable(old(components[k].state)) && components[k].state == Running
                && Shielded(k + 1) && !supervisor.shuttingDown
      ensures r.Failure? ==>
                && components[k].state ==
                     (if Startable(old(components[k].state)) then Failed else old(components[k].state))
                && Shielded(k) && os.log.monitor.live <= old(os.log.monitor.live)
      ensures Attachments() == old(Attachments())
      ensures r.Success? ==> supervised && (old(Outfitted(k)) ==> Outfitted(k + 1))
      ensures r.Failure? && Startable(old(States())[k]) && old(Attachments())[k] ==> Hindered()
    {
      CompositorIsUp(k);
      r := StartAt(k);
      if r.Success? {
        Shields(k);
        OutfittedNext(k);
      }
    }

    /** Whatever lives now lived before or belongs to one of the first k components. */
    ghost predicate LiveFrom(k: nat, before: set<Handle>, now: set<Handle>)
      requires k <= |components|
      reads this
    {
      forall h: Handle :: h in now ==> h in before || Includes(k, h.kind)
    }

    lemma LiveFromNext(k: nat, before: set<Handle>, m: Monitor, after: Monitor)
      requires k < |components| && LiveFrom(k, before, m.live) && OthersKept(m, after, components[k].kind)
      ensures LiveFrom(k + 1, before, after.live)
    {
      assert Apart(components[k].kind);
      forall h: Handle | h in after.live && h !in before
        ensures Includes(k + 1, h.kind)
      {
        if h.kind == components[k].kind {
          assert Includes(k + 1, h.kind);
        } else {
          var j :| 0 <= j < k && components[j].kind == h.kind;
          assert components[j].kind == h.kind;
        }
      }
    }

    lemma StoppedAreNotLive(k: nat, before: set<Handle>)
      requires Valid() && k <= |components| && LiveFrom(k, before, os.log.monitor.live)
      requires forall j :: 0 <= j < k ==> States()[j] == Stopped
      ensures os.log.monitor.live <= before
    {
      assert Inside(this);
      forall j | 0 <= j < k
        ensures NoneLive(os.log.monitor, components[j].kind)
      {
        assert States()[j] == Stopped && components[j] in components && Inside(components[j]);
      }
    }

    /** How things stood when the session began to start its components. */
    ghost function Snapshot(): (r: Before)
      reads this, components, os
      ensures |r.states| == |components|
    {
      Before(States(), os.log.monitor.live, os.log.monitor.milestones)
    }

    /** The first k components were started in order, the others left alone. */
    ghost predicate FirstStarted(k: nat, before: Before)
      requires k <= |components| == |before.states|
      reads this, os, components
    {
      && StartedSoFar(components, k, before, States(), os.log.monitor.milestones)
      && LiveFrom(k, before.live, os.log.monitor.live)
      && Shielded(k)
    }

    /** Component k failed: those before it were started in order and stopped in reverse, those after it
        left alone, and nothing lives that did not live before. */
    ghost predicate NoneStarted(k: nat, before: Before)
      requires k < |components| == |before.states|
      reads this, os, components
    {
      forall s {:trigger Beside(s)} :: s == this ==>
        && States() == FailedAt(Overwritten(before.states, 0, k, Stopped), k)
        && os.log.monitor.milestones == before.milestones + RunsOf(components[..k]) + StopsOf(components[..k])
        && os.log.monitor.live <= before.live
    }

    lemma NoneStartedYet()
      ensures FirstStarted(0, Snapshot()) && Outfitted(0)
    {
      assert Round(0) && RunsOf(components[..0]) == [];
    }

    lemma AllStarted(before: Before)
      requires |components| == |before.states| && FirstStarted(|components|, before)
      ensures AllRunning() && os.log.monitor.milestones == before.milestones + RunsOf(components)
    {
      assert Round(|components|) && components[..|components|] == components;
      assert forall j :: 0 <= j < |components| ==> States()[j] == Running;
    }

    /** The first k components have a living process each, given the supervisor's environment overridden by
        the component's own. */
    ghost predicate Outfitted(k: nat)
      requires k <= |components|
      reads this, os, supervisor, components
    {
      AllOutfitted(components, k, os.log.monitor, supervisor.baseEnvironment, Handles())
    }

    method StartStep(k: nat, ghost before: Before) returns (r: Result<()>)
      requires Valid() && k < |components| == |before.states| && FirstStarted(k, before)
      modifies components, supervisor, supervisor.registry, os, supervisor.procs
      ensures Valid() && Onward() && Steady()
      ensures r.Success? ==> FirstStarted(k + 1, before) && !supervisor.shuttingDown
      ensures r.Success? ==> supervised && (old(Outfitted(k)) ==> Outfitted(k + 1))
      ensures r.Failure? ==> StuckAt(k, before)
      ensures Attachments() == old(Attachments())
      ensures r.Failure? && Startable(before.states[k]) && old(Attachments())[k] ==> Hindered()
    {
      ghost var m, states := os.log.monitor, States();
      SoFar(components, k, before, states, m.milestones);
      r := StartNext(k);
      LiveFromNext(k, before.live, m, os.log.monitor);
      if r.Success? {
        OneMoreStarted(components, k, before, states, m.milestones);
      }
    }

    /** Component k could not be started; those before it still run. */
    ghost predicate StuckAt(k: nat, before: Before)
      requires k < |components| == |before.states|
      reads this, os, components
    {
      && Shielded(k) && LiveFrom(k, before.live, os.log.monitor.live)
      && States() == FailedAt(Overwritten(before.states, 0, k, Running), k)
      && os.log.monitor.milestones == before.milestones + RunsOf(components[..k])
    }

    /** Every component has its supervisor and is in a state to be started. */
    ghost predicate Primed()
      reads this, components
    {
      AllStartable() && forall j :: 0 <= j < |components| ==> Attachments()[j]
    }

    ghost predicate AllStartable()
      reads this, components
    {
      forall j :: 0 <= j < |components| ==> Startable(States()[j])
    }

    /** The start loop: up to the end, or to the first component that fails. */
    method StartInOrder() returns (r: Result<()>, k: nat)
      requires Valid()
      modifies components, supervisor, supervisor.registry, os, supervisor.procs
      ensures Valid() && Onward() && Steady()
      ensures r.Success? ==> FirstStarted(|components|, old(Snapshot())) && Outfitted(|components|)
      ensures r.Success? && components != [] ==> supervised
      ensures r.Failure? ==> k < |components| && StuckAt(k, old(Snapshot()))
      ensures r.Failure? && old(Primed()) ==> Hindered()
    {
      ghost var before := Snapshot();
      NoneStartedYet();
      k := 0;
      while k < |components|
        invariant Valid() && Onward() && Steady()
        invariant k <= |components| && FirstStarted(k, before) && Outfitted(k) && (k > 0 ==> supervised)
        invariant Attachments() == old(Attachments())
      {
        r := StartStep(k, before);
        if r.Failure? {
          return;
        }
        k := k + 1;
      }
      r := Success(());
    }

    /** Starts every component in order, or none: a failure stops those already started. */
    method StartAll() returns (r: Result<()>, ghost k: nat)
      requires Valid() && machine.currentState == STARTING
      modifies machine, components, supervisor, supervisor.registry, os, supervisor.procs
      ensures Valid() && Onward() && Steady()
      ensures r.Success? ==> machine.currentState == RUNNING && FirstStarted(|components|, old(Snapshot()))
      ensures r.Success? ==> Outfitted(|components|) && (components != [] ==> supervised)
      ensures r.Failure? ==> machine.currentState == FAILED && k < |components| && NoneStarted(k, old(Snapshot()))
      ensures r.Failure? && old(Primed()) ==> Hindered()
    {
      ghost var before := Snapshot();
      var started;
      r, started := StartInOrder();
      k := started;
      if r.Failure? {
        Undo(started, before);
      } else {
        var _ := TransitionTo(RUNNING);
      }
    }

    method Undo(k: nat, ghost before: Before)
      requires Valid() && k < |components| == |before.states| && machine.currentState == STARTING && StuckAt(k, before)
      modifies machine, components, supervisor, supervisor.registry, os, supervisor.procs
      ensures Valid() && Onward() && Steady()
      ensures machine.currentState == FAILED && NoneStarted(k, before)
    {
      UndoStarted(k, before);
      var _ := TransitionTo(FAILED);
    }

    method UndoStarted(k: nat, ghost before: Before)
      requires Valid() && k < |components| == |before.states| && StuckAt(k, before)
      modifies components, supervisor, os, supervisor.procs
      ensures Valid() && Onward() && Steady()
      ensures NoneStarted(k, before)
    {
      RollBack(k);
      StoppedAreNotLive(k, before.live);
      assert States() == FailedAt(Overwritten(before.states, 0, k, Stopped), k);
    }

    /** No component is running from position i on. */
    ghost predicate Quiet(i: nat)
      reads this, components
    {
      forall j :: i <= j < |components| ==> components[j].state != Running
    }

    /** Stops component i if it is running; those after it are not. */
    method StopIfRunning(i: nat)
      requires Valid() && i < |components| && Quiet(i + 1)
      modifies components[i], supervisor, os, supervisor.procs
      ensures Valid() && Onward() && Steady()
      ensures os.log.monitor.live <= old(os.log.monitor.live)
      ensures States() == old(States())[i := Halted(old(States())[i])]
      ensures Reached(HaltOf(components[i].kind, old(States())[i]))
    {
      if components[i].IsRunning() {
        DesktopIsDown(i);
        StopAt(i);
      } else {
        Unmoved();
      }
    }

    twostate lemma Unmoved()
      requires unchanged(os)
      ensures old(os.log.events) <= os.log.events
    {
    }

    /** When the compositor's turn comes, the desktop is not running. */
    lemma DesktopIsDown(i: nat)
      requires Valid() && i < |components| && Quiet(i + 1)
      ensures DesktopDown(os.log.monitor, components[i].kind)
    {
      assert Inside(this);
      if components[i].kind == Weston && desktop.Some? {
        var j :| 0 <= j < |components| && components[j] == desktop.value;
        assert i < j;
        assert Inside(desktop.value);
      }
    }

    /** From position i on exactly the running components were stopped, the last one first. */
    ghost predicate HaltedDownTo(i: nat, states: seq<ComponentState>, milestones: seq<Milestone>)
      requires i <= |components| == |states|
      reads this, components, os
    {
      Halting(components, i, states, milestones, States(), os.log.monitor.milestones)
    }

    /** Exactly the running components were stopped, the last one first. */
    ghost predicate AllHalted(states: seq<ComponentState>, milestones: seq<Milestone>)
      requires |components| == |states|
      reads this, components, os
    {
      HaltedDownTo(0, states, milestones)
    }

    lemma NothingHalted()
      ensures HaltedDownTo(|components|, States(), os.log.monitor.milestones)
    {
      assert HaltedFrom(States(), |components|) == States();
    }

    lemma NoneIsRunning(states: seq<ComponentState>, milestones: seq<Milestone>)
      requires |components| == |states| && AllHalted(states, milestones)
      ensures Quiet(0) && States() == HaltedFrom(states, 0)
      ensures os.log.monitor.milestones == milestones + HaltsOf(components, states, |components|)
    {
      assert Round(0);
      assert forall j :: 0 <= j < |components| ==> States()[j] != Running;
    }

    method HaltNext(i: nat, ghost states: seq<ComponentState>, ghost milestones: seq<Milestone>)
      requires Valid() && i < |components| == |states| && HaltedDownTo(i + 1, states, milestones)
      modifies components[i], supervisor, os, supervisor.procs
      ensures Valid() && Onward() && Steady()
      ensures HaltedDownTo(i, states, milestones) && os.log.monitor.live <= old(os.log.monitor.live)
    {
      assert Round(i) && Round(i + 1);
      assert Quiet(i + 1) by {
        assert forall j :: i < j < |components| ==> States()[j] != Running;
      }
      HaltStep(components, states, i, os.log.monitor.milestones);
      StopIfRunning(i);
    }

    /** Stops the running components in reverse order and leaves the others as they are. */
    method StopRunning()
      requires Valid()
      modifies components, supervisor, os, supervisor.procs
      ensures Valid() && Onward() && Steady()
      ensures AllHalted(old(States()), old(os.log.monitor.milestones))
      ensures Quiet(0) && os.log.monitor.live <= old(os.log.monitor.live)
    {
      ghost var states, milestones := States(), os.log.monitor.milestones;
      NothingHalted();
      for i := |components| downto 0
        invariant Valid() && Onward() && Steady()
        invariant HaltedDownTo(i, states, milestones) && os.log.monitor.live <= old(os.log.monitor.live)
      {
        HaltNext(i, states, milestones);
      }
      NoneIsRunning(states, milestones);
    }

    /** Ends whatever processes are left; without a supervisor there are none. */
    method EndProcesses()
      requires Valid()
      modifies supervisor, supervisor.registry, os, supervisor.procs
      ensures Valid() && Onward() && os.log.monitor.live == {} && (supervised ==> Closed())
      ensures (!supervised ==> Steady()) && supervisor.baseEnvironment == old(supervisor.baseEnvironment)
      ensures supervisor.listeners == old(supervisor.listeners)
      ensures os.log.monitor.milestones == old(os.log.monitor.milestones)
      ensures !supervised ==> os.log == old(os.log)
      ensures supervised ==> AllAsked()
    {
      assert Inside(this);
      if supervised {
        supervisor.StopAll(None, None);
        AfterEnds();
      }
    }

    /** Every registered process that ran was asked to end within five seconds. */
    twostate predicate AllAsked()
      reads os, supervisor, supervisor.registry
    {
      forall h :: h in old(supervisor.registry.byHandle) && old(supervisor.registry.byHandle[h].IsRunning()) ==>
                    Requested(os.sent, |old(os.sent)|, old(supervisor.registry.byHandle[h].pid), 5000)
    }

    /** The supervisor accepts no start and has no process left. */
    ghost predicate Closed()
      reads supervisor, supervisor.registry
    {
      supervisor.shuttingDown && supervisor.registry.byHandle == map[]
    }

    twostate lemma AfterEnds()
      requires old(Valid()) && unchanged(this) && unchanged(machine) && supervisor.Valid()
      requires forall c :: c in components ==> unchanged(c)
      requires os.log.monitor.live <= old(os.log.monitor.live) && os.log.monitor.states == old(os.log.monitor.states)
      requires Remembers(old(os.log.monitor), os.log.monitor) && supervisor.listeners == old(supervisor.listeners)
      requires os.log.monitor.crews == old(os.log.monitor.crews) && OnlyReportedOrClosed()
      ensures Valid()
    {
      assert Inside(this);
      forall c | c in components
        ensures c.Valid()
      {
        assert Inside(c);
      }
    }

    /** Unless the supervisor was closed, only reported processes were marked. */
    twostate predicate OnlyReportedOrClosed()
      reads os
    {
      var m, before := os.log.monitor, old(os.log.monitor);
      m.isOpen ==> before.isOpen && before.reports <= m.reports
                   && forall p :: p in m.settled ==> p in before.settled || p in m.reports
    }

    /** Where a stop leads: back to STOPPED, except from FAILED, which stays, and from INITIALIZING. */
    function AfterStop(from: SessionState): SessionState {
      if from == READY || from == STARTING || from == RUNNING || from == RECOVERING then STOPPED else from
    }

    /** Stops the components in reverse order and ends every process that is left. */
    method Stop() returns (r: Result<()>)
      requires Valid()
      modifies machine, components, supervisor, supervisor.registry, os, supervisor.procs
      ensures Valid() && Onward()
      ensures r == if old(machine.currentState) == CREATED || old(machine.currentState) == STOPPING
                   then Failure(SessionInvalidState) else Success(())
      ensures machine.currentState == AfterStop(old(machine.currentState))
      ensures r.Success? && old(machine.currentState) != STOPPED ==>
                AllHalted(old(States()), old(os.log.monitor.milestones))
                && Quiet(0) && os.log.monitor.live == {} && (supervised ==> Closed())
      ensures r.Failure? || old(machine.currentState) == STOPPED ==> Idle()
    {
      var current := machine.currentState;
      if current == STOPPED {
        return Success(());
      }
      if !(current == STARTING || current == RUNNING || current == READY || current == INITIALIZING
           || current == RECOVERING || current == FAILED) {
        return Failure(SessionInvalidState);
      }
      StopNow();
      r := Success(());
    }

    /** A stop in a state that allows it. */
    method StopNow()
      requires Valid() && machine.currentState in {READY, INITIALIZING, STARTING, RUNNING, RECOVERING, FAILED}
      modifies machine, components, supervisor, supervisor.registry, os, supervisor.procs
      ensures Valid() && Onward() && machine.currentState == AfterStop(old(machine.currentState))
      ensures AllHalted(old(States()), old(os.log.monitor.milestones))
      ensures Quiet(0) && os.log.monitor.live == {} && (supervised ==> Closed())
    {
      BeginStop();
      FinishStop();
    }

    method BeginStop()
      requires Valid() && machine.currentState in {READY, INITIALIZING, STARTING, RUNNING, RECOVERING, FAILED}
      modifies machine
      ensures Valid() && Onward()
      ensures machine.currentState ==
                if old(machine.currentState) == FAILED then FAILED
                else if old(machine.currentState) == INITIALIZING then INITIALIZING else STOPPING
    {
      if machine.currentState != FAILED {
        var _ := TransitionTo(STOPPING);
      }
    }

    method FinishStop()
      requires Valid()
      modifies machine, components, supervisor, supervisor.registry, os, supervisor.procs
      ensures Valid() && Onward()
      ensures machine.currentState ==
                if IsValidSessionTransition(old(machine.currentState), STOPPED) then STOPPED
                else old(machine.currentState)
      ensures AllHalted(old(States()), old(os.log.monitor.milestones))
      ensures Quiet(0) && os.log.monitor.live == {} && (supervised ==> Closed())
    {
      TearDown();
      var _ := TransitionTo(STOPPED);
    }

    method TearDown()
      requires Valid()
      modifies components, supervisor, supervisor.registry, os, supervisor.procs
      ensures Valid() && Onward()
      ensures AllHalted(old(States()), old(os.log.monitor.milestones))
      ensures Quiet(0) && os.log.monitor.live == {} && (supervised ==> Closed())
    {
      StopRunning();
      EndProcesses();
    }

    /** Ends every process, then stops the components. */
    method Fail()
      requires Valid()
      modifies machine, components, supervisor, supervisor.registry, os, supervisor.procs
      ensures Valid() && Onward()
      ensures machine.currentState ==
                if IsValidSessionTransition(old(machine.currentState), FAILED) then FAILED
                else old(machine.currentState)
      ensures AllHalted(old(States()), old(os.log.monitor.milestones))
      ensures Quiet(0) && os.log.monitor.live == {} && (supervised ==> Closed())
    {
      var _ := TransitionTo(FAILED);
      EndProcesses();
      StopRunning();
    }

    method Cleanup()
      requires Valid()
      modifies machine, components, supervisor, supervisor.registry, os, supervisor.procs
      ensures Valid() && Onward() && machine.currentState == AfterStop(old(machine.currentState))
      ensures os.log.monitor.live == {} && (supervised ==> Closed())
      ensures old(machine.currentState) == FAILED ==> Reached([])
    {
      var current := machine.currentState;
      if current == RUNNING || current == STARTING || current == READY || current == INITIALIZING
         || current == RECOVERING {
        var _ := Stop();
      }
      EndProcesses();
    }

    /** An empty supervisor: the first one, or one in the place of the last. */
    method ConnectSupervisor()
      requires Valid() && machine.currentState != CREATED
      modifies this`supervised, components, supervisor, supervisor.registry, os, supervisor.procs
      ensures Valid() && Onward() && Opened() && os.log.monitor.live == {} && Reached([])
      ensures machine.currentState == old(machine.currentState) && States() == old(States())
      ensures supervisor.listeners == [SessionListener]
    {
      EndProcesses();
      DetachAll();
      Listen();
      Reopen();
    }

    /** No manager holds on to the supervisor that is replaced. */
    method DetachAll()
      requires Valid() && os.log.monitor.live == {}
      modifies components, os`log
      ensures Valid() && Onward() && Reached([]) && os.log.monitor.live == {}
      ensures States() == old(States()) && forall c :: c in components ==> !c.attached
    {
      for i := 0 to |components|
        invariant Valid() && Onward() && Reached([]) && os.log.monitor.live == {}
        invariant States() == old(States()) && forall j :: 0 <= j < i ==> !Attachments()[j]
      {
        DetachAt(i);
      }
      forall c | c in components
        ensures !c.attached
      {
        var j :| 0 <= j < |components| && components[j] == c;
        assert !Attachments()[j];
      }
    }

    method DetachAt(i: nat)
      requires Valid() && i < |components| && os.log.monitor.live == {}
      modifies components[i], os`log
      ensures Valid() && Onward() && Reached([]) && os.log.monitor.live == {}
      ensures States() == old(States()) && Attachments() == old(Attachments())[i := false]
    {
      assert Inside(this);
      components[i].Detach();
      Resumed(components[i]);
      OthersStates(i);
    }

    /** The session is the first to listen to the new supervisor. */
    method Listen()
      requires Valid() && forall c :: c in components ==> !c.attached
      modifies supervisor`listeners
      ensures Valid() && supervisor.listeners == [SessionListener]
    {
      assert Inside(this);
      supervisor.ClearListeners();
      supervisor.RegisterListener(SessionListener);
    }

    /** A supervisor without processes accepts starts. */
    ghost predicate Opened()
      reads this, supervisor, supervisor.registry
    {
      supervised && !supervisor.shuttingDown && supervisor.registry.byHandle == map[]
    }

    method Reopen()
      requires Valid() && os.log.monitor.live == {} && machine.currentState != CREATED && Led(supervisor.listeners)
      modifies this`supervised, supervisor, supervisor.registry, os`log
      ensures Valid() && Opened() && supervisor.listeners == old(supervisor.listeners)
      ensures supervisor.procs == old(supervisor.procs) && os.log == Extend(old(os.log), Reopened)
    {
      assert Inside(this);
      supervisor.Reset();
      supervised := true;
      KeptByReopening();
    }

    twostate lemma KeptByReopening()
      requires old(Facts()) && components == old(components) && os.log == Extend(old(os.log), Reopened)
      requires forall c :: c in components ==> unchanged(c)
      ensures forall c :: c in components ==> c.Valid()
    {
      forall c | c in components
        ensures c.Valid()
      {
        assert Inside(c);
      }
    }

    /** Hands the session's environment to the supervisor. */
    method UseEnvironment()
      requires Valid()
      modifies supervisor`baseEnvironment
      ensures Valid() && EnvironmentInUse()
    {
      assert Inside(this);
      var entries := environment.ToVector();
      supervisor.SetBaseEnvironment(entries);
    }

    method InitializeAt(i: nat) returns (r: Result<()>)
      requires Valid() && supervised && i < |components| && os.log.monitor.live == {}
      modifies components[i], supervisor`listeners, os`log, os`refusals, os`answers
      ensures Valid() && Onward() && os.log.monitor.live == {} && Reached([])
      ensures r.Success? ==> States() == old(States())
      ensures Attachments() == old(Attachments())[i := true]
      ensures supervisor.listeners == old(supervisor.listeners) + [ManagerListener(components[i].kind)]
      ensures r.Failure? ==> os.refusals > old(os.refusals)
    {
      assert Inside(this);
      var c := components[i];
      r := c.Initialize();
      Resumed(c);
      OthersStates(i);
    }

    /** Initialises the components in order, up to the first that fails. */
    method InitializeAll() returns (r: Result<()>)
      requires Valid() && supervised && os.log.monitor.live == {}
      modifies components, supervisor`listeners, os`log, os`refusals, os`answers
      ensures Valid() && Onward() && os.log.monitor.live == {} && Reached([])
      ensures r.Success? ==> AllAttached() && States() == old(States())
      ensures r.Success? ==> supervisor.listeners == old(supervisor.listeners) + ManagersOf(components)
      ensures r.Failure? ==> os.refusals > old(os.refusals)
    {
      ghost var states, before := States(), supervisor.listeners;
      assert ManagersOf(components[..0]) == [];
      var i := 0;
      while i < |components|
        invariant Valid() && Onward() && os.log.monitor.live == {} && Reached([])
        invariant i <= |components| && Admitted(i, states, before)
      {
        r := InitializeNext(i, states, before);
        if r.Failure? {
          return;
        }
        i := i + 1;
      }
      assert components[..i] == components;
      r := Success(());
    }

    /** The first k managers have the supervisor and listen to it, one after the other. */
    ghost predicate Admitted(k: nat, states: seq<ComponentState>, before: seq<Listener>)
      requires k <= |components|
      reads this, components, supervisor
    {
      && States() == states && (forall j :: 0 <= j < k ==> Attachments()[j])
      && supervisor.listeners == before + ManagersOf(components[..k])
    }

    method InitializeNext(k: nat, ghost states: seq<ComponentState>, ghost before: seq<Listener>)
      returns (r: Result<()>)
      requires Valid() && supervised && k < |components| && os.log.monitor.live == {} && Admitted(k, states, before)
      modifies components[k], supervisor`listeners, os`log, os`refusals, os`answers
      ensures Valid() && Onward() && os.log.monitor.live == {} && Reached([])
      ensures r.Success? ==> Admitted(k + 1, states, before)
      ensures r.Failure? ==> os.refusals > old(os.refusals)
    {
      r := InitializeAt(k);
      assert ManagersOf(components[..k + 1]) == ManagersOf(components[..k]) + [ManagerListener(components[k].kind)];
    }

    ghost predicate AllAttached()
      reads this, components
    {
      forall j :: 0 <= j < |components| ==> Attachments()[j]
    }

    method CreateDirectories() returns (ok: bool)
      requires Valid()
      modifies os`refusals, os`answers
      ensures Valid() && Onward() && (!ok ==> os.refusals > old(os.refusals))
      ensures os.answers == old(os.answers) + [ok]
    {
      assert Inside(this);
      supervisor.OsIsValid();
      ok := os.Ask();
      supervisor.Asked();
      ComponentsKept();
    }

    /** A session just created has started nothing. */
    lemma NothingYet()
      requires Valid()
      ensures machine.currentState == CREATED ==> os.log.monitor.live == {}
    {
      assert Inside(this);
    }

    /** The session's own variables are laid over the inherited ones, configured overrides last. */
    ghost predicate Furnished(inherited: map<string, string>)
      reads environment
    {
      forall e {:trigger Inside(e)} :: e == environment ==>
        environment.variables == SessionDefaults(inherited, settings, locations, inheritedHome)
    }

    method FillEnvironment()
      requires Valid()
      modifies environment
      ensures Valid() && Furnished(old(environment.variables))
    {
      assert Inside(this) && Inside(environment);
      environment.PopulateSessionDefaults(settings, locations, inheritedHome);
    }

    method Connect() returns (r: Result<()>)
      requires Valid() && machine.currentState != CREATED
      modifies this`supervised, environment, components, supervisor, supervisor.registry, os, supervisor.procs
      ensures Valid() && Onward() && Opened() && os.log.monitor.live == {} && Reached([])
      ensures machine.currentState == old(machine.currentState)
      ensures Furnished(old(environment.variables)) && EnvironmentInUse()
      ensures r.Success? ==> AllAttached() && States() == old(States())
      ensures r.Success? ==> supervisor.listeners == [SessionListener] + ManagersOf(components)
      ensures r.Failure? ==> os.refusals > old(os.refusals)
    {
      FillEnvironment();
      ConnectSupervisor();
      UseEnvironment();
      r := InitializeAll();
    }

    /** Nothing happened to the components and nothing went into the history. */
    twostate predicate Idle()
      requires components == old(components)
      reads this, components, os
    {
      os.log == old(os.log) && States() == old(States())
    }

    /** Directories, environment, supervisor and components; the session is READY afterwards, or FAILED. */
    method Initialize() returns (r: Result<()>)
      requires Valid()
      modifies this`supervised, environment, machine, components, supervisor, supervisor.registry, os, supervisor.procs
      ensures Valid() && Onward()
      ensures r.Success? ==> machine.currentState == READY && Opened() && os.log.monitor.live == {} && Reached([])
      ensures r.Success? ==> AllAttached() && States() == old(States())
      ensures r.Success? ==> Furnished(old(environment.variables)) && EnvironmentInUse()
      ensures r.Failure? ==>
                machine.currentState == if IsValidSessionTransition(old(machine.currentState), INITIALIZING) then FAILED
                                        else old(machine.currentState)
      ensures !IsValidSessionTransition(old(machine.currentState), INITIALIZING) ==>
                r.Failure? && Idle() && supervised == old(supervised)
      ensures old(machine.currentState) == CREATED ==> os.log.monitor.live == {} && Reached([])
      ensures r.Success? ==> supervisor.listeners == [SessionListener] + ManagersOf(components)
      ensures r.Failure? ==>
                !IsValidSessionTransition(old(machine.currentState), INITIALIZING) || os.refusals > old(os.refusals)
    {
      NothingYet();
      r := TransitionTo(INITIALIZING);
      if r.Failure? {
        return;
      }
      r := Establish();
    }

    /** The rest of the initialisation, from INITIALIZING to READY or FAILED. */
    method Establish() returns (r: Result<()>)
      requires Valid() && machine.currentState == INITIALIZING
      modifies this`supervised, environment, machine, components, supervisor, supervisor.registry, os, supervisor.procs
      ensures Valid() && Onward()
      ensures r.Success? ==> machine.currentState == READY && Opened() && os.log.monitor.live == {} && Reached([])
      ensures r.Success? ==> AllAttached() && States() == old(States())
      ensures r.Success? ==> Furnished(old(environment.variables)) && EnvironmentInUse()
      ensures r.Failure? ==> machine.currentState == FAILED
      ensures Reached([]) && (old(os.log.monitor.live) == {} ==> os.log.monitor.live == {})
      ensures r.Success? ==> supervisor.listeners == [SessionListener] + ManagersOf(components)
      ensures r.Failure? ==> os.refusals > old(os.refusals)
    {
      var directoriesCreated := CreateDirectories();
      if !directoriesCreated {
        var _ := TransitionTo(FAILED);
        return Failure(SessionRuntimeDirectoryFailed);
      }
      r := ConnectFully();
    }

    method ConnectFully() returns (r: Result<()>)
      requires Valid() && machine.currentState == INITIALIZING
      modifies this`supervised, environment, machine, components, supervisor, supervisor.registry, os, supervisor.procs
      ensures Valid() && Onward() && os.log.monitor.live == {} && Reached([])
      ensures r.Success? ==> machine.currentState == READY && Opened() && AllAttached() && States() == old(States())
      ensures r.Success? ==> Furnished(old(environment.variables)) && EnvironmentInUse()
      ensures r.Failure? ==> machine.currentState == FAILED
      ensures r.Success? ==> supervisor.listeners == [SessionListener] + ManagersOf(components)
      ensures r.Failure? ==> os.refusals > old(os.refusals)
    {
      r := Connect();
      if r.Failure? {
        GiveUp();
      } else {
        var _ := TransitionTo(READY);
      }
    }

    method GiveUp()
      requires Valid() && machine.currentState == INITIALIZING
      modifies machine, components, supervisor, supervisor.registry, os, supervisor.procs
      ensures Valid() && Onward() && machine.currentState == FAILED && os.log.monitor.live == {} && Reached([])
    {
      var _ := TransitionTo(FAILED);
      Cleanup();
    }

    method Prepare() returns (r: Result<()>)
      requires Valid()
      modifies this`supervised, environment, machine, components, supervisor, supervisor.registry, os, supervisor.procs
      ensures Valid() && Onward()
      ensures r.Success? ==>
                && machine.currentState == READY
                && (old(machine.currentState) == READY || old(machine.currentState) == CREATED)
      ensures r.Failure? ==>
                machine.currentState ==
                  if old(machine.currentState) == CREATED then FAILED else old(machine.currentState)
      ensures old(machine.currentState) == CREATED ==> os.log.monitor.live == {} && Reached([])
      ensures old(machine.currentState) == CREATED && r.Success? ==>
                && Opened() && AllAttached() && States() == old(States())
                && Furnished(old(environment.variables)) && EnvironmentInUse()
      ensures old(machine.currentState) != CREATED ==>
                && Idle() && supervised == old(supervised) && os.refusals == old(os.refusals)
                && supervisor.listeners == old(supervisor.listeners)
                && environment.variables == old(environment.variables)
      ensures old(machine.currentState) == CREATED && r.Failure? ==> os.refusals > old(os.refusals)
    {
      if machine.currentState == CREATED {
        r := Initialize();
      } else if machine.currentState == READY {
        r := Success(());
      } else {
        r := Failure(SessionInvalidState);
      }
    }

    /** From READY: every component started in order and the session RUNNING, or none and FAILED. */
    method StartReady() returns (r: Result<()>, ghost k: nat)
      requires Valid() && machine.currentState == READY
      modifies machine, components, supervisor, supervisor.registry, os, supervisor.procs
      ensures Valid() && Onward()
      ensures r.Success? ==> machine.currentState == RUNNING && FirstStarted(|components|, old(Snapshot()))
      ensures r.Success? ==> Outfitted(|components|) && (components != [] ==> supervised)
      ensures supervised ==> EnvironmentInUse()
      ensures r.Failure? ==> machine.currentState == FAILED && k < |components| && NoneStarted(k, old(Snapshot()))
      ensures supervisor.listeners == old(supervisor.listeners)
      ensures r.Failure? && old(Primed()) && !old(supervisor.shuttingDown) ==> os.refusals > old(os.refusals)
    {
      BeginStarting();
      r, k := StartAll();
    }

    /** The session's variables go to the supervisor; nothing is started yet. */
    method BeginStarting()
      requires Valid() && machine.currentState == READY
      modifies machine, supervisor`baseEnvironment
      ensures Valid() && Onward() && machine.currentState == STARTING && (supervised ==> EnvironmentInUse())
      ensures Snapshot() == old(Snapshot()) && (old(Primed()) ==> Primed())
    {
      if supervised {
        UseEnvironment();
      }
      var _ := TransitionTo(STARTING);
    }

    /** All components were started in order, with the session's variables. */
    ghost predicate AllStartedFrom(before: Before)
      requires |components| == |before.states|
      reads this, components, os, supervisor, environment
    {
      forall s {:trigger Beside(s)} :: s == this ==>
        && AllRunning() && FirstStarted(|components|, before)
        && os.log.monitor.milestones == before.milestones + RunsOf(components)
        && Outfitted(|components|) && (components != [] ==> supervised) && (supervised ==> EnvironmentInUse())
    }

    /** Prepares the session if need be and starts its components: all of them, or none. When the
        preparation itself fails, k is the number of components. */
    method Start() returns (r: Result<()>, ghost k: nat)
      requires Valid()
      modifies this`supervised, environment, machine, components, supervisor, supervisor.registry, os, supervisor.procs
      ensures Valid() && Onward()
      ensures r.Success? ==> machine.currentState == RUNNING && AllStartedFrom(old(Snapshot()))
      ensures r.Success? ==> old(machine.currentState) == READY || old(machine.currentState) == CREATED
      ensures r.Success? && old(machine.currentState) == CREATED ==> Furnished(old(environment.variables))
      ensures r.Failure? && k < |components| ==> machine.currentState == FAILED && NoneStarted(k, old(Snapshot()))
      ensures r.Failure? && k >= |components| ==> old(machine.currentState) != READY && Unstarted()
      ensures r.Failure? ==>
                machine.currentState ==
                  if old(machine.currentState) == CREATED || old(machine.currentState) == READY then FAILED
                  else old(machine.currentState)
      ensures r.Failure? && old(MayStart()) ==> os.refusals > old(os.refusals)
      ensures old(machine.currentState) != CREATED ==>
                && supervised == old(supervised) && supervisor.listeners == old(supervisor.listeners)
                && environment.variables == old(environment.variables)
      ensures old(machine.currentState) != CREATED && old(machine.currentState) != READY ==> r.Failure? && Idle()
    {
      if machine.currentState == READY {
        r, k := StartOnceReady(Snapshot());
      } else {
        r, k := StartUnprepared();
      }
    }

    /** Nothing but a refusal by the system keeps the session from starting. */
    ghost predicate MayStart()
      reads this, machine, components, supervisor
    {
      || (machine.currentState == CREATED && AllStartable())
      || (machine.currentState == READY && Primed() && !supervisor.shuttingDown)
    }

    /** The session was refused, or its preparation failed; no component was started or stopped. */
    twostate predicate Unstarted()
      requires components == old(components)
      reads this, components, os
    {
      if old(machine.currentState) == CREATED then os.log.monitor.live == {} && Reached([]) else Idle()
    }

    method StartUnprepared() returns (r: Result<()>, ghost k: nat)
      requires Valid() && machine.currentState != READY
      modifies this`supervised, environment, machine, components, supervisor, supervisor.registry, os, supervisor.procs
      ensures Valid() && Onward()
      ensures r.Success? ==> machine.currentState == RUNNING && AllStartedFrom(old(Snapshot()))
      ensures r.Success? ==> old(machine.currentState) == CREATED && Furnished(old(environment.variables))
      ensures r.Failure? && k < |components| ==> machine.currentState == FAILED && NoneStarted(k, old(Snapshot()))
      ensures r.Failure? && k >= |components| ==> Unstarted()
      ensures r.Failure? ==>
                machine.currentState ==
                  if old(machine.currentState) == CREATED then FAILED else old(machine.currentState)
      ensures r.Failure? && old(machine.currentState == CREATED && AllStartable()) ==> os.refusals > old(os.refusals)
      ensures old(machine.currentState) != CREATED ==>
                && supervised == old(supervised) && supervisor.listeners == old(supervisor.listeners)
                && environment.variables == old(environment.variables)
      ensures old(machine.currentState) != CREATED ==> r.Failure? && Idle()
    {
      if machine.currentState == CREATED {
        r, k := StartCreated();
      } else {
        k := |components|;
        r := Prepare();
      }
    }

    method StartCreated() returns (r: Result<()>, ghost k: nat)
      requires Valid() && machine.currentState == CREATED
      modifies this`supervised, environment, machine, components, supervisor, supervisor.registry, os, supervisor.procs
      ensures Valid() && Onward() && machine.currentState == if r.Success? then RUNNING else FAILED
      ensures r.Success? ==> AllStartedFrom(old(Snapshot())) && Furnished(old(environment.variables))
      ensures r.Failure? && k < |components| ==> NoneStarted(k, old(Snapshot()))
      ensures r.Failure? && k >= |components| ==> os.log.monitor.live == {} && Reached([])
      ensures r.Failure? && old(AllStartable()) ==> os.refusals > old(os.refusals)
    {
      NothingYet();
      k := |components|;
      r := Prepare();
      if r.Success? {
        r, k := StartOnceReady(old(Snapshot()));
      }
    }

    method StartOnceReady(ghost before: Before) returns (r: Result<()>, ghost k: nat)
      requires Valid() && machine.currentState == READY && before == Snapshot()
      modifies machine, components, supervisor, supervisor.registry, os, supervisor.procs
      ensures Valid() && Onward()
      ensures r.Success? ==> machine.currentState == RUNNING && AllStartedFrom(before)
      ensures r.Failure? ==> machine.currentState == FAILED && k < |components| && NoneStarted(k, before)
      ensures r.Failure? && old(Primed()) && !old(supervisor.shuttingDown) ==> os.refusals > old(os.refusals)
      ensures supervisor.listeners == old(supervisor.listeners)
    {
      r, k := StartReady();
      if r.Success? {
        AllStarted(before);
      }
    }

    lemma FurnishedKeys(inherited: map<string, string>)
      requires Furnished(inherited)
      ensures NoEquals(environment.variables.Keys) <==> NoEquals(inherited.Keys) && NoEquals(settings.overrides.Keys)
    {
      assert Inside(environment);
      SessionDefaultsMean(inherited, settings, locations, inheritedHome);
    }

    /** Once all components were started, and when no variable of the session has '=' in its name, every
        child was given exactly the session's variables overridden by its component's own. */
    lemma ChildrenGetTheSession(before: Before, c: Component)
      requires Valid() && |components| == |before.states| && AllStartedFrom(before) && c in components
      requires NoEquals(environment.variables.Keys)
      ensures c.Served() && c.handle.value in os.log.monitor.born
      ensures Lists(EnvironmentOf(os.log.monitor, c.handle.value), environment.variables + c.settings.environment)
    {
      assert Inside(this) && Beside(this);
      var j: nat :| j < |components| && components[j] == c;
      assert Handles()[j] == c.handle;
      OutfittedAt(components, j, os.log.monitor, supervisor.baseEnvironment, Handles(), environment.variables);
    }

    /** So every child has an entry for each default variable, with its standard value unless the configuration
        or the component's own settings give another. */
    lemma ChildrenGetTheDefaults(inherited: map<string, string>, before: Before, c: Component)
      requires Valid() && |components| == |before.states| && AllStartedFrom(before) && c in components
      requires NoEquals(environment.variables.Keys) && Furnished(inherited)
      ensures c.handle.Some? && c.handle.value in os.log.monitor.born
      ensures var given, own := EnvironmentOf(os.log.monitor, c.handle.value), c.settings.environment;
              var r := environment.variables + own;
              && (forall k :: k in r ==> Entry(k, r[k]) in given)
              && Standard(r, settings.overrides.Keys + own.Keys, settings, locations,
                          StandardHome(settings.user, inheritedHome))
    {
      assert Inside(environment);
      ChildrenGetTheSession(before, c);
      var given, own := EnvironmentOf(os.log.monitor, c.handle.value), c.settings.environment;
      SessionDefaultsMean(inherited, settings, locations, inheritedHome);
      StandardInChild(environment.variables, settings.overrides.Keys, own, settings, locations,
        StandardHome(settings.user, inheritedHome));
      ListedEntries(given, environment.variables + own);
    }

    ghost predicate AllRunning()
      reads this, components
    {
      forall j :: 0 <= j < |components| ==> components[j].state == Running
    }

    // -------------------------------------------------------------------------------------
    // Steps the recovery manager takes on the session

    /** Who the compositor and the desktop are. */
    lemma Known()
      requires Valid()
      ensures supervised ==> Led(supervisor.listeners)
      ensures Roles() && forall c :: c in components ==> c.os == os && c.supervisor == supervisor
      ensures desktop.None? ==> NoneLive(os.log.monitor, Ldde)
      ensures machine.currentState == CREATED ==> !supervised
      ensures compositor.None? || compositor.value.state == Running ==> CompositorUp(os.log.monitor, Ldde)
    {
      assert Inside(this);
      if compositor.Some? {
        assert Inside(compositor.value);
      }
    }

    lemma OpenMeans()
      requires Valid()
      ensures os.log.monitor.isOpen == !supervisor.shuttingDown
    {
      assert Inside(this);
      supervisor.OsIsValid();
    }

    /** Time passes; with nothing to wait for this is a look at the clock. */
    method Pause(ms: nat) returns (t: nat)
      requires Valid()
      modifies os`now, os`children, os`dead
      ensures Valid() && Onward() && os.log == old(os.log) && t == os.now >= old(os.now) + ms
    {
      assert Inside(this);
      supervisor.OsIsValid();
      t := os.Nap(ms);
      supervisor.Kept();
      ComponentsKept();
    }

    /** Whether the compositor's socket takes a connection. */
    method TrySocket() returns (answers: bool)
      requires Valid()
      modifies os`log, os`refusals
      ensures Valid() && Onward() && OnlyLooked(old(os.log.monitor), os.log.monitor, 0)
      ensures answers <==> SocketAnswers()
      ensures !answers ==> os.refusals > old(os.refusals)
    {
      assert Inside(this);
      supervisor.OsIsValid();
      answers := ProbeSocket();
      SameChildren(os.children);
      supervisor.Kept();
      ComponentsKept();
    }

    /** One look at the compositor's socket, without a process in view. */
    method ProbeSocket() returns (answers: bool)
      requires os.Valid()
      modifies os`log, os`refusals
      ensures os.Valid() && old(os.log.events) <= os.log.events
      ensures OnlyLooked(old(os.log.monitor), os.log.monitor, 0)
      ensures answers <==> SocketAnswers()
      ensures os.refusals == old(os.refusals) + if answers then 0 else 1
    {
      var look := os.Probe(0, false);
      answers := look == Connection(true);
      if !answers {
        os.GiveUp();
      }
    }

    /** The compositor's socket took a connection when it was last tried. */
    ghost predicate SocketAnswers()
      reads os
    {
      0 in os.log.monitor.looks && os.log.monitor.looks[0] == Connection(true)
    }

    twostate lemma ComponentsKept()
      requires old(Facts()) && unchanged(this) && OnlyLooked(old(os.log.monitor), os.log.monitor, 0)
      requires forall c :: c in components ==> unchanged(c)
      ensures forall c :: c in components ==> c.Valid()
    {
      forall c | c in components
        ensures c.Valid()
      {
        assert Inside(c);
      }
    }

    /** The milestone of stopping a component, if there is one and it is not stopped yet. */
    function StopMark(c: Option<Component>): seq<Milestone>
      reads Part(c)
    {
      if c.Some? && c.value.state != Stopped then [Milestone(c.value.kind, Stopped)] else []
    }

    /** The milestone of a component, if there is one, becoming Running. */
    function RunMark(c: Option<Component>): seq<Milestone> {
      if c.Some? then [Milestone(c.value.kind, Running)] else []
    }

    /** Stops a component and makes it startable again. */
    method Cycle(c: Component)
      requires Valid() && c in components && DesktopDown(os.log.monitor, c.kind)
      modifies c, supervisor, os, supervisor.procs
      ensures Valid() && Onward() && Steady() && c.state == Created
      ensures Reached(old(StopMark(Some(c)))) && c.attached == old(c.attached)
      ensures NoneLive(os.log.monitor, c.kind) && os.log.monitor.live <= old(os.log.monitor.live)
    {
      StopOne(c);
      ResetOne(c);
    }

    /** Starts a component and waits until it is ready. */
    method BringUp(c: Component) returns (r: Result<()>)
      requires Valid() && c in components && CompositorUp(os.log.monitor, c.kind)
      modifies c, supervisor, supervisor.registry, os, supervisor.procs
      ensures Valid() && Onward() && Steady()
      ensures r.Failure? && Startable(old(c.state)) && old(c.attached) ==> Hindered()
      ensures c.attached == old(c.attached)
      ensures r.Success? ==> Manned(Some(c)) && OthersKept(old(os.log.monitor), os.log.monitor, c.kind)
      ensures r.Success? ==> Reached(RunMark(Some(c)))
      ensures r.Success? ==> c.state == Running && !supervisor.shuttingDown
    {
      r := StartOne(c);
      Known();
      if r.Success? {
        r := AwaitOne(c);
      }
    }

    method StopDesktop()
      requires Valid()
      modifies components, supervisor, os, supervisor.procs
      ensures Valid() && Onward() && Steady()
      ensures Reached(old(StopMark(desktop)))
      ensures forall c :: c in components && c.kind != Ldde ==> c.state == old(c.state)
      ensures Held(desktop) == old(Held(desktop)) && Held(compositor) == old(Held(compositor))
      ensures NoneLive(os.log.monitor, Ldde) && os.log.monitor.live <= old(os.log.monitor.live)
    {
      Known();
      if desktop.Some? {
        StopOne(desktop.value);
      }
    }

    /** Stops the desktop, then the compositor, then whatever processes are left. */
    method Quiesce()
      requires Valid() && supervised
      modifies components, supervisor, supervisor.registry, os, supervisor.procs
      ensures Valid() && Onward() && os.log.monitor.live == {}
      ensures Reached(old(StopMark(desktop)) + old(StopMark(compositor)))
    {
      StopDesktop();
      Known();
      if compositor.Some? {
        StopOne(compositor.value);
      }
      EndProcesses();
    }

    /** Empties the supervisor and lets it accept starts again. */
    method RenewSupervisor()
      requires Valid() && supervised && os.log.monitor.live == {}
      modifies this`supervised, supervisor, supervisor.registry, os`log
      ensures Valid() && Onward() && Opened() && EnvironmentInUse() && os.log.monitor.live == {}
      ensures supervisor.procs == old(supervisor.procs)
      ensures Reached([])
    {
      Known();
      Reopen();
      UseEnvironment();
    }

    ghost predicate PartIn(c: Option<Component>, state: ComponentState)
      reads Part(c)
    {
      c.Some? ==> c.value.state == state
    }

    /** Compositor and desktop back to Created. */
    method ResetParts()
      requires Valid() && os.log.monitor.live == {}
      modifies components, supervisor, os, supervisor.procs
      ensures Valid() && Onward() && os.log.monitor.live == {} && Steady()
      ensures Reached([])
      ensures PartIn(compositor, Created) && PartIn(desktop, Created)
    {
      Known();
      if compositor.Some? {
        ResetOne(compositor.value);
      }
      if desktop.Some? {
        ResetOne(desktop.value);
      }
    }

    /** Gives a component the supervisor again; that its executable may not resolve goes unnoticed here. */
    method ReadmitOne(c: Component)
      requires Valid() && supervised && c in components && os.log.monitor.live == {}
      modifies c, supervisor`listeners, os`log, os`refusals, os`answers
      ensures Valid() && Onward() && os.log.monitor.live == {} && c.attached
      ensures Reached([])
      ensures supervisor.listeners == old(supervisor.listeners) + [ManagerListener(c.kind), ManagerListener(c.kind)]
      ensures c.state == old(c.state) || os.refusals > old(os.refusals)
    {
      assert Inside(this);
      c.SetSupervisor();
      var _ := c.Initialize();
      Resumed(c);
    }

    /** What re-admitting a part adds to the listeners: its manager twice. */
    function Twice(c: Option<Component>): seq<Listener> {
      if c.Some? then [ManagerListener(c.value.kind), ManagerListener(c.value.kind)] else []
    }

    method ReadmitParts()
      requires Valid() && supervised && os.log.monitor.live == {}
      modifies components, supervisor`listeners, os`log, os`refusals, os`answers
      ensures Valid() && Onward() && os.log.monitor.live == {}
      ensures Reached([])
      ensures supervisor.listeners == old(supervisor.listeners) + Twice(compositor) + Twice(desktop)
      ensures Held(compositor) && Held(desktop)
      ensures old(PartIn(compositor, Created) && PartIn(desktop, Created)) ==>
                (PartIn(compositor, Created) && PartIn(desktop, Created)) || os.refusals > old(os.refusals)
    {
      Known();
      if compositor.Some? {
        ReadmitOne(compositor.value);
      }
      if desktop.Some? {
        ReadmitOne(desktop.value);
      }
    }

    /** The part, if there is one, has the supervisor. */
    ghost predicate Held(c: Option<Component>)
      reads Part(c)
    {
      c.Some? ==> c.value.attached
    }

    /** There are a compositor and a desktop and no other component. */
    ghost predicate OnlyParts()
      reads this
    {
      compositor.Some? && desktop.Some? && forall c :: c in components ==> Some(c) == compositor || Some(c) == desktop
    }

    lemma PartsPrimed()
      requires OnlyParts() && Held(compositor) && Held(desktop)
      requires PartIn(compositor, Created) && PartIn(desktop, Created)
      ensures Primed()
    {
      assert forall j :: 0 <= j < |components| ==> components[j] in components;
    }

    method ListProcesses() returns (all: seq<Process>)
      requires Valid()
      ensures forall i :: 0 <= i < |all| ==> all[i] in supervisor.procs
      ensures forall h :: h in supervisor.registry.byHandle ==> exists i :: 0 <= i < |all| && all[i].handle == h
    {
      assert Inside(this);
      all := supervisor.ListAll();
    }

    /** One step of a reap pass. */
    method ReapOne(process: Process) returns (event: Option<ProcessEvent>)
      requires Valid() && process in supervisor.procs
      modifies supervisor, process, os`children, os`dead, os`log
      ensures Valid() && Forward() && Steady() && supervisor.procs == old(supervisor.procs)
      ensures event.Some? ==>
                && IsExit(event.value) && DeadPid(os.log.monitor, event.value.pid)
                && event.value.pid == process.pid > 0 && event.value.kind == process.handle.kind
      ensures os.log.monitor.reports == old(os.log.monitor.reports) + if event.Some? then [event.value.pid] else []
      ensures os.log.monitor.reopenings == old(os.log.monitor.reopenings) && process.pid == old(process.pid)
      ensures old(process.handle in os.dead) ==> Accounted(os.log.monitor, process.handle, os.log.monitor.reopenings)
    {
      assert Inside(this);
      if process.handle in os.dead {
        supervisor.PidForGood(process);
      }
      supervisor.IsSound(process);
      event := supervisor.ReapOne(process);
      supervisor.IsSound(process);
      AfterEnds();
      if old(process.handle in os.dead) {
        supervisor.PidForGood(process);
      }
    }

    /** Passes an exit on to one manager. */
    method NotifyOne(c: Component, e: ProcessEvent)
      requires Valid() && c in components && IsExit(e) && DeadPid(os.log.monitor, e.pid)
      modifies c, os`log
      ensures Valid() && Onward()
      ensures c.pid == old(c.pid) && c.state == NotifiedOne(old(c.state), c.pid, e.pid)
    {
      assert Inside(this) && Inside(c);
      c.OnProcessEvent(e);
      Resumed(c);
    }

    /** Passes an exit on to the manager of this kind, if there is one. */
    method NotifyManager(kind: Kind, e: ProcessEvent)
      requires Valid() && IsExit(e) && DeadPid(os.log.monitor, e.pid)
      modifies components, os`log
      ensures Valid() && Onward() && Pids() == old(Pids())
      ensures States() == NotifiedBy(components, old(States()), old(Pids()), [kind], e.pid)
    {
      ghost var states, pids := States(), Pids();
      NotifyingNone(components, states, pids, kind, e.pid);
      for i := 0 to |components|
        invariant Valid() && Onward() && Pids() == pids && DeadPid(os.log.monitor, e.pid)
        invariant Notifying(components, states, pids, kind, e.pid, i, States())
      {
        NotifyNext(i, kind, e, states);
      }
      NotifiedAll(components, states, pids, kind, e.pid, States());
    }

    method NotifyNext(i: nat, kind: Kind, e: ProcessEvent, ghost states: seq<ComponentState>)
      requires Valid() && i < |components| == |states| && IsExit(e) && DeadPid(os.log.monitor, e.pid)
      requires Notifying(components, states, Pids(), kind, e.pid, i, States())
      modifies components[i], os`log
      ensures Valid() && Onward() && Pids() == old(Pids()) && DeadPid(os.log.monitor, e.pid)
      ensures Notifying(components, states, Pids(), kind, e.pid, i + 1, States())
    {
      NotifyingStep(components, states, Pids(), kind, e.pid, i, States());
      NotifyIf(i, kind, e);
      DeadForGood(old(os.log), os.log, e.pid);
    }

    method NotifyIf(i: nat, kind: Kind, e: ProcessEvent)
      requires Valid() && i < |components| && IsExit(e) && DeadPid(os.log.monitor, e.pid)
      modifies components[i], os`log
      ensures Valid() && Onward() && Pids() == old(Pids())
      ensures States() ==
                if components[i].kind == kind then
                  old(States())[i := NotifiedOne(old(States())[i], old(Pids())[i], e.pid)]
                else old(States())
    {
      if components[i].kind == kind {
        NotifyAt(i, e);
      }
    }

    /** Calls the managers among these listeners, one call after the other. */
    method TellManagers(listeners: seq<Listener>, e: ProcessEvent)
      requires Valid() && Led(listeners) && IsExit(e) && DeadPid(os.log.monitor, e.pid)
      modifies components, os`log
      ensures Valid() && Onward() && Pids() == old(Pids())
      ensures States() == NotifiedBy(components, old(States()), old(Pids()), Managers(listeners), e.pid)
    {
      ghost var states, pids, kinds := States(), Pids(), Managers(listeners);
      assert NotifiedBy(components, states, pids, [], e.pid) == states;
      for i := 1 to |listeners|
        invariant Valid() && Onward() && Pids() == pids
        invariant States() == NotifiedBy(components, states, pids, kinds[..i - 1], e.pid)
      {
        DeadForGood(old(os.log), os.log, e.pid);
        NotifyManager(listeners[i].kind, e);
        ToldAgain(components, states, pids, kinds[..i - 1], kinds[i - 1], e.pid);
        assert kinds[..i] == kinds[..i - 1] + [kinds[i - 1]];
      }
      assert kinds[..|kinds|] == kinds;
    }

    /** No component takes the process of this pid for its running one. */
    ghost predicate Deserted(pid: nat)
      reads this, components
    {
      forall c {:trigger c in components} :: c in components && c.state == Running && c.pid > 0 ==> c.pid != pid
    }

    /** No component returns to a process that has ended. */
    twostate lemma StillDeserted(pid: nat)
      requires old(Valid()) && Valid() && components == old(components) && old(os.log.events) <= os.log.events
      requires DeadPid(old(os.log.monitor), pid)
      requires forall c {:trigger c in components} :: c in components ==>
                 old(c.state != Running || c.pid != pid || c.pid == 0)
                 || !old(c.attached) || c.state != Running || c.pid != pid
      ensures Deserted(pid)
    {
      assert Inside(this);
      if c :| c in components && c.state == Running && c.pid == pid > 0 {
        assert Inside(c);
        c.StaysAway(pid);
      }
    }

    lemma NoneOfThem(kinds: seq<Kind>, pid: nat)
      requires NoneRunsOn(kinds, pid)
      ensures forall c {:trigger c in components} :: c in components && c.kind in kinds ==>
                c.state != Running || c.pid != pid
    {
      forall c | c in components && c.kind in kinds
        ensures c.state != Running || c.pid != pid
      {
        var j :| 0 <= j < |components| && components[j] == c;
        assert components[j].kind in kinds;
      }
    }

    /** Every component that runs on a marked process was told, or will be, as long as the supervisor is open. */
    lemma RunsOnReported(c: Component, h: Handle)
      requires Valid() && c in components && c.state == Running && c.handle == Some(h) && os.log.monitor.isOpen
      requires h in os.log.monitor.born && os.log.monitor.born[h].pid in os.log.monitor.settled
      ensures c.pid > 0 && c.pid in os.log.monitor.reports
    {
      assert Inside(this) && Inside(c);
    }

    /** None of these managers takes the process of this pid for its running one. */
    ghost predicate NoneRunsOn(kinds: seq<Kind>, pid: nat)
      reads this, components
    {
      forall j :: 0 <= j < |components| && components[j].kind in kinds ==>
        components[j].state != Running || components[j].pid != pid
    }

    lemma NobodyLeft(states: seq<ComponentState>, kinds: seq<Kind>, pid: nat)
      requires pid > 0 && |states| == |components| && States() == NotifiedBy(components, states, Pids(), kinds, pid)
      ensures NoneRunsOn(kinds, pid)
    {
      forall j | 0 <= j < |components| && components[j].kind in kinds
        ensures components[j].state != Running || components[j].pid != pid
      {
        assert States()[j] == NotifiedOne(states[j], Pids()[j], pid);
      }
    }

    /** Every manager that has the supervisor is among the supervisor's listeners. */
    lemma AttachedListen()
      requires Valid() && supervised
      ensures Led(supervisor.listeners)
      ensures forall c :: c in components && c.attached ==> c.kind in Managers(supervisor.listeners)
    {
      assert Inside(this);
      forall c | c in components && c.attached
        ensures c.kind in Managers(supervisor.listeners)
      {
        var i :| 0 <= i < |supervisor.listeners| && supervisor.listeners[i] == ManagerListener(c.kind);
        assert Managers(supervisor.listeners)[i - 1] == c.kind;
      }
    }

    method NotifyAt(i: nat, e: ProcessEvent)
      requires Valid() && i < |components| && IsExit(e) && DeadPid(os.log.monitor, e.pid)
      modifies components[i], os`log
      ensures Valid() && Onward() && Pids() == old(Pids())
      ensures States() == old(States())[i := NotifiedOne(old(States())[i], old(Pids())[i], e.pid)]
    {
      assert Ordered() by {
        assert Inside(this);
      }
      NotifyOne(components[i], e);
      OthersStates(i);
    }

    ghost function Pids(): (r: seq<nat>)
      reads this, components
      ensures |r| == |components| && forall j :: 0 <= j < |r| ==> r[j] == components[j].pid
    {
      seq(|components|, j requires 0 <= j < |components| reads this, components => components[j].pid)
    }

    /** With nothing live in the history, the operating system shows no living child. */
    lemma NoChildAlive(h: Handle)
      requires Valid() && os.log.monitor.live == {} && h in os.children
      ensures !os.children[h].status.Alive?
    {
      assert Inside(this);
      supervisor.OsIsValid();
      assert Inside(os);
    }

    lemma OutfittedServes(c: Component)
      requires Valid() && Outfitted(|components|) && c in components
      ensures c.Served() && c.Equipped()
    {
      assert Inside(this);
      var j: nat :| j < |components| && components[j] == c;
      assert Round(j) && Handles()[j] == c.handle;
    }

    /** Both parts run and the compositor's socket answers. Behind the desktop stands a living process; behind
        the compositor too, unless the desktop alone was restarted. */
    ghost predicate Revived(desktopAlone: bool)
      reads this, os, supervisor, Part(compositor), Part(desktop)
    {
      forall s {:trigger Beside(s)} :: s == this ==>
        && PartsRunning() && (compositor.Some? ==> SocketAnswers())
        && Manned(desktop) && (!desktopAlone ==> Manned(compositor))
    }

    lemma PartsRevived(desktopAlone: bool)
      requires PartsRunning() && (compositor.Some? ==> SocketAnswers())
      requires Manned(desktop) && (!desktopAlone ==> Manned(compositor))
      ensures Revived(desktopAlone)
    {
    }

    lemma RevivedRun(desktopAlone: bool)
      requires Revived(desktopAlone)
      ensures PartsRunning()
    {
      assert Beside(this);
    }

    /** The part, if there is one, has a living process, given the supervisor's environment overridden by the
        part's own. */
    ghost predicate Manned(c: Option<Component>)
      reads os, supervisor, Part(c)
    {
      c.Some? ==> c.value.os == os && c.value.supervisor == supervisor && c.value.Served() && c.value.Equipped()
    }

    lemma KillsWereAsked()
      requires Valid() && Unforced(os.sent)
      ensures KillsFollowRequests(os.sent)
    {
      assert Inside(this);
      supervisor.OsIsValid();
      os.KillsWereAsked();
    }

    static ghost function Part(c: Option<Component>): set<Component> {
      if c.Some? then {c.value} else {}
    }

    /** The compositor and the desktop, as far as attached, are running. */
    predicate PartsRunning()
      reads this, Part(compositor), Part(desktop)
    {
      && (compositor.Some? ==> compositor.value.IsRunning())
      && (desktop.Some? ==> desktop.value.IsRunning())
    }

    predicate IsGraphicalSessionReady()
      reads this, machine, Part(compositor), Part(desktop)
    {
      machine.currentState == RUNNING && PartsRunning()
    }
  }

  /** The first k components became Running in order, the others were left alone. */
  ghost predicate StartedSoFar(cs: seq<Component>, k: nat, before: Before, now: seq<ComponentState>, so: seq<Milestone>)
    requires k <= |cs| == |before.states|
  {
    forall r: nat {:trigger Round(r)} :: r == k ==>
      && now == Overwritten(before.states, 0, r, Running) && (forall j :: 0 <= j < r ==> Startable(before.states[j]))
      && so == before.milestones + RunsOf(cs[..r])
  }

  lemma SoFar(cs: seq<Component>, k: nat, before: Before, now: seq<ComponentState>, so: seq<Milestone>)
    requires k < |cs| == |before.states| && StartedSoFar(cs, k, before, now, so)
    ensures now == Overwritten(before.states, 0, k, Running) && so == before.milestones + RunsOf(cs[..k])
  {
    assert Round(k);
  }

  lemma OneMoreStarted(cs: seq<Component>, k: nat, before: Before, now: seq<ComponentState>, so: seq<Milestone>)
    requires k < |cs| == |before.states| && StartedSoFar(cs, k, before, now, so) && Startable(before.states[k])
    ensures |now| == |cs|
    ensures StartedSoFar(cs, k + 1, before, now[k := Running], so + [Milestone(cs[k].kind, Running)])
  {
    assert Round(k) && Round(k + 1);
    OneMore(cs, k, []);
  }

  /** The first k components have a living process of their kind each, given this environment overridden by
      the component's own. */
  ghost predicate AllOutfitted(cs: seq<Component>, k: nat, m: Monitor, base: seq<string>, handles: seq<Option<Handle>>)
    requires k <= |cs| == |handles|
  {
    forall j: nat {:trigger Round(j)} :: j < k ==> OneOutfitted(cs[j], m, base, handles[j])
  }

  ghost predicate OneOutfitted(c: Component, m: Monitor, base: seq<string>, h: Option<Handle>) {
    h.Some? && h.value.kind == c.kind && h.value in m.live && EquippedWith(m, h.value, base, c.settings.environment)
  }

  lemma OneMoreOutfitted(cs: seq<Component>, k: nat, m: Monitor, after: Monitor, base: seq<string>,
    handles: seq<Option<Handle>>, now: seq<Option<Handle>>)
    requires k < |cs| == |handles| == |now| && InStartOrder(cs) && AllOutfitted(cs, k, m, base, handles)
    requires OthersKept(m, after, cs[k].kind) && now == handles[k := now[k]] && OneOutfitted(cs[k], after, base, now[k])
    ensures AllOutfitted(cs, k + 1, after, base, now)
  {
    assert Apart(cs[k].kind);
    forall j: nat | j < k
      ensures OneOutfitted(cs[j], after, base, now[j])
    {
      assert Round(j);
      assert InOrder(cs[j].kind, cs[k].kind) && OneOutfitted(cs[j], m, base, handles[j]);
      assert EnvironmentOf(after, now[j].value) == EnvironmentOf(m, handles[j].value);
    }
  }

  /** A process left alone stays alive and equipped. */
  lemma StaysEquipped(m: Monitor, after: Monitor, kind: Kind, h: Handle, base: seq<string>, own: map<string, string>)
    requires OthersKept(m, after, kind) && h.kind != kind && h in m.live && EquippedWith(m, h, base, own)
    ensures h in after.live && EquippedWith(after, h, base, own)
  {
    assert Apart(kind);
    assert EnvironmentOf(after, h) == EnvironmentOf(m, h);
  }

  /** The environment of one of them, when the base lists variables without '=' in their names. */
  lemma OutfittedAt(cs: seq<Component>, j: nat, m: Monitor, base: seq<string>, handles: seq<Option<Handle>>,
    variables: map<string, string>)
    requires j < |cs| == |handles| && AllOutfitted(cs, |cs|, m, base, handles)
    requires Lists(base, variables) && NoEquals(variables.Keys)
    ensures OneOutfitted(cs[j], m, base, handles[j])
    ensures Lists(EnvironmentOf(m, handles[j].value), variables + cs[j].settings.environment)
  {
    assert Round(j);
    ChildEnvironment(variables, base, cs[j].settings.environment, EnvironmentOf(m, handles[j].value));
  }

  /** The milestones of starting these components in order. */
  function RunsOf(cs: seq<Component>): seq<Milestone> {
    if cs == [] then [] else RunsOf(cs[..|cs| - 1]) + [Milestone(cs[|cs| - 1].kind, Running)]
  }

  /** The milestones of stopping these components in reverse order. */
  function StopsOf(cs: seq<Component>): seq<Milestone> {
    if cs == [] then [] else [Milestone(cs[|cs| - 1].kind, Stopped)] + StopsOf(cs[..|cs| - 1])
  }

  /** What an exit of this pid does to a component: it fails if it was running on that pid. */
  function NotifiedOne(state: ComponentState, pid: nat, exited: nat): ComponentState {
    if pid > 0 && pid == exited && state == Running then Failed else state
  }

  /** What calls to these managers about an exit of this pid do to the states of the first k components. */
  function NotifiedUpTo(cs: seq<Component>, s: seq<ComponentState>, pids: seq<nat>, kinds: seq<Kind>, exited: nat,
    k: nat)
    : (r: seq<ComponentState>)
    requires k <= |cs| == |s| == |pids|
    ensures |r| == |s|
    ensures forall j :: 0 <= j < |s| ==>
              r[j] == if j < k && cs[j].kind in kinds then NotifiedOne(s[j], pids[j], exited) else s[j]
  {
    seq(k, j requires 0 <= j < k => if cs[j].kind in kinds then NotifiedOne(s[j], pids[j], exited) else s[j]) + s[k..]
  }

  function NotifiedBy(cs: seq<Component>, s: seq<ComponentState>, pids: seq<nat>, kinds: seq<Kind>, exited: nat)
    : (r: seq<ComponentState>)
    requires |cs| == |s| == |pids|
    ensures |r| == |s|
  {
    NotifiedUpTo(cs, s, pids, kinds, exited, |cs|)
  }

  /** The manager of this kind was called if it is among the first k. */
  ghost predicate Notifying(cs: seq<Component>, s: seq<ComponentState>, pids: seq<nat>, kind: Kind, exited: nat, k: nat,
    now: seq<ComponentState>)
    requires k <= |cs| == |s| == |pids| == |now|
  {
    forall r: nat {:trigger Round(r)} :: r == k ==> now == NotifiedUpTo(cs, s, pids, [kind], exited, r)
  }

  lemma NotifyingNone(cs: seq<Component>, s: seq<ComponentState>, pids: seq<nat>, kind: Kind, exited: nat)
    requires |cs| == |s| == |pids|
    ensures Notifying(cs, s, pids, kind, exited, 0, s)
  {
    assert NotifiedUpTo(cs, s, pids, [kind], exited, 0) == s;
  }

  lemma NotifiedAll(cs: seq<Component>, s: seq<ComponentState>, pids: seq<nat>, kind: Kind, exited: nat,
    now: seq<ComponentState>)
    requires |cs| == |s| == |pids| == |now| && Notifying(cs, s, pids, kind, exited, |cs|, now)
    ensures now == NotifiedBy(cs, s, pids, [kind], exited)
  {
    assert Round(|cs|);
  }

  lemma NotifyingStep(cs: seq<Component>, s: seq<ComponentState>, pids: seq<nat>, kind: Kind, exited: nat, k: nat,
    now: seq<ComponentState>)
    requires k < |cs| == |s| == |pids| == |now| && Notifying(cs, s, pids, kind, exited, k, now)
    ensures Notifying(cs, s, pids, kind, exited, k + 1,
              if cs[k].kind == kind then now[k := NotifiedOne(now[k], pids[k], exited)] else now)
  {
    assert Round(k);
    assert NotifiedUpTo(cs, s, pids, [kind], exited, k + 1) ==
        if cs[k].kind == kind then now[k := NotifiedOne(now[k], pids[k], exited)] else now;
  }

  /** Telling a manager once more, whether or not it was told before, is telling it once. */
  lemma ToldAgain(cs: seq<Component>, s: seq<ComponentState>, pids: seq<nat>, kinds: seq<Kind>, kind: Kind, exited: nat)
    requires |cs| == |s| == |pids|
    ensures NotifiedBy(cs, NotifiedBy(cs, s, pids, kinds, exited), pids, [kind], exited) ==
              NotifiedBy(cs, s, pids, kinds + [kind], exited)
    ensures kind in kinds ==> NotifiedBy(cs, s, pids, kinds + [kind], exited) == NotifiedBy(cs, s, pids, kinds, exited)
  {
  }

  /** Whom a led list of listeners calls after the session, as often as registered. */
  function Managers(listeners: seq<Listener>): (r: seq<Kind>)
    requires Led(listeners)
    ensures |r| == |listeners| - 1 && forall i :: 0 <= i < |r| ==> r[i] == listeners[i + 1].kind
  {
    seq(|listeners| - 1, i requires 0 <= i < |listeners| - 1 => listeners[i + 1].kind)
  }

  function Halted(state: ComponentState): ComponentState {
    if state == Running then Stopped else state
  }

  function HaltOf(kind: Kind, state: ComponentState): seq<Milestone> {
    if state == Running then [Milestone(kind, Stopped)] else []
  }

  /** Component states after the running ones from position i on were stopped. */
  function HaltedFrom(s: seq<ComponentState>, i: nat): (r: seq<ComponentState>)
    requires i <= |s|
    ensures |r| == |s| && forall j :: 0 <= j < |s| ==> r[j] == if j < i then s[j] else Halted(s[j])
  {
    s[..i] + seq(|s| - i, j requires 0 <= j < |s| - i => Halted(s[i + j]))
  }

  /** The milestones of stopping the running ones among the first k components, the last one first. */
  function HaltsOf(cs: seq<Component>, s: seq<ComponentState>, k: nat): seq<Milestone>
    requires k <= |cs| == |s|
  {
    if k == 0 then [] else HaltOf(cs[k - 1].kind, s[k - 1]) + HaltsOf(cs, s, k - 1)
  }

  ghost predicate Halting(cs: seq<Component>, i: nat, s: seq<ComponentState>, was: seq<Milestone>,
      now: seq<ComponentState>, so: seq<Milestone>)
    requires i <= |cs| == |s|
  {
    forall k: nat {:trigger Round(k)} :: k == i ==>
      now == HaltedFrom(s, k) && was + HaltsOf(cs, s, |cs|) == so + HaltsOf(cs, s, k)
  }

  lemma HaltStep(cs: seq<Component>, s: seq<ComponentState>, i: nat, so: seq<Milestone>)
    requires i < |cs| == |s|
    ensures HaltedFrom(s, i) == HaltedFrom(s, i + 1)[i := Halted(s[i])]
    ensures so + HaltsOf(cs, s, i + 1) == so + HaltOf(cs[i].kind, s[i]) + HaltsOf(cs, s, i)
  {
  }

  /** Of the first k components those from position i on were stopped, the last one first. */
  ghost predicate RollingBack(cs: seq<Component>, i: nat, k: nat, s: seq<ComponentState>, was: seq<Milestone>,
      now: seq<ComponentState>, so: seq<Milestone>)
    requires i <= k <= |cs| == |s|
  {
    forall r: nat {:trigger Round(r)} :: r == i ==>
      now == Overwritten(s, r, k, Stopped) && was + StopsOf(cs[..k]) == so + StopsOf(cs[..r])
  }

  lemma OneMore(cs: seq<Component>, k: nat, before: seq<Milestone>)
    requires k < |cs|
    ensures RunsOf(cs[..k + 1]) == RunsOf(cs[..k]) + [Milestone(cs[k].kind, Running)]
    ensures before + StopsOf(cs[..k + 1]) == before + [Milestone(cs[k].kind, Stopped)] + StopsOf(cs[..k])
  {
    assert cs[..k + 1][..k] == cs[..k];
  }

  /** s with v at the positions from lo to hi. */
  function Overwritten(s: seq<ComponentState>, lo: nat, hi: nat, v: ComponentState): (r: seq<ComponentState>)
    requires lo <= hi <= |s|
    ensures |r| == |s| && forall j :: 0 <= j < |s| ==> r[j] == if lo <= j < hi then v else s[j]
  {
    s[..lo] + seq(hi - lo, _ => v) + s[hi..]
  }

  datatype Before = Before(states: seq<ComponentState>, live: set<Handle>, milestones: seq<Milestone>)

  /** Component k could not be started: a fresh one failed, another kept its state. */
  function FailedAt(s: seq<ComponentState>, k: nat): seq<ComponentState>
    requires k < |s|
  {
    s[k := if Startable(s[k]) then Failed else s[k]]
  }

  /** The session listens first and only once. */
  predicate Led(listeners: seq<Listener>) {
    && listeners != [] && listeners[0] == SessionListener
    && forall i :: 1 <= i < |listeners| ==> listeners[i].ManagerListener?
  }

  /** The manager of one component registered again, perhaps, and nobody else. */
  predicate Joined(before: seq<Listener>, after: seq<Listener>, kind: Kind) {
    before <= after && forall i :: |before| <= i < |after| ==> after[i] == ManagerListener(kind)
  }

  function ManagersOf(cs: seq<Component>): seq<Listener> {
    seq(|cs|, i requires 0 <= i < |cs| => ManagerListener(cs[i].kind))
  }

  predicate InStartOrder(cs: seq<Component>) {
    forall i, j :: 0 <= i < j < |cs| ==> InOrder(cs[i].kind, cs[j].kind)
  }

  lemma InOrderStill(cs: seq<Component>, c: Component)
    requires InStartOrder(cs) && forall d :: d in cs ==> InOrder(d.kind, c.kind)
    ensures InStartOrder(cs + [c]) && c !in cs
  {
    assert c in cs ==> InOrder(c.kind, c.kind);
  }

  predicate Startable(state: ComponentState) {
    state == Created || state == Preparing
  }

  /** Kinds are distinct and the compositor comes before the desktop. */
  predicate InOrder(earlier: Kind, later: Kind) {
    earlier != later && !(earlier == Ldde && later == Weston)
  }
}
