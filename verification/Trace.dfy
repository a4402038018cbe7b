/** The history of a run as seen from outside: component state changes, process starts and ends, readiness
    probes, exits reported, and the supervisor closing and reopening. A monitor replays it; theorems say
    what an accepted history looks like without mentioning the monitor. */
module Trace {
  import opened Focus
  import opened Transitions
  import opened Probes

  /** Names a process for its whole life; serial numbers never repeat. */
  datatype Handle = Handle(kind: Kind, serial: nat)

  /** Settled: the exit of this pid was reported, or the process was ended on request. Orphaned: the component
      let go of a supervisor that was replaced, and so of a process it may have had there. */
  datatype Event =
    | Entered(kind: Kind, state: ComponentState)
    | Spawned(handle: Handle, pid: nat, environment: seq<string>)
    | Ended(handle: Handle)
    | Probed(pid: nat, look: Look, at: nat)
    | Settled(pid: nat, reported: bool)
    | ShutDown
    | Reopened
    | Orphaned(kind: Kind)

  /** The pid and the environment a process was started with. */
  datatype Birth = Birth(pid: nat, environment: seq<string>)

  /** Component states; live, ended and started processes; whose pid is whose; the last probe of each pid;
      the pids settled since the supervisor was last opened, and every exit reported, in order; and the
      processes of its kind that lived when a component last became Running. */
  datatype Monitor = Monitor(
    states: map<Kind, ComponentState>, live: set<Handle>, ended: set<Handle>, born: map<Handle, Birth>,
    owner: map<nat, Handle>, looks: map<nat, Look>, settled: set<nat>, reports: seq<nat>, reopenings: nat,
    isOpen: bool, milestones: seq<Milestone>, crews: map<Kind, set<Handle>>)

  /** A component became Running, or was stopped. */
  datatype Milestone = Milestone(kind: Kind, state: ComponentState)

  function NewMilestone(e: Event): seq<Milestone> {
    if e.Entered? && (e.state == Running || e.state == Stopped) then [Milestone(e.kind, e.state)] else []
  }

  predicate LddeLive(m: Monitor) {
    exists h :: h in m.live && h.kind == Ldde
  }

  predicate WestonUpOrFailed(m: Monitor) {
    Weston in m.states ==> m.states[Weston] == Running || m.states[Weston] == Failed
  }

  /** What the dependency order and the shutdown rule ask of a process start. */
  predicate MayStart(m: Monitor, h: Handle) {
    && m.isOpen && h !in m.live && h !in m.ended && h !in m.born
    && (h.kind == Ldde && Weston in m.states ==> m.states[Weston] == Running)
    && (h.kind == Weston ==> !LddeLive(m))
  }

  /** A living process of this kind has just answered that it is ready. */
  predicate Proven(m: Monitor, kind: Kind) {
    exists p :: p in m.looks && ProvenBy(m, kind, p)
  }

  predicate ProvenBy(m: Monitor, kind: Kind, pid: nat) {
    && pid in m.looks && StatusOf(m.looks[pid]) == Ready
    && pid in m.owner && m.owner[pid].kind == kind && m.owner[pid] in m.live
  }

  /** What the dependency order and readiness ask of a change of state. */
  predicate MayEnter(m: Monitor, kind: Kind, state: ComponentState) {
    && (kind == Weston && LddeLive(m) ==> state == Running || state == Failed)
    && (state == Running ==> Proven(m, kind))
  }

  /** The process that had this pid has ended. */
  predicate DeadPid(m: Monitor, pid: nat) {
    pid in m.owner && m.owner[pid] in m.ended
  }

  function LiveOf(m: Monitor, kind: Kind): set<Handle> {
    set h | h in m.live && h.kind == kind
  }

  /** The processes of its kind that lived when the component last became Running. */
  function CrewOf(m: Monitor, kind: Kind): set<Handle> {
    if kind in m.crews then m.crews[kind] else {}
  }

  /** The environment a process was started with. */
  function EnvironmentOf(m: Monitor, h: Handle): seq<string> {
    if h in m.born then m.born[h].environment else []
  }

  /** What may happen next. A component follows its table, and a reset puts it back to Created. */
  predicate Allowed(m: Monitor, e: Event) {
    match e
    case Entered(kind, state) =>
      && MayEnter(m, kind, state)
      && (kind in m.states && state != Created ==> IsValidComponentTransition(kind, m.states[kind], state))
    case Spawned(h, pid, environment) => MayStart(m, h) && pid !in m.owner
    case Ended(h) => h in m.live
    case Probed(pid, look, at) => true
    case Settled(pid, reported) =>
      if reported then pid !in m.settled && DeadPid(m, pid) else pid == 0 || DeadPid(m, pid)
    case ShutDown => true
    case Reopened => true
    case Orphaned(kind) => true
  }

  function Apply(m: Monitor, e: Event): Monitor {
    match e
    case Entered(kind, state) =>
      m.(states := m.states[kind := state], milestones := m.milestones + NewMilestone(e),
         crews := if state == Running then m.crews[kind := LiveOf(m, kind)] else m.crews)
    case Spawned(h, pid, environment) =>
      m.(live := m.live + {h}, born := m.born[h := Birth(pid, environment)], owner := m.owner[pid := h],
         looks := m.looks - {pid})
    case Ended(h) => m.(live := m.live - {h}, ended := m.ended + {h})
    case Probed(pid, look, at) => m.(looks := m.looks[pid := look])
    case Settled(pid, reported) =>
      m.(settled := m.settled + {pid}, reports := m.reports + if reported then [pid] else [])
    case ShutDown => m.(isOpen := false)
    case Reopened => m.(isOpen := true, settled := {}, reopenings := m.reopenings + 1)
    case Orphaned(kind) => m.(crews := m.crews - {kind})
  }

  const UNUSED: Monitor := Monitor(map[], {}, {}, map[], map[], map[], {}, [], 0, false, [], map[])

  /** A history together with what the monitor saw before each event, and its present state. */
  datatype Log = Log(events: seq<Event>, seen: seq<Monitor>, monitor: Monitor)

  predicate Follows(before: Monitor, e: Event, after: Monitor) {
    Allowed(before, e) && after == Apply(before, e)
  }

  /** Every event was allowed when it happened. */
  predicate Accepted(l: Log) {
    && |l.seen| == |l.events| + 1 && l.seen[0] == UNUSED && l.seen[|l.events|] == l.monitor
    && forall i {:trigger l.events[i]} :: 0 <= i < |l.events| ==> Follows(l.seen[i], l.events[i], l.seen[i + 1])
  }

  type AcceptedLog = l: Log | Accepted(l) witness Log([], [UNUSED], UNUSED)

  const EMPTY_LOG: AcceptedLog := Log([], [UNUSED], UNUSED)

  function Extend(l: AcceptedLog, e: Event): (r: AcceptedLog)
    requires Allowed(l.monitor, e)
    ensures r.monitor == Apply(l.monitor, e) && r.events == l.events + [e] && r.seen[..|l.seen|] == l.seen
  {
    Log(l.events + [e], l.seen + [Apply(l.monitor, e)], Apply(l.monitor, e))
  }

  // ---------------------------------------------------------------------------------------
  // What can be read off a history directly

  /** The last state the component entered. */
  ghost predicate LastEntered(t: seq<Event>, kind: Kind, state: ComponentState) {
    exists j :: 0 <= j < |t| && t[j] == Entered(kind, state) && NoEntry(t, kind, j + 1)
  }

  ghost predicate NoEntry(t: seq<Event>, kind: Kind, start: nat) {
    forall i :: start <= i < |t| ==> !(t[i].Entered? && t[i].kind == kind)
  }

  ghost predicate Attached(t: seq<Event>, kind: Kind) {
    !NoEntry(t, kind, 0)
  }

  /** Started and not ended since. */
  ghost predicate Live(t: seq<Event>, h: Handle) {
    exists j :: LiveSince(t, h, j)
  }

  ghost predicate LiveSince(t: seq<Event>, h: Handle, j: int) {
    && 0 <= j < |t| && t[j].Spawned? && t[j].handle == h
    && forall i :: j < i < |t| ==> t[i] != Ended(h)
  }

  /** The entries of a component after one more event. */
  lemma EntryStep(s: seq<Event>, e: Event, kind: Kind)
    ensures e.Entered? && e.kind == kind ==> Attached(s + [e], kind) && LastEntered(s + [e], kind, e.state)
    ensures !(e.Entered? && e.kind == kind) ==> (Attached(s + [e], kind) <==> Attached(s, kind))
  {
    var t := s + [e];
    if e.Entered? && e.kind == kind {
      assert t[|s|] == Entered(kind, e.state) && NoEntry(t, kind, |s| + 1);
    } else {
      assert forall i :: 0 <= i < |s| ==> t[i] == s[i];
    }
  }

  lemma LastEnteredStep(s: seq<Event>, e: Event, kind: Kind, state: ComponentState)
    requires LastEntered(s, kind, state) && !(e.Entered? && e.kind == kind)
    ensures LastEntered(s + [e], kind, state)
  {
    var t := s + [e];
    var j :| 0 <= j < |s| && s[j] == Entered(kind, state) && NoEntry(s, kind, j + 1);
    assert t[j] == s[j] && NoEntry(t, kind, j + 1);
  }

  lemma {:induction false} SeenStates(l: AcceptedLog, n: nat, kind: Kind)
    requires n <= |l.events|
    ensures kind in l.seen[n].states <==> Attached(l.events[..n], kind)
    ensures kind in l.seen[n].states ==> LastEntered(l.events[..n], kind, l.seen[n].states[kind])
  {
    if n > 0 {
      var s, e := l.events[..n - 1], l.events[n - 1];
      SeenStates(l, n - 1, kind);
      assert Follows(l.seen[n - 1], l.events[n - 1], l.seen[n]);
      assert l.events[..n] == s + [e];
      EntryStep(s, e, kind);
      if kind in l.seen[n - 1].states && !(e.Entered? && e.kind == kind) {
        LastEnteredStep(s, e, kind, l.seen[n - 1].states[kind]);
      }
    }
  }

  /** Whether a process is live after one more event. */
  lemma LiveStep(s: seq<Event>, e: Event, h: Handle)
    ensures e.Spawned? && e.handle == h ==> Live(s + [e], h)
    ensures e == Ended(h) ==> !Live(s + [e], h)
    ensures !(e.Spawned? && e.handle == h) && e != Ended(h) ==> (Live(s + [e], h) <==> Live(s, h))
  {
    var t := s + [e];
    assert t[|s|] == e && forall i :: 0 <= i < |s| ==> t[i] == s[i];
    if e.Spawned? && e.handle == h {
      assert LiveSince(t, h, |s|);
    } else if e != Ended(h) {
      if Live(s, h) {
        var j :| LiveSince(s, h, j);
        assert LiveSince(t, h, j);
      }
      if Live(t, h) {
        var j :| LiveSince(t, h, j);
        assert LiveSince(s, h, j);
      }
    }
  }

  lemma {:induction false} SeenLive(l: AcceptedLog, n: nat, h: Handle)
    requires n <= |l.events|
    ensures h in l.seen[n].live <==> Live(l.events[..n], h)
  {
    if n > 0 {
      SeenLive(l, n - 1, h);
      assert Follows(l.seen[n - 1], l.events[n - 1], l.seen[n]);
      assert l.events[..n] == l.events[..n - 1] + [l.events[n - 1]];
      LiveStep(l.events[..n - 1], l.events[n - 1], h);
    }
  }

  /** The milestones of a history, in order. */
  function Milestones(t: seq<Event>): seq<Milestone> {
    if t == [] then [] else Milestones(t[..|t| - 1]) + NewMilestone(t[|t| - 1])
  }

  lemma {:induction false} SeenMilestones(l: AcceptedLog, n: nat)
    requires n <= |l.events|
    ensures l.seen[n].milestones == Milestones(l.events[..n])
  {
    if n > 0 {
      SeenMilestones(l, n - 1);
      assert Follows(l.seen[n - 1], l.events[n - 1], l.seen[n]);
      assert l.events[..n][..n - 1] == l.events[..n - 1];
    }
  }

  /** The exits reported in a history, in order. */
  function Reports(t: seq<Event>): seq<nat> {
    if t == [] then [] else Reports(t[..|t| - 1]) + NewReport(t[|t| - 1])
  }

  function NewReport(e: Event): seq<nat> {
    if e.Settled? && e.reported then [e.pid] else []
  }

  lemma {:induction false} SeenReports(l: AcceptedLog, n: nat)
    requires n <= |l.events|
    ensures l.seen[n].reports == Reports(l.events[..n])
  {
    if n > 0 {
      SeenReports(l, n - 1);
      assert Follows(l.seen[n - 1], l.events[n - 1], l.seen[n]);
      assert l.events[..n][..n - 1] == l.events[..n - 1];
    }
  }

  lemma {:induction false} SeenOrder(l: AcceptedLog, n: nat)
    requires n <= |l.events|
    ensures LddeLive(l.seen[n]) ==> WestonUpOrFailed(l.seen[n])
  {
    if n > 0 {
      SeenOrder(l, n - 1);
      assert Follows(l.seen[n - 1], l.events[n - 1], l.seen[n]);
    }
  }

  /** A state entered after another is the target of a table edge, or Created after a reset. */
  lemma EntriesFollowTheTable(l: AcceptedLog, n: nat, source: ComponentState)
    requires n < |l.events| && l.events[n].Entered? && LastEntered(l.events[..n], l.events[n].kind, source)
    ensures l.events[n].state == Created || IsValidComponentTransition(l.events[n].kind, source, l.events[n].state)
  {
    var kind := l.events[n].kind;
    SeenStates(l, n, kind);
    LastEnteredIsUnique(l.events[..n], kind, source, l.seen[n].states[kind]);
    assert Follows(l.seen[n], l.events[n], l.seen[n + 1]);
  }

  lemma LastEnteredIsUnique(t: seq<Event>, kind: Kind, a: ComponentState, b: ComponentState)
    requires LastEntered(t, kind, a) && LastEntered(t, kind, b)
    ensures a == b
  {
    var i :| 0 <= i < |t| && t[i] == Entered(kind, a) && NoEntry(t, kind, i + 1);
    var j :| 0 <= j < |t| && t[j] == Entered(kind, b) && NoEntry(t, kind, j + 1);
    assert !(i < j) && !(j < i);
  }

  /** Weston is Running or Failed whenever it is attached and an LDDE process is live. */
  ghost predicate DesktopNeedsCompositor(t: seq<Event>) {
    (exists h: Handle :: h.kind == Ldde && Live(t, h)) && Attached(t, Weston) ==>
      LastEntered(t, Weston, Running) || LastEntered(t, Weston, Failed)
  }

  /** Event n respects the start order of the two components. */
  ghost predicate StartsInOrder(t: seq<Event>, n: nat)
    requires n < |t|
  {
    t[n].Spawned? ==>
      var before := t[..n];
      && (t[n].handle.kind == Ldde && Attached(before, Weston) ==> LastEntered(before, Weston, Running))
      && (t[n].handle.kind == Weston ==> forall h: Handle :: h.kind == Ldde ==> !Live(before, h))
  }

  /** In an accepted history LDDE starts only with Weston Running, Weston never starts under a live
      LDDE, and at every moment a live LDDE has Weston Running or Failed. */
  lemma DependencyOrder(l: AcceptedLog, n: nat)
    requires n <= |l.events|
    ensures DesktopNeedsCompositor(l.events[..n])
    ensures n < |l.events| ==> StartsInOrder(l.events, n)
  {
    var before, m := l.events[..n], l.seen[n];
    SeenOrder(l, n);
    SeenStates(l, n, Weston);
    forall h: Handle
      ensures h in m.live <==> Live(before, h)
    {
      SeenLive(l, n, h);
    }
    if n < |l.events| {
      assert Follows(m, l.events[n], l.seen[n + 1]);
    }
  }

  /** Only the component of this kind moved, started or ended anything. */
  ghost predicate OthersKept(before: Monitor, after: Monitor, kind: Kind) {
    before == after || forall k: Kind {:trigger Apart(k)} :: k == kind ==> KeptApart(before, after, k)
  }

  ghost predicate KeptApart(before: Monitor, after: Monitor, kind: Kind) {
    && after.isOpen == before.isOpen
    && (forall k :: k in before.states ==> k in after.states && (k != kind ==> after.states[k] == before.states[k]))
    && (forall k :: k in after.states && k != kind ==> k in before.states)
    && (forall h: Handle :: h.kind != kind ==> (h in after.live <==> h in before.live))
    && (forall k: Kind :: k != kind ==> CrewOf(after, k) == CrewOf(before, k))
    && Remembers(before, after) && after.reports == before.reports && MarksApart(before, after, kind)
  }

  /** Only processes of this kind were marked. */
  predicate MarksApart(before: Monitor, after: Monitor, kind: Kind) {
    forall p :: p in after.settled ==> p in before.settled || p == 0 || OwnedBy(after, p, kind)
  }

  lemma MarksApartTrans(a: Monitor, b: Monitor, c: Monitor, kind: Kind)
    requires MarksApart(a, b, kind) && MarksApart(b, c, kind) && Remembers(b, c)
    ensures MarksApart(a, c, kind)
  {
  }

  predicate OwnedBy(m: Monitor, pid: nat, kind: Kind) {
    pid in m.owner && m.owner[pid].kind == kind
  }

  lemma SpawnKeepsOthers(m: Monitor, h: Handle, pid: nat, environment: seq<string>)
    requires MayStart(m, h) && pid !in m.owner
    ensures OthersKept(m, Apply(m, Spawned(h, pid, environment)), h.kind)
  {
    assert KeptApart(m, Apply(m, Spawned(h, pid, environment)), h.kind);
  }

  lemma EntryKeepsOthers(m: Monitor, kind: Kind, state: ComponentState)
    ensures OthersKept(m, Apply(m, Entered(kind, state)), kind)
  {
    assert KeptApart(m, Apply(m, Entered(kind, state)), kind);
  }

  lemma OrphanKeepsOthers(m: Monitor, kind: Kind)
    ensures OthersKept(m, Apply(m, Orphaned(kind)), kind)
  {
    assert KeptApart(m, Apply(m, Orphaned(kind)), kind);
  }

  lemma LooksKeepOthers(before: Monitor, after: Monitor, pid: nat, kind: Kind)
    requires OnlyLooked(before, after, pid)
    ensures OthersKept(before, after, kind)
  {
    assert KeptApart(before, after, kind);
  }

  /** Nothing about processes started or ended is forgotten. */
  predicate Remembers(before: Monitor, after: Monitor) {
    && (forall p :: p in before.owner ==> p in after.owner && after.owner[p] == before.owner[p])
    && (forall h :: h in before.born ==> h in after.born && after.born[h] == before.born[h])
    && before.ended <= after.ended
  }

  lemma OthersKeptTrans(a: Monitor, b: Monitor, c: Monitor, kind: Kind)
    requires OthersKept(a, b, kind) && OthersKept(b, c, kind)
    ensures OthersKept(a, c, kind)
  {
    assert Apart(kind);
    if a != b && b != c {
      MarksApartTrans(a, b, c, kind);
      assert KeptApart(a, c, kind);
    }
  }

  /** Nothing but the look at this pid is different. */
  ghost predicate OnlyLooked(before: Monitor, after: Monitor, pid: nat) {
    after == before.(looks := after.looks) && after.looks - {pid} == before.looks - {pid}
  }

  /** No process of this kind is alive. */
  predicate NoneLive(m: Monitor, kind: Kind) {
    forall h: Handle :: h in m.live ==> h.kind != kind
  }

  /** What the monitor saw depends on the events only. */
  lemma {:induction false} SamePast(a: AcceptedLog, b: AcceptedLog, n: nat)
    requires n <= |a.events| && a.events <= b.events
    ensures a.seen[n] == b.seen[n]
  {
    if n > 0 {
      SamePast(a, b, n - 1);
      assert Follows(a.seen[n - 1], a.events[n - 1], a.seen[n]) && Follows(b.seen[n - 1], b.events[n - 1], b.seen[n]);
      assert a.events[n - 1] == b.events[n - 1];
    }
  }

  /** What a longer history keeps: processes stay known, ended ones ended, and settled pids settled as long
      as the supervisor is not reopened. */
  predicate Later(before: Monitor, after: Monitor) {
    && Remembers(before, after)
    && before.reports <= after.reports && before.reopenings <= after.reopenings
    && (before.reopenings == after.reopenings ==> before.settled <= after.settled)
  }

  lemma LaterStep(m: Monitor, e: Event)
    requires Allowed(m, e)
    ensures Later(m, Apply(m, e))
  {
  }

  lemma {:induction false} LaterSeen(l: AcceptedLog, i: nat, n: nat)
    requires i <= n <= |l.events|
    ensures Later(l.seen[i], l.seen[n])
  {
    if i < n {
      LaterSeen(l, i, n - 1);
      assert Follows(l.seen[n - 1], l.events[n - 1], l.seen[n]);
      LaterStep(l.seen[n - 1], l.events[n - 1]);
    }
  }

  /** Whatever goes on, a longer history only adds. */
  lemma HistoryKeeps(a: AcceptedLog, b: AcceptedLog)
    requires a.events <= b.events
    ensures Later(a.monitor, b.monitor)
  {
    SamePast(a, b, |a.events|);
    LaterSeen(b, |a.events|, |b.events|);
  }

  /** A dead pid stays dead. */
  lemma DeadForGood(a: AcceptedLog, b: AcceptedLog, pid: nat)
    requires a.events <= b.events && DeadPid(a.monitor, pid)
    ensures DeadPid(b.monitor, pid)
  {
    HistoryKeeps(a, b);
  }

  /** The component is Running since a moment at which this was the one living process of its kind. */
  predicate RunsOn(m: Monitor, kind: Kind, h: Handle) {
    kind in m.states && m.states[kind] == Running && CrewOf(m, kind) == {h}
  }

  /** An ended process is not alive, whatever happens. */
  lemma {:induction false} SeenEnded(l: AcceptedLog, n: nat, h: Handle)
    requires n <= |l.events| && h in l.seen[n].ended
    ensures h !in l.seen[n].live
  {
    if n > 0 {
      assert Follows(l.seen[n - 1], l.events[n - 1], l.seen[n]);
      if h in l.seen[n - 1].ended {
        SeenEnded(l, n - 1, h);
      }
    }
  }

  /** Only ended processes are reported or marked, and an ended process is not alive. */
  lemma {:induction false} SettledIsDead(l: AcceptedLog, n: nat, pid: nat)
    requires n <= |l.events| && (pid in l.seen[n].settled || pid in l.seen[n].reports)
    ensures pid == 0 || DeadPid(l.seen[n], pid)
    ensures DeadPid(l.seen[n], pid) ==> l.seen[n].owner[pid] !in l.seen[n].live
  {
    assert n > 0 ==> Follows(l.seen[n - 1], l.events[n - 1], l.seen[n]);
    if pid in l.seen[n - 1].settled || pid in l.seen[n - 1].reports {
      SettledIsDead(l, n - 1, pid);
    }
    if DeadPid(l.seen[n], pid) {
      SeenEnded(l, n, l.seen[n].owner[pid]);
    }
  }

  lemma {:induction false} RanOnSeen(l: AcceptedLog, i: nat, n: nat, kind: Kind, h: Handle)
    requires i <= n <= |l.events| && h in l.seen[i].ended && RunsOn(l.seen[n], kind, h)
    ensures RunsOn(l.seen[i], kind, h)
  {
    if i < n {
      assert Follows(l.seen[n - 1], l.events[n - 1], l.seen[n]);
      LaterSeen(l, i, n - 1);
      SeenEnded(l, n - 1, h);
      assert h !in LiveOf(l.seen[n - 1], kind);
      RanOnSeen(l, i, n - 1, kind, h);
    }
  }

  /** No component becomes Running on a process that has ended: one that runs on it did so before. */
  lemma NoReturnToTheDead(a: AcceptedLog, b: AcceptedLog, kind: Kind, h: Handle)
    requires a.events <= b.events && h in a.monitor.ended && RunsOn(b.monitor, kind, h)
    ensures RunsOn(a.monitor, kind, h)
  {
    SamePast(a, b, |a.events|);
    RanOnSeen(b, |a.events|, |b.events|, kind, h);
  }

  /** The exit of this process was reported, or it was ended on request, or the supervisor was reopened
      since it had been so often. */
  predicate Accounted(m: Monitor, h: Handle, reopenings: nat) {
    m.reopenings > reopenings || (h in m.born && m.born[h].pid in m.settled)
  }

  /** Marks stay, unless the supervisor is reopened. */
  lemma AccountedForGood(a: AcceptedLog, b: AcceptedLog, reopenings: nat)
    requires a.events <= b.events && reopenings <= a.monitor.reopenings
    ensures reopenings <= b.monitor.reopenings
    ensures forall h :: Accounted(a.monitor, h, reopenings) ==> Accounted(b.monitor, h, reopenings)
  {
    HistoryKeeps(a, b);
  }

  lemma {:induction false} ClosedUntilReopened(l: AcceptedLog, i: nat, n: nat)
    requires i < n <= |l.events| && l.events[i] == ShutDown
    requires forall r :: i < r < n ==> l.events[r] != Reopened
    ensures !l.seen[n].isOpen
  {
    assert Follows(l.seen[n - 1], l.events[n - 1], l.seen[n]);
    if i < n - 1 {
      ClosedUntilReopened(l, i, n - 1);
    }
  }

  /** Between a shutdown and a later process start the supervisor was reopened. */
  lemma NoSpawnAfterShutdown(l: AcceptedLog, i: nat, j: nat)
    requires i < j < |l.events| && l.events[i] == ShutDown && l.events[j].Spawned?
    ensures exists r :: i < r < j && l.events[r] == Reopened
  {
    assert Follows(l.seen[j], l.events[j], l.seen[j + 1]);
    if forall r :: i < r < j ==> l.events[r] != Reopened {
      ClosedUntilReopened(l, i, j);
    }
  }

  lemma {:induction false} SettledUntilReopened(l: AcceptedLog, i: nat, n: nat, pid: nat)
    requires i < n <= |l.events| && l.events[i].Settled? && l.events[i].pid == pid
    requires forall r :: i < r < n ==> l.events[r] != Reopened
    ensures pid in l.seen[n].settled
  {
    assert Follows(l.seen[n - 1], l.events[n - 1], l.seen[n]);
    if i < n - 1 {
      SettledUntilReopened(l, i, n - 1, pid);
    }
  }

  /** An exit is reported at most once, and never after the process was ended on request, unless the
      supervisor was reopened in between. */
  lemma ExitsReportedOnce(l: AcceptedLog, i: nat, j: nat)
    requires i < j < |l.events| && l.events[i].Settled?
    requires l.events[j] == Settled(l.events[i].pid, true)
    ensures exists r :: i < r < j && l.events[r] == Reopened
  {
    assert Follows(l.seen[j], l.events[j], l.seen[j + 1]);
    if forall r :: i < r < j ==> l.events[r] != Reopened {
      SettledUntilReopened(l, i, j, l.events[i].pid);
    }
  }

  // ---------------------------------------------------------------------------------------
  // Readiness

  /** Event j is the last probe of the pid, and the process was started before it. */
  ghost predicate LastProbe(t: seq<Event>, pid: nat, look: Look, j: int) {
    && 0 <= j < |t| && t[j].Probed? && t[j].pid == pid && t[j].look == look
    && forall i :: j < i < |t| ==> !ConcernsPid(t[i], pid)
  }

  predicate ConcernsPid(e: Event, pid: nat) {
    (e.Probed? || e.Spawned?) && e.pid == pid
  }

  lemma LastProbeStep(s: seq<Event>, e: Event, pid: nat, look: Look, j: int)
    requires LastProbe(s, pid, look, j) && !ConcernsPid(e, pid)
    ensures LastProbe(s + [e], pid, look, j)
  {
    assert (s + [e])[j] == s[j];
  }

  lemma {:induction false} SeenLooks(l: AcceptedLog, n: nat, pid: nat) returns (j: int)
    requires n <= |l.events| && pid in l.seen[n].looks
    ensures LastProbe(l.events[..n], pid, l.seen[n].looks[pid], j)
  {
    assert n > 0 ==> Follows(l.seen[n - 1], l.events[n - 1], l.seen[n]);
    var s, e := l.events[..n - 1], l.events[n - 1];
    assert l.events[..n] == s + [e];
    if ConcernsPid(e, pid) {
      j := n - 1;
    } else {
      j := SeenLooks(l, n - 1, pid);
      LastProbeStep(s, e, pid, l.seen[n].looks[pid], j);
    }
  }

  lemma {:induction false} SeenOwner(l: AcceptedLog, n: nat, pid: nat) returns (i: int)
    requires n <= |l.events| && pid in l.seen[n].owner
    ensures 0 <= i < n && l.events[i].Spawned? && l.events[i].pid == pid && l.events[i].handle == l.seen[n].owner[pid]
  {
    assert n > 0 ==> Follows(l.seen[n - 1], l.events[n - 1], l.seen[n]);
    if l.events[n - 1].Spawned? && l.events[n - 1].pid == pid {
      i := n - 1;
    } else {
      i := SeenOwner(l, n - 1, pid);
    }
  }

  /** A component becomes Running only on a living process of its kind whose last probe, made after it was
      started, said that it is ready. */
  ghost predicate RunningIsProven(t: seq<Event>, n: nat)
    requires n < |t|
  {
    t[n].Entered? && t[n].state == Running ==>
      exists i, j :: 0 <= i < j < n && StartedAndReady(t, i, j, n)
  }

  ghost predicate StartedAndReady(t: seq<Event>, i: int, j: int, n: nat)
    requires 0 <= i < j < n < |t| && t[n].Entered?
  {
    && t[i].Spawned? && t[i].handle.kind == t[n].kind && Live(t[..n], t[i].handle)
    && t[j].Probed? && LastProbe(t[..n], t[i].pid, t[j].look, j) && StatusOf(t[j].look) == Ready
  }

  lemma EveryRunningIsProven(l: AcceptedLog, n: nat)
    requires n < |l.events|
    ensures RunningIsProven(l.events, n)
  {
    var e, m := l.events[n], l.seen[n];
    if e.Entered? && e.state == Running {
      assert Follows(m, l.events[n], l.seen[n + 1]);
      var p :| p in m.looks && ProvenBy(m, e.kind, p);
      var j := SeenLooks(l, n, p);
      var i := SeenOwner(l, n, p);
      SeenLive(l, n, m.owner[p]);
      assert l.events[..n][j] == l.events[j] && l.events[..n][i] == l.events[i];
      assert i < j by {
        assert ConcernsPid(l.events[..n][i], p);
      }
      assert StartedAndReady(l.events, i, j, n);
    }
  }
}
