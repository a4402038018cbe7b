/** What a run of the daemon is: its operations, the moments between them, and what each operation does from
    one moment to the next. */
module Runs {
  import opened Focus
  import opened Results
  import opened Transitions
  import opened Trace
  import opened Components
  import opened Sessions
  import opened RecoveryConfigs
  import opened AttemptWindow
  import opened Diagnostics
  import opened Recovery

  datatype Operation =
    | Initialize | Prepare | Start | Stop | Fail | Cleanup
    | Recover(reason: Reason, target: Target) | ResetRecovery | Reap | Sleep(ms: nat)

  /** An exit passed on: whose it was, the managers called for it, in order, and those that had the supervisor
      when it was reported. */
  datatype Call = Call(kind: Kind, attached: set<Kind>, managers: seq<Kind>)

  /** Nobody was left out. */
  predicate Complete(call: Call) {
    forall kind :: kind in call.attached ==> kind in call.managers
  }

  /** Everything that can be seen of the daemon between two operations. */
  datatype Moment = Moment(
    session: SessionState, supervised: bool, closed: bool, registered: set<Handle>, dead: set<Handle>,
    states: seq<ComponentState>, attached: seq<bool>, handles: seq<Option<Handle>>, ready: bool,
    log: AcceptedLog, now: nat, refusals: nat,
    recovery: RecoveryState, requests: seq<Request>, outcomes: seq<Outcome>,
    heard: seq<nat>, told: seq<Call>)

  // ---------------------------------------------------------------------------------------
  // Whom an exit concerns

  predicate Mentions(name: string, part: string) {
    exists i :: 0 <= i <= |name| - |part| && PartAt(name, i, part)
  }

  predicate PartAt(name: string, i: nat, part: string)
    requires i + |part| <= |name|
  {
    name[i..i + |part|] == part
  }

  /** What the session's exit listener asks recovery for, by the name of the process. */
  function Concerned(kind: Kind): Option<(Reason, Target)> {
    match kind
    case Weston => Some((WestonUnexpectedExit, WestonPart))
    case Ldde => Some((LddeUnexpectedExit, LddePart))
    case Other(name) =>
      if Mentions(name, "weston") then Some((WestonUnexpectedExit, WestonPart))
      else if Mentions(name, "ldde") then Some((LddeUnexpectedExit, LddePart))
      else None
  }

  /** The name of the process a component of this kind runs. */
  function ProcessName(kind: Kind): string {
    match kind
    case Weston => "weston"
    case Ldde => "ldde"
    case Other(name) => name
  }

  ghost predicate Contains(name: string, part: string) {
    exists before: string, after: string :: name == before + part + after
  }

  lemma MentionedIsContained(name: string, part: string)
    ensures Mentions(name, part) <==> Contains(name, part)
  {
    if Mentions(name, part) {
      var i :| 0 <= i <= |name| - |part| && PartAt(name, i, part);
      assert name == name[..i] + part + name[i + |part|..];
    }
    if Contains(name, part) {
      var before, after :| name == before + part + after;
      assert PartAt(name, |before|, part);
    }
  }

  /** An exit concerns Weston if the name of the process contains that of Weston, else LDDE if it contains
      that of LDDE, and else nobody. */
  lemma ExitsByName(kind: Kind)
    ensures var name := ProcessName(kind);
            && (Concerned(kind) == Some((WestonUnexpectedExit, WestonPart)) <==> Contains(name, "weston"))
            && (Concerned(kind) == Some((LddeUnexpectedExit, LddePart)) <==>
                  Contains(name, "ldde") && !Contains(name, "weston"))
            && (Concerned(kind) == None <==> !Contains(name, "weston") && !Contains(name, "ldde"))
  {
    var name := ProcessName(kind);
    MentionedIsContained(name, "weston");
    MentionedIsContained(name, "ldde");
    if kind == Weston {
      assert PartAt(name, 0, "weston");
    }
    if kind == Ldde {
      assert PartAt(name, 0, "ldde");
    }
  }

  // ---------------------------------------------------------------------------------------
  // What each operation does

  /** Time and history go on. */
  ghost predicate Onwards(a: Moment, b: Moment) {
    && a.log.events <= b.log.events && a.now <= b.now && a.dead <= b.dead && a.refusals <= b.refusals
    && |a.states| == |b.states| == |a.handles| == |b.handles| && (a.supervised ==> b.supervised)
    && a.heard <= b.heard && a.told <= b.told && a.outcomes <= b.outcomes
  }

  /** Recovery was not asked and no exit passed on. */
  ghost predicate Undisturbed(a: Moment, b: Moment) {
    && b.recovery == a.recovery && b.requests == a.requests && b.outcomes == a.outcomes
    && b.heard == a.heard && b.told == a.told
  }

  /** Refused: the session and its components stay as they are. */
  ghost predicate Unmoved(a: Moment, b: Moment) {
    b.log == a.log && b.states == a.states && b.session == a.session && b.supervised == a.supervised
  }

  ghost predicate NoneRuns(m: Moment) {
    forall j :: 0 <= j < |m.states| ==> m.states[j] != Running
  }

  ghost predicate NothingLives(m: Moment) {
    m.log.monitor.live == {}
  }

  ghost predicate SameMilestones(a: Moment, b: Moment) {
    b.log.monitor.milestones == a.log.monitor.milestones
  }

  /** READY behind an open and empty supervisor that every manager has, or FAILED by a refusal. */
  ghost predicate AfterInitialize(a: Moment, b: Moment) {
    if a.session in {CREATED, INITIALIZING, STOPPED, FAILED, RECOVERING} then
      || (&& b.session == READY && b.supervised && !b.closed && b.registered == {}
          && (forall j :: 0 <= j < |b.attached| ==> b.attached[j]) && b.states == a.states
          && NothingLives(b) && SameMilestones(a, b))
      || (b.session == FAILED && b.refusals > a.refusals)
    else Unmoved(a, b)
  }

  ghost predicate AfterPrepare(a: Moment, b: Moment) {
    if a.session == CREATED then AfterInitialize(a, b) else Unmoved(a, b)
  }

  /** RUNNING with every component started in order, each on a living process; or FAILED, and then undone. */
  ghost predicate AfterStart(cs: seq<Component>, a: Moment, b: Moment) {
    if a.session in {CREATED, READY} then
      || (b.session == RUNNING && AllUp(cs, a, b))
      || (b.session == FAILED && |a.states| == |cs| && exists k: nat :: k < |cs| && RolledBack(cs, k, a, b))
      || (b.session == FAILED && a.session == CREATED && NothingLives(b) && SameMilestones(a, b))
    else Unmoved(a, b)
  }

  ghost predicate AllUp(cs: seq<Component>, a: Moment, b: Moment) {
    && (forall j :: 0 <= j < |b.states| ==> b.states[j] == Running) && (cs != [] ==> b.supervised)
    && (forall j :: 0 <= j < |b.handles| ==> b.handles[j].Some? && b.handles[j].value in b.log.monitor.live)
    && b.log.monitor.milestones == a.log.monitor.milestones + RunsOf(cs)
  }

  ghost predicate RolledBack(cs: seq<Component>, k: nat, a: Moment, b: Moment)
    requires k < |cs| == |a.states|
  {
    && b.states == FailedAt(Overwritten(a.states, 0, k, Stopped), k)
    && b.log.monitor.milestones == a.log.monitor.milestones + RunsOf(cs[..k]) + StopsOf(cs[..k])
    && b.log.monitor.live <= a.log.monitor.live
  }

  /** Exactly the running components were stopped, the last one first, and nothing is alive. */
  ghost predicate TornDown(cs: seq<Component>, a: Moment, b: Moment) {
    && |a.states| == |cs| && b.states == HaltedFrom(a.states, 0)
    && b.log.monitor.milestones == a.log.monitor.milestones + HaltsOf(cs, a.states, |cs|)
    && NoneRuns(b) && NothingLives(b) && (b.supervised ==> b.closed && b.registered == {})
  }

  ghost predicate AfterStop(cs: seq<Component>, a: Moment, b: Moment) {
    && b.session == (if a.session in {READY, STARTING, RUNNING, RECOVERING} then STOPPED else a.session)
    && if a.session in {CREATED, STOPPING, STOPPED} then Unmoved(a, b) else TornDown(cs, a, b)
  }

  /** FAILED where the table leads there; nothing runs or lives. */
  ghost predicate AfterFail(cs: seq<Component>, a: Moment, b: Moment) {
    && b.session == (if a.session in {STOPPED, FAILED} then a.session else FAILED)
    && TornDown(cs, a, b)
  }

  /** A stop where the session is up; nothing lives. */
  ghost predicate AfterCleanup(a: Moment, b: Moment) {
    && b.session == (if a.session in {READY, STARTING, RUNNING, RECOVERING} then STOPPED else a.session)
    && NothingLives(b) && (b.supervised ==> b.closed && b.registered == {})
  }

  /** What recovery made of a request: one outcome about it, by the settings; a session that ran runs again,
      or FAILED. */
  ghost predicate AfterRecover(c: RecoveryConfig, reason: Reason, requested: Target, a: Moment, b: Moment) {
    if InProgress(a.recovery) then Unmoved(a, b) && Undisturbed(a, b)
    else
      && b.heard == a.heard && b.told == a.told && |b.outcomes| == |a.outcomes| + 1
      && var o := b.outcomes[|a.outcomes|];
      && o.reason == reason && o.target == TargetOf(reason, requested)
      && o.finalState == b.recovery && b.recovery in {Recovered, RecoveryFailed}
      && (b.recovery == RecoveryFailed ==> NoneRuns(b) && NothingLives(b))
      && (a.session == RUNNING ==>
            if b.recovery == Recovered then b.session == RUNNING && b.ready else b.session == FAILED)
      && (if c.enabled && Validate(c).Success? && a.supervised then
            && Chosen(c, reason, o.target, o.attempt, o.policy)
            && |b.requests| == |a.requests| + 1 && a.requests <= b.requests
            && b.requests[|a.requests|].executed ==
                 (o.attempt <= c.maxAttempts && MayActOn(c, reason, o.target))
          else b.requests == a.requests && b.recovery == RecoveryFailed)
  }

  ghost predicate AfterReset(a: Moment, b: Moment) {
    && Unmoved(a, b) && b.heard == a.heard && b.told == a.told && b.outcomes == a.outcomes
    && if InProgress(a.recovery) then b.recovery == a.recovery && b.requests == a.requests
       else b.recovery == Idle && b.requests == []
  }

  ghost predicate AfterSleep(ms: nat, a: Moment, b: Moment) {
    Unmoved(a, b) && b.now >= a.now + ms
  }

  /** The first exit that concerns a part, among those passed on, counted from the first one not seen before. */
  ghost predicate FirstConcerned(told: seq<Call>, seen: nat, i: nat) {
    && seen <= i < |told| && Concerned(told[i].kind).Some?
    && forall j :: seen <= j < i ==> Concerned(told[j].kind).None?
  }

  /** Every registered process that had died is accounted for, and no component runs on it unless the supervisor
      was closed or reopened; and when the session ran and recovery was free, recovery was asked for the part
      the first exit concerned, or for nothing when no exit concerned any. */
  ghost predicate AfterReap(a: Moment, b: Moment) {
    if !a.supervised then Unmoved(a, b) && Undisturbed(a, b)
    else
      && |b.states| == |b.handles|
      && (forall h :: h in a.registered && h in a.dead ==>
            Accounted(b.log.monitor, h, a.log.monitor.reopenings))
      && (!b.closed && b.log.monitor.reopenings == a.log.monitor.reopenings ==>
            forall h, j :: h in a.registered && h in a.dead && 0 <= j < |b.states| && b.states[j] == Running ==>
                             b.handles[j] != Some(h))
      && (a.session == RUNNING && !InProgress(a.recovery) ==> AskedFor(a, b))
  }

  ghost predicate NoneConcerned(told: seq<Call>, seen: nat) {
    forall i :: seen <= i < |told| ==> Concerned(told[i].kind).None?
  }

  /** So far in a pass: before an exit concerned any part nothing was asked, and the first one that did decided
      the first request. */
  ghost predicate OnCourse(told: seq<Call>, seen: nat, outcomes: seq<Outcome>, known: nat, waiting: bool) {
    && seen <= |told| && known <= |outcomes|
    && (NoneConcerned(told, seen) ==> |outcomes| == known && waiting)
    && (forall i: nat {:trigger FirstConcerned(told, seen, i)} :: FirstConcerned(told, seen, i) ==>
          |outcomes| > known && Decides(told[i], outcomes[known]))
  }

  predicate Decides(call: Call, o: Outcome) {
    Concerned(call.kind) == Some((o.reason, o.target))
  }

  /** How many exits had been passed on and outcomes recorded. */
  datatype Mark = Mark(told: nat, outcomes: nat)

  lemma OnCourseStill(told: seq<Call>, seen: nat, outcomes: seq<Outcome>, known: nat, waiting: bool, call: Call,
    more: seq<Outcome>, still: bool)
    requires OnCourse(told, seen, outcomes, known, waiting) && outcomes <= more
    requires waiting && Concerned(call.kind).Some? ==>
               |more| == |outcomes| + 1 && Decides(call, more[|outcomes|])
    requires waiting && Concerned(call.kind).None? ==> more == outcomes && still
    ensures OnCourse(told + [call], seen, more, known, still)
  {
    var now := told + [call];
    assert forall i :: seen <= i < |told| ==> now[i] == told[i];
    if NoneConcerned(now, seen) {
      assert now[|told|] == call;
    }
    forall i: nat | FirstConcerned(now, seen, i)
      ensures |more| > known && Decides(now[i], more[known])
    {
      if i < |told| {
        assert FirstConcerned(told, seen, i);
      } else {
        assert now[|told|] == call;
      }
    }
  }

  ghost predicate AskedFor(a: Moment, b: Moment) {
    && (forall i: nat {:trigger FirstConcerned(b.told, |a.told|, i)} :: FirstConcerned(b.told, |a.told|, i) ==>
          |b.outcomes| > |a.outcomes| && Decides(b.told[i], b.outcomes[|a.outcomes|]))
    && (NoneConcerned(b.told, |a.told|) ==> |b.outcomes| == |a.outcomes|)
  }

  predicate AsksRecovery(op: Operation) {
    op.Recover? || op == ResetRecovery || op == Reap
  }

  /** Time and history went on, and recovery was asked only by an operation that may. */
  ghost predicate WentOn(op: Operation, a: Moment, b: Moment) {
    forall o {:trigger Apart(o)} :: o == op ==> Onwards(a, b) && (!AsksRecovery(o) ==> Undisturbed(a, b))
  }

  /** The operation did what it is for. */
  ghost predicate Fulfilled(c: RecoveryConfig, cs: seq<Component>, op: Operation, a: Moment, b: Moment) {
    forall o {:trigger Apart(o)} :: o == op ==> Effect(c, cs, o, a, b)
  }

  /** What an operation does from one moment to the next. */
  ghost predicate Did(c: RecoveryConfig, cs: seq<Component>, op: Operation, a: Moment, b: Moment) {
    WentOn(op, a, b) && Fulfilled(c, cs, op, a, b)
  }

  lemma Effected(c: RecoveryConfig, cs: seq<Component>, op: Operation, a: Moment, b: Moment)
    ensures Did(c, cs, op, a, b) <==>
              Onwards(a, b) && (!AsksRecovery(op) ==> Undisturbed(a, b)) && Effect(c, cs, op, a, b)
  {
    assert Apart(op);
  }

  lemma Fulfils(c: RecoveryConfig, cs: seq<Component>, op: Operation, a: Moment, b: Moment)
    requires Effect(c, cs, op, a, b)
    ensures Fulfilled(c, cs, op, a, b)
  {
  }

  ghost predicate Effect(c: RecoveryConfig, cs: seq<Component>, op: Operation, a: Moment, b: Moment) {
    match op
    case Initialize => AfterInitialize(a, b)
    case Prepare => AfterPrepare(a, b)
    case Start => AfterStart(cs, a, b)
    case Stop => AfterStop(cs, a, b)
    case Fail => AfterFail(cs, a, b)
    case Cleanup => AfterCleanup(a, b)
    case Recover(reason, target) => AfterRecover(c, reason, target, a, b)
    case ResetRecovery => AfterReset(a, b)
    case Sleep(ms) => AfterSleep(ms, a, b)
    case Reap => AfterReap(a, b)
  }

  /** The moments of a whole run: every operation did what it is for. */
  ghost predicate AllDone(c: RecoveryConfig, cs: seq<Component>, ops: seq<Operation>, moments: seq<Moment>) {
    && |moments| == |ops| + 1
    && forall i {:trigger ops[i]} :: 0 <= i < |ops| ==> Did(c, cs, ops[i], moments[i], moments[i + 1])
  }

  lemma OneMoreDone(c: RecoveryConfig, cs: seq<Component>, ops: seq<Operation>, i: nat, moments: seq<Moment>,
    next: Moment)
    requires i < |ops| && AllDone(c, cs, ops[..i], moments) && Did(c, cs, ops[i], moments[i], next)
    ensures AllDone(c, cs, ops[..i + 1], moments + [next])
  {
    var more := moments + [next];
    forall k | 0 <= k < i + 1
      ensures Did(c, cs, ops[..i + 1][k], more[k], more[k + 1])
    {
      if k < i {
        assert Did(c, cs, ops[..i][k], moments[k], moments[k + 1]);
      }
    }
  }

  lemma {:induction false} LaterInRun(c: RecoveryConfig, cs: seq<Component>, ops: seq<Operation>,
    moments: seq<Moment>, i: nat, j: nat)
    requires AllDone(c, cs, ops, moments) && i <= j <= |ops|
    ensures moments[i].log.events <= moments[j].log.events && moments[i].now <= moments[j].now
    ensures moments[i].told <= moments[j].told && moments[i].outcomes <= moments[j].outcomes
  {
    if i < j {
      LaterInRun(c, cs, ops, moments, i, j - 1);
      assert Did(c, cs, ops[j - 1], moments[j - 1], moments[j]);
      Effected(c, cs, ops[j - 1], moments[j - 1], moments[j]);
    }
  }

  /** A process that is registered and dead when a reap pass begins is accounted for ever after: its exit was
      reported, or it was ended on request, or the supervisor was reopened. */
  lemma ReapsAreThorough(c: RecoveryConfig, cs: seq<Component>, ops: seq<Operation>, moments: seq<Moment>,
    i: nat, j: nat, h: Handle)
    requires AllDone(c, cs, ops, moments) && i < j <= |ops| && ops[i] == Reap && moments[i].supervised
    requires h in moments[i].registered && h in moments[i].dead
    ensures Accounted(moments[j].log.monitor, h, moments[i].log.monitor.reopenings)
  {
    assert Did(c, cs, ops[i], moments[i], moments[i + 1]);
    Effected(c, cs, ops[i], moments[i], moments[i + 1]);
    LaterInRun(c, cs, ops, moments, i + 1, j);
    HistoryKeeps(moments[i].log, moments[i + 1].log);
    AccountedForGood(moments[i + 1].log, moments[j].log, moments[i].log.monitor.reopenings);
  }

  /** The exit of a managed component's process, reported to a running session, starts a recovery of its part:
      the first such exit of a pass decides for which. */
  lemma ExitsStartRecovery(c: RecoveryConfig, cs: seq<Component>, ops: seq<Operation>, moments: seq<Moment>,
    i: nat, n: nat) returns (k: nat)
    requires AllDone(c, cs, ops, moments) && i < |ops| && ops[i] == Reap && moments[i].supervised
    requires moments[i].session == RUNNING && !InProgress(moments[i].recovery)
    requires |moments[i].told| <= n < |moments[i + 1].told| && Concerned(moments[i + 1].told[n].kind).Some?
    ensures FirstConcerned(moments[i + 1].told, |moments[i].told|, k) && k <= n
    ensures |moments[i + 1].outcomes| > |moments[i].outcomes|
    ensures Decides(moments[i + 1].told[k], moments[i + 1].outcomes[|moments[i].outcomes|])
  {
    assert Did(c, cs, ops[i], moments[i], moments[i + 1]);
    Effected(c, cs, ops[i], moments[i], moments[i + 1]);
    k := FindConcerned(moments[i + 1].told, |moments[i].told|, n);
  }

  lemma {:induction false} FindConcerned(told: seq<Call>, seen: nat, n: nat) returns (k: nat)
    requires seen <= n < |told| && Concerned(told[n].kind).Some?
    ensures FirstConcerned(told, seen, k) && k <= n
    decreases n
  {
    if j: nat :| seen <= j < n && Concerned(told[j].kind).Some? {
      k := FindConcerned(told, seen, j);
    } else {
      k := n;
    }
  }

  /** The daemon's own loop: a pause and a reap pass in every round, and a stop in the end. */
  function Rounds(n: nat): seq<Operation> {
    if n == 0 then [Stop] else [Sleep(100), Reap] + Rounds(n - 1)
  }

  lemma {:induction false} RoundsEnd(n: nat)
    ensures |Rounds(n)| == 2 * n + 1 && Rounds(n)[2 * n] == Stop
    ensures forall k: nat :: k < n ==> Rounds(n)[2 * k] == Sleep(100) && Rounds(n)[2 * k + 1] == Reap
  {
    if n > 0 {
      RoundsEnd(n - 1);
      assert Rounds(n) == [Sleep(100), Reap] + Rounds(n - 1);
      forall k: nat | 0 < k < n
        ensures Rounds(n)[2 * k] == Sleep(100) && Rounds(n)[2 * k + 1] == Reap
      {
        assert Rounds(n)[2 * k] == Rounds(n - 1)[2 * (k - 1)];
        assert Rounds(n)[2 * k + 1] == Rounds(n - 1)[2 * (k - 1) + 1];
      }
    }
  }
}
