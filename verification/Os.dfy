/** The operating system as an oracle. Every answer it may give is left open, within a small contract:
    pids are never reused, a dead child is reaped by one successful wait, a blocking wait returns only
    once the child is gone, and the clock never goes back. */
module OperatingSystem {
  import opened Focus
  import opened Results
  import opened Transitions
  import opened Probes
  import opened Trace

  datatype ExitInfo = ExitInfo(signaled: bool, code: int)

  datatype Life = Alive | Zombie(info: ExitInfo) | Reaped

  datatype Child = Child(pid: nat, status: Life)

  datatype Signal = SIGTERM | SIGKILL

  /** A signal sent: a request to end within a grace period, or a kill, forced or after such a request. */
  datatype Sent = Request(pid: nat, at: nat, graceMs: nat) | Kill(pid: nat, at: nat, forced: bool)

  predicate Records(record: Sent, pid: nat, signal: Signal, now: nat) {
    record.pid == pid && record.at == now && record.Kill? == (signal == SIGKILL)
  }

  /** The process was asked to end and its grace period has passed. */
  predicate GraceOver(sent: seq<Sent>, pid: nat, now: nat) {
    exists i :: 0 <= i < |sent| && LeavesNoGrace(sent[i], pid, now)
  }

  predicate LeavesNoGrace(request: Sent, pid: nat, now: nat) {
    request.Request? && request.pid == pid && request.at + request.graceMs <= now
  }

  /** A kill that was not forced came only after the grace period of a request to the same process. */
  predicate Considerate(sent: seq<Sent>) {
    forall j :: 0 <= j < |sent| && sent[j].Kill? && !sent[j].forced ==> GraceOver(sent[..j], sent[j].pid, sent[j].at)
  }

  /** Every kill came only after the grace period of a request to the same process. */
  predicate KillsFollowRequests(sent: seq<Sent>) {
    forall j :: 0 <= j < |sent| && sent[j].Kill? ==> GraceOver(sent[..j], sent[j].pid, sent[j].at)
  }

  /** No kill was forced. */
  ghost predicate Unforced(sent: seq<Sent>) {
    forall j: nat {:trigger Round(j)} :: j < |sent| && sent[j].Kill? ==> !sent[j].forced
  }

  lemma OneMoreSent(sent: seq<Sent>, record: Sent)
    requires Considerate(sent)
    requires record.Kill? && !record.forced ==> GraceOver(sent, record.pid, record.at)
    ensures Considerate(sent + [record])
    ensures Unforced(sent + [record]) <==> Unforced(sent) && (record.Kill? ==> !record.forced)
  {
    var more := sent + [record];
    forall j | 0 <= j < |more| && more[j].Kill? && !more[j].forced
      ensures GraceOver(more[..j], more[j].pid, more[j].at)
    {
      assert more[..j] == if j < |sent| then sent[..j] else sent;
    }
    if Unforced(sent) && (record.Kill? ==> !record.forced) {
      forall j: nat | j < |more| && more[j].Kill?
        ensures !more[j].forced
      {
        assert Round(j) && (j < |sent| ==> more[j] == sent[j]);
      }
    }
    if Unforced(more) {
      assert Round(|sent|);
      forall j: nat | j < |sent| && sent[j].Kill?
        ensures !sent[j].forced
      {
        assert Round(j) && more[j] == sent[j];
      }
    }
  }

  /** Since the first signals the process was asked to end within this grace period. */
  predicate Requested(sent: seq<Sent>, first: nat, pid: nat, graceMs: nat) {
    exists i :: first <= i < |sent| && IsRequest(sent[i], pid, graceMs)
  }

  predicate IsRequest(record: Sent, pid: nat, graceMs: nat) {
    record.Request? && record.pid == pid && record.graceMs == graceMs
  }

  lemma EscalationAsks(before: seq<Sent>, after: seq<Sent>, pid: nat, at: nat, graceMs: nat)
    requires Escalated(before, after, pid, at, graceMs)
    ensures before <= after && Requested(after, |before|, pid, graceMs) && (Unforced(before) ==> Unforced(after))
  {
    assert IsRequest(after[|before|], pid, graceMs);
    forall j: nat | j < |after| && Unforced(before)
      ensures after[j].Kill? ==> !after[j].forced
    {
      assert Round(j) && (j < |before| ==> after[j] == before[j]);
    }
  }

  lemma RequestedStill(before: seq<Sent>, after: seq<Sent>, first: nat, pid: nat, graceMs: nat)
    requires before <= after && Requested(before, first, pid, graceMs)
    ensures Requested(after, first, pid, graceMs)
  {
    var i :| first <= i < |before| && IsRequest(before[i], pid, graceMs);
    assert after[i] == before[i];
  }

  lemma AllRequestedStill(before: seq<Sent>, after: seq<Sent>, first: nat)
    requires before <= after
    ensures forall pid, graceMs :: Requested(before, first, pid, graceMs) ==> Requested(after, first, pid, graceMs)
  {
    forall pid, graceMs | Requested(before, first, pid, graceMs)
      ensures Requested(after, first, pid, graceMs)
    {
      RequestedStill(before, after, first, pid, graceMs);
    }
  }

  /** From one moment to another this process, and no other, was asked to end within the grace period, and
      killed only once that had passed. */
  predicate Escalated(before: seq<Sent>, after: seq<Sent>, pid: nat, at: nat, graceMs: nat) {
    || after == before + [Request(pid, at, graceMs)]
    || (|after| == |before| + 2
        && var last := after[|after| - 1];
        && after == before + [Request(pid, at, graceMs), last]
        && last == Kill(pid, last.at, false) && last.at >= at + graceMs)
  }

  predicate IsUndecided(e: Event) {
    e.Probed? && StatusOf(e.look) == NotReady
  }

  /** A child left to itself goes on, or dies with any exit status. */
  predicate LeftAlone(before: Child, after: Child) {
    before.pid == after.pid && (before.status == after.status || (before.status.Alive? && after.status.Zombie?))
  }

  /** Time passed and children may have died. */
  predicate Idled(before: map<Handle, Child>, after: map<Handle, Child>) {
    && before.Keys == after.Keys
    && (forall k :: k in after ==> k in before)
    && (forall k :: k in before ==> LeftAlone(before[k], after[k]))
  }

  /** Every child but h was left alone. */
  predicate OthersIdled(before: map<Handle, Child>, after: map<Handle, Child>, h: Handle) {
    && (forall k :: k in before ==> k in after)
    && (forall k :: k in before && k != h ==> LeftAlone(before[k], after[k]))
    && (forall k :: k in after && k != h ==> k in before)
  }

  lemma OthersIdledTwoCases(before: map<Handle, Child>, h: Handle, child: Child)
    ensures OthersIdled(before, before, h) && OthersIdled(before, before[h := child], h)
  {
  }

  lemma OthersIdledTrans(a: map<Handle, Child>, b: map<Handle, Child>, c: map<Handle, Child>, h: Handle)
    requires OthersIdled(a, b, h) && (OthersIdled(b, c, h) || Idled(b, c))
    ensures OthersIdled(a, c, h)
  {
  }

  lemma SameChildren(children: map<Handle, Child>)
    ensures Idled(children, children)
  {
  }

  /** Every process but h is as live and as ended as before, and nothing about processes is forgotten. */
  predicate OthersLive(before: Monitor, after: Monitor, h: Handle) {
    && before.live - {h} == after.live - {h} && before.ended - {h} == after.ended - {h}
    && before.born.Keys - {h} == after.born.Keys - {h} && Remembers(before, after)
  }

  lemma OthersLiveAt(before: Monitor, after: Monitor, h: Handle, other: Handle)
    requires OthersLive(before, after, h) && other != h
    ensures other in after.live <==> other in before.live
    ensures other in after.ended <==> other in before.ended
    ensures other in after.born <==> other in before.born
  {
    assert other in after.born.Keys - {h} <==> other in before.born.Keys - {h};
    assert other in after.live - {h} <==> other in before.live - {h};
    assert other in after.ended - {h} <==> other in before.ended - {h};
  }

  class Os {
    var now: nat
    var nextPid: nat
    var nextSerial: nat
    var children: map<Handle, Child>     // every child ever started, by name
    ghost var dead: set<Handle>          // those of them that are not alive any more
    ghost var sent: seq<Sent>            // every signal sent
    ghost var answers: seq<bool>         // to every question asked
    ghost var refusals: nat              // the system said no, lost a process, or kept one unready to the end
    ghost var log: AcceptedLog

    ghost predicate Valid()
      reads this
    {
      forall o {:trigger Inside(o)} :: o == this ==> Sound()
    }

    ghost predicate Sound()
      reads this
    {
      && nextPid > 0
      && (forall h :: h in children ==> 0 < children[h].pid < nextPid && h.serial < nextSerial)
      && (forall h :: h in children ==> h in log.monitor.born && log.monitor.born[h].pid == children[h].pid)
      && (forall h :: h in children && children[h].status.Alive? ==> h in log.monitor.live)
      && (forall h :: h in dead <==> h in children && !children[h].status.Alive?)
      && (forall h :: h in log.monitor.live ==> h.serial < nextSerial && h !in log.monitor.ended)
      && (forall h :: h in log.monitor.ended ==> h.serial < nextSerial)
      && (forall h :: h in log.monitor.born ==> h.serial < nextSerial)
      && (forall p :: p in log.monitor.owner ==> p < nextPid)
      && Considerate(sent)
    }

    /** Time passed, the dead stayed dead, and what the system refused was refused. */
    twostate predicate Elapsed()
      reads this
    {
      now >= old(now) && old(dead) <= dead && old(refusals) <= refusals
    }

    /** No kill was forced. */
    twostate predicate Patient()
      reads this
    {
      Unforced(old(sent)) ==> Unforced(sent)
    }

    /** This process, if it was alive, was asked to end at once and killed only once the grace period had
        passed; nobody else got a signal. */
    twostate predicate Dismissed(h: Handle, graceMs: nat)
      reads this
    {
      if h in old(log.monitor.live) then
        && h in old(log.monitor.born)
        && Escalated(old(sent), sent, old(log.monitor.born)[h].pid, old(now), graceMs)
      else sent == old(sent)
    }

    /** Only the process named h was touched, apart from time passing and children dying. */
    twostate predicate TouchedOnly(h: Handle)
      reads this
    {
      && now >= old(now) && nextSerial >= old(nextSerial) && nextPid >= old(nextPid)
      && old(log.events) <= log.events && old(dead) <= dead && old(refusals) <= refusals
      && OthersIdled(old(children), children, h)
      && log.monitor.states == old(log.monitor.states) && log.monitor.isOpen == old(log.monitor.isOpen)
      && OthersLive(old(log.monitor), log.monitor, h)
    }

    constructor ()
      ensures Valid() && log == EMPTY_LOG && children == map[] && sent == []
    {
      now, nextPid, nextSerial := 0, 1, 0;
      children := map[];
      dead, sent, answers, refusals, log := {}, [], [], 0, EMPTY_LOG;
      new;
      assert Inside(this);
    }

    lemma KillsWereAsked()
      requires Valid() && Unforced(sent)
      ensures KillsFollowRequests(sent)
    {
      assert Inside(this);
      forall j: nat | j < |sent| && sent[j].Kill?
        ensures GraceOver(sent[..j], sent[j].pid, sent[j].at)
      {
        assert Round(j);
      }
    }

    /** Any children may die at any moment, with any exit status. */
    method Idle()
      requires Valid()
      modifies this`now, this`children, this`dead
      ensures Valid() && Idled(old(children), children) && old(dead) <= dead && now >= old(now)
    {
      assert Inside(this);
      var passed: int := *;
      now := now + if passed > 0 then passed else 0;
      assert Idled(children, children);
      var after :| Idled(children, after);
      assert Idled(children, after);
      children := after;
      dead := set h | h in children && !children[h].status.Alive?;
    }

    /** SystemClock::now(). */
    method Clock() returns (t: nat)
      requires Valid()
      modifies this`now, this`children, this`dead
      ensures Valid() && Idled(old(children), children) && old(dead) <= dead && t == now >= old(now)
    {
      assert Inside(this);
      Idle();
      t := now;
    }

    /** Sleeps, then looks at the clock. */
    method Nap(ms: nat) returns (t: nat)
      requires Valid()
      modifies this`now, this`children, this`dead
      ensures Valid() && Idled(old(children), children) && old(dead) <= dead && t == now >= old(now) + ms
    {
      assert Inside(this);
      Idle();
      now := now + ms;
      t := now;
    }

    /** A yes-or-no answer of the environment: a file operation. */
    method Ask() returns (answer: bool)
      requires Valid()
      modifies this`refusals, this`answers
      ensures Valid() && refusals == old(refusals) + (if answer then 0 else 1) && answers == old(answers) + [answer]
    {
      assert Inside(this);
      answer := *;
      refusals := refusals + if answer then 0 else 1;
      answers := answers + [answer];
    }

    /** One look at a process, if its pid is known, and at its status file or its socket. */
    method Probe(pid: nat, readsFile: bool) returns (look: Look)
      requires Valid()
      modifies this`log, this`refusals
      ensures Valid() && log == Extend(old(log), Probed(pid, look, now))
      ensures refusals == old(refusals) + if IsLoss(StatusOf(look)) then 1 else 0
      ensures (look == Gone ==> pid > 0) && (look.Contents? ==> readsFile) && (look.Connection? ==> !readsFile)
    {
      assert Inside(this);
      var gone: bool, present: bool := *, *;
      if pid > 0 && gone {
        look := Gone;
      } else if !present {
        look := Missing;
      } else if readsFile {
        var text: string := *;
        look := Contents(text);
      } else {
        var accepted: bool := *;
        look := Connection(accepted);
      }
      log := Extend(log, Probed(pid, look, now));
      refusals := refusals + if IsLoss(StatusOf(look)) then 1 else 0;
    }

    /** The latest event is a probe that showed something not ready yet, and no further one is made. */
    ghost method GiveUp()
      requires Valid() && log.events != [] && IsUndecided(log.events[|log.events| - 1])
      modifies this`refusals
      ensures Valid() && refusals == old(refusals) + 1
    {
      assert Inside(this);
      refusals := refusals + 1;
    }

    method FreshSerial() returns (serial: nat)
      requires Valid()
      modifies this`nextSerial
      ensures Valid() && serial == old(nextSerial) && nextSerial == serial + 1
      ensures forall h: Handle :: h.serial == serial ==>
                h !in children && h !in log.monitor.live && h !in log.monitor.ended && h !in log.monitor.born
    {
      assert Inside(this);
      serial := nextSerial;
      nextSerial := nextSerial + 1;
    }

    /** fork and exec: fails, or starts a child under a pid never seen before. */
    method Spawn(h: Handle, env: seq<string>) returns (pid: Option<nat>)
      requires Valid() && MayStart(log.monitor, h) && h.serial < nextSerial
      modifies this`children, this`nextPid, this`log, this`refusals
      ensures Valid() && refusals == old(refusals) + if pid.Some? then 0 else 1
      ensures pid.None? ==> children == old(children) && nextPid == old(nextPid) && log == old(log)
      ensures pid.Some? ==>
                && 0 < old(nextPid) <= pid.value < nextPid
                && children == old(children)[h := Child(pid.value, Alive)]
                && pid.value !in old(log.monitor.owner) && log == Extend(old(log), Spawned(h, pid.value, env))
    {
      var ok: bool := *;
      if !ok {
        assert Inside(this);
        refusals := refusals + 1;
        return None;
      }
      var skipped: int := *;
      var p := nextPid + if skipped > 0 then skipped else 0;
      Fork(h, env, p);
      pid := Some(p);
    }

    method Fork(h: Handle, env: seq<string>, p: nat)
      requires Valid() && MayStart(log.monitor, h) && h.serial < nextSerial && p >= nextPid
      modifies this`children, this`nextPid, this`log
      ensures Valid() && 0 < old(nextPid) <= p < nextPid && p !in old(log.monitor.owner)
      ensures children == old(children)[h := Child(p, Alive)] && log == Extend(old(log), Spawned(h, p, env))
    {
      assert Inside(this);
      nextPid := p + 1;
      log := Extend(log, Spawned(h, p, env));
      children := children[h := Child(p, Alive)];
    }

    /** kill. Its effect, if any, is a death the next wait may see. */
    method SendSignal(pid: nat, signal: Signal, ghost record: Sent)
      requires Valid() && Records(record, pid, signal, now)
      requires record.Kill? && !record.forced ==> GraceOver(sent, pid, now)
      modifies this`sent
      ensures Valid() && sent == old(sent) + [record]
      ensures Unforced(sent) <==> Unforced(old(sent)) && (record.Kill? ==> !record.forced)
    {
      assert Inside(this);
      OneMoreSent(sent, record);
      sent := sent + [record];
    }

    /** waitpid on the child named h. Without blocking it yields the status of a dead child and nothing
        for a living one; blocking, it returns once the child is gone, with or without its status. */
    method Wait(h: Handle, blocking: bool) returns (info: Option<ExitInfo>)
      requires Valid() && h in children
      modifies this`children, this`dead
      ensures Valid() && old(dead) <= dead
      ensures h in children && children == old(children)[h := children[h]] && children[h].pid == old(children)[h].pid
      ensures blocking ==> !children[h].status.Alive?
      ensures info.Some? ==> children[h].status == Reaped
      ensures info.None? && !old(children)[h].status.Reaped? ==> !children[h].status.Reaped?
      ensures !blocking && old(children)[h].status.Zombie? ==> info == Some(old(children)[h].status.info)
    {
      assert Inside(this);
      var child := children[h];
      var dies: bool := *;
      if child.status.Alive? && (blocking || dies) {
        var signaled: bool, code: int := *, *;
        child := child.(status := Zombie(ExitInfo(signaled, code)));
      }
      var failed: bool := *;
      if child.status.Zombie? && !(blocking && failed) {
        info := Some(child.status.info);
        child := child.(status := Reaped);
      } else {
        info := None;
      }
      children := children[h := child];
      if !child.status.Alive? {
        dead := dead + {h};
      }
    }

    /** The supervisor learned that the process named h is gone. */
    ghost method RecordEnded(h: Handle)
      requires Valid() && h in log.monitor.live
      requires h in children ==> !children[h].status.Alive?
      modifies this`log
      ensures Valid() && log == Extend(old(log), Ended(h))
    {
      assert Inside(this);
      log := Extend(log, Ended(h));
    }

    ghost method RecordEntered(kind: Kind, state: ComponentState)
      requires Valid() && Allowed(log.monitor, Entered(kind, state))
      modifies this`log
      ensures Valid() && log == Extend(old(log), Entered(kind, state))
    {
      assert Inside(this);
      log := Extend(log, Entered(kind, state));
    }

    /** The exit of a pid was reported, or its process ended on request. */
    ghost method RecordSettled(pid: nat, reported: bool)
      requires Valid() && Allowed(log.monitor, Settled(pid, reported))
      modifies this`log
      ensures Valid() && log == Extend(old(log), Settled(pid, reported))
    {
      assert Inside(this);
      log := Extend(log, Settled(pid, reported));
    }

    ghost method RecordOrphaned(kind: Kind)
      requires Valid()
      modifies this`log
      ensures Valid() && log == Extend(old(log), Orphaned(kind))
    {
      assert Inside(this);
      log := Extend(log, Orphaned(kind));
    }

    ghost method RecordOpen(isOpen: bool)
      requires Valid()
      modifies this`log
      ensures Valid() && log == Extend(old(log), if isOpen then Reopened else ShutDown)
    {
      assert Inside(this);
      log := Extend(log, if isOpen then Reopened else ShutDown);
    }
  }
}
