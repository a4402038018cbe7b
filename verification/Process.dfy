/** One supervised child: start, graceful stop with escalation, kill, wait and poll. */
module Processes {
  import opened Focus
  import opened Results
  import opened Transitions
  import opened Trace
  import opened OperatingSystem
  import opened Environment

  datatype ProcessSpec = ProcessSpec(
    kind: Kind, environment: map<string, string>, stopTimeoutMs: nat, killTimeoutMs: nat)

  /** A state write: an edge of the table, or CREATED straight to EXITED. */
  predicate IsStateWrite(source: ProcessState, target: ProcessState) {
    IsValidProcessTransition(source, target) || (source == ProcCreated && target == ProcExited)
  }

  predicate IsStatePath(path: seq<ProcessState>) {
    && path != [] && path[0] == ProcCreated
    && forall i :: 0 <= i < |path| - 1 ==> IsStateWrite(path[i], path[i + 1])
  }

  type StatePath = p: seq<ProcessState> | IsStatePath(p) witness [ProcCreated]

  predicate IsTerminal(s: ProcessState) {
    s == ProcExited || s == ProcFailed
  }

  class Process {
    const os: Os
    const handle: Handle
    const spec: ProcessSpec
    var state: ProcessState
    var pid: nat
    var exitInfo: Option<ExitInfo>
    ghost var path: StatePath               // every state written
    ghost var exitWrites: nat

    /** Holds whenever no operation is under way. */
    ghost predicate Valid()
      reads this, os
    {
      Consistent() && state != ProcStarting && state != ProcStopping
    }

    /** Holds also between the steps of an operation. */
    ghost predicate Consistent()
      reads this, os
    {
      forall p {:trigger Inside(p)} :: p == this ==> Facts() && Waitable()
    }

    /** What the fields, the operating system and the history say about each other. */
    ghost predicate Facts()
      reads this, os
    {
      && handle.serial < os.nextSerial
      && path[|path| - 1] == state
      && exitWrites == (if exitInfo.Some? then 1 else 0)
      && (pid > 0 ==> pid in os.log.monitor.owner && os.log.monitor.owner[pid] == handle)
      && (pid > 0 ==> handle in os.log.monitor.born && os.log.monitor.born[handle].pid == pid)
      && (handle in os.children <==> pid > 0) && (pid > 0 ==> os.children[handle].pid == pid)
      && (state == ProcCreated || state == ProcStarting || state == ProcFailed ==>
            pid == 0 && exitInfo == None && handle !in os.log.monitor.born
            && handle !in os.log.monitor.live && handle !in os.log.monitor.ended)
      && (state == ProcRunning || state == ProcStopping ==>
            pid > 0 && exitInfo == None && handle in os.log.monitor.live)
      && (state == ProcExited ==>
            handle !in os.log.monitor.live && (pid > 0 ==> handle in os.log.monitor.ended)
            && (pid > 0 <==> exitInfo.Some?)
            && (pid > 0 ==> !os.children[handle].status.Alive?))
    }

    /** A process not known to be gone can still be waited for. */
    ghost predicate Waitable()
      reads this, os
    {
      handle in os.children && exitInfo == None ==> !os.children[handle].status.Reaped?
    }

    constructor (os: Os, handle: Handle, spec: ProcessSpec)
      requires os.Valid() && handle.serial < os.nextSerial
      requires handle !in os.log.monitor.live && handle !in os.log.monitor.ended
      requires handle !in os.log.monitor.born && handle !in os.children
      ensures Valid() && state == ProcCreated
      ensures this.os == os && this.handle == handle && this.spec == spec
    {
      this.os, this.handle, this.spec := os, handle, spec;
      state, pid, exitInfo := ProcCreated, 0, None;
      path, exitWrites := [ProcCreated], 0;
      new;
      assert Inside(this);
    }

    predicate IsRunning()
      reads this
    {
      state == ProcRunning || state == ProcStarting
    }

    predicate IsTerminated()
      reads this
    {
      IsTerminal(state)
    }

    /** An operation on one process leaves every other process as it was. */
    twostate lemma Undisturbed(h: Handle)
      requires old(Valid()) && unchanged(this) && h != handle && os.TouchedOnly(h)
      ensures Valid()
    {
      assert Inside(this);
      OthersLiveAt(old(os.log.monitor), os.log.monitor, h, handle);
    }

    method Write(target: ProcessState)
      requires path[|path| - 1] == state && IsStateWrite(state, target)
      modifies this`state, this`path
      ensures path[|path| - 1] == state == target && old(path) <= path
    {
      state := target;
      path := path + [target];
    }

    method Start(baseEnvironment: seq<string>) returns (r: Result<()>)
      requires os.Valid() && Valid() && (state == ProcCreated ==> MayStart(os.log.monitor, handle))
      modifies this, os
      ensures os.Valid() && Valid() && old(path) <= path
      ensures old(state) != ProcCreated ==>
                && r == Failure(ProcessInvalidState) && state == old(state) && pid == old(pid)
                && exitInfo == old(exitInfo) && path == old(path) && os.refusals == old(os.refusals)
      ensures old(state) == ProcCreated ==>
                (r.Success? <==> state == ProcRunning) && (r.Failure? <==> state == ProcFailed)
      ensures r.Success? ==>
                && 0 < old(os.nextPid) <= pid < os.nextPid
                && os.children == old(os.children)[handle := Child(pid, Alive)]
                && pid !in old(os.log.monitor.owner)
                && os.log == Extend(old(os.log), Spawned(handle, pid, EnvironmentOf(os.log.monitor, handle)))
                && Lists(EnvironmentOf(os.log.monitor, handle), Rebuild(baseEnvironment) + spec.environment)
      ensures r.Failure? ==>
                && os.children == old(os.children) && os.nextPid == old(os.nextPid) && os.log == old(os.log)
      ensures r.Success? ==> os.answers == old(os.answers) + [true, true]
      ensures os.refusals >= old(os.refusals)
      ensures r.Failure? && old(state) == ProcCreated ==> os.refusals > old(os.refusals)
      ensures os.now == old(os.now) && os.nextSerial == old(os.nextSerial) && os.sent == old(os.sent)
      ensures os.dead == old(os.dead)
    {
      assert Inside(this);
      if state != ProcCreated {
        return Failure(ProcessInvalidState);
      }
      var ready := GetReady();
      if !ready {
        return Failure(ProcessSpawnFailed);
      }
      var finalEnv := MergeEnvironment(baseEnvironment, spec.environment);
      r := Launch(finalEnv);
    }

    /** The specification is checked and the streams are opened. */
    method GetReady() returns (ready: bool)
      requires os.Valid() && Valid() && state == ProcCreated
      modifies this`state, this`path, os`refusals, os`answers
      ensures os.Valid() && Consistent() && old(path) <= path
      ensures if ready then state == ProcStarting && os.answers == old(os.answers) + [true, true]
              else state == ProcFailed && os.refusals > old(os.refusals)
      ensures os.refusals >= old(os.refusals)
    {
      assert Inside(this);
      var specValid := os.Ask();
      if !specValid {
        Write(ProcFailed);
        return false;
      }
      Write(ProcStarting);
      ready := os.Ask();
      if !ready {
        Write(ProcFailed);
      }
    }

    /** The last part of starting: the spawn itself. */
    method Launch(env: seq<string>) returns (r: Result<()>)
      requires os.Valid() && Consistent() && state == ProcStarting && MayStart(os.log.monitor, handle)
      modifies this, os
      ensures os.Valid() && Valid() && old(path) <= path
      ensures if r.Success? then state == ProcRunning else state == ProcFailed
      ensures r.Success? ==>
                && 0 < old(os.nextPid) <= pid < os.nextPid
                && os.children == old(os.children)[handle := Child(pid, Alive)]
                && pid !in old(os.log.monitor.owner) && os.log == Extend(old(os.log), Spawned(handle, pid, env))
      ensures r.Failure? ==>
                && os.children == old(os.children) && os.nextPid == old(os.nextPid) && os.log == old(os.log)
      ensures os.refusals >= old(os.refusals)
      ensures r.Failure? ==> os.refusals > old(os.refusals)
      ensures os.now == old(os.now) && os.nextSerial == old(os.nextSerial) && os.sent == old(os.sent)
      ensures os.dead == old(os.dead) && os.answers == old(os.answers)
    {
      assert Inside(this);
      var spawned := os.Spawn(handle, env);
      match spawned {
        case None =>
          Write(ProcFailed);
          r := Failure(ProcessSpawnFailed);
        case Some(p) =>
          pid := p;
          Write(ProcRunning);
          r := Success(());
      }
    }

    /** The process was live, and the one new event is its end. */
    twostate predicate EndedNow()
      reads os
    {
      handle in old(os.log.monitor.live) && os.log == Extend(old(os.log), Ended(handle))
    }

    /** The status of a dead child arrived. */
    method Exit(info: ExitInfo)
      requires os.Valid() && Facts() && (state == ProcRunning || state == ProcStopping)
      requires !os.children[handle].status.Alive?
      modifies this, os`log
      ensures os.Valid() && Valid() && pid == old(pid) && old(path) <= path
      ensures state == ProcExited && exitInfo == Some(info)
      ensures EndedNow()
    {
      assert Inside(this);
      exitInfo := Some(info);
      exitWrites := exitWrites + 1;
      Write(ProcExited);
      os.RecordEnded(handle);
    }

    /** A wait that does not block. */
    method TryReap() returns (info: Option<ExitInfo>)
      requires os.Valid() && Consistent() && (state == ProcRunning || state == ProcStopping)
      modifies this, os`children, os`dead, os`log
      ensures old(os.dead) <= os.dead
      ensures os.Valid() && Consistent() && pid == old(pid) && old(path) <= path
      ensures OthersIdled(old(os.children), os.children, handle)
      ensures handle in old(os.children)
      ensures old(os.children)[handle].status.Zombie? ==> info == Some(old(os.children)[handle].status.info)
      ensures info.Some? ==>
                && state == ProcExited && exitInfo == info
                && EndedNow()
      ensures info.None? ==>
                && state == old(state) && exitInfo == None && path == old(path)
                && os.log == old(os.log)
    {
      assert Inside(this);
      info := os.Wait(handle, false);
      if info.Some? {
        Exit(info.value);
      }
    }

    /** One round of a polling loop: reap the child if it is dead, else sleep. */
    method PollOnce(intervalMs: nat) returns (exited: bool, t: nat)
      requires os.Valid() && Consistent() && state == ProcStopping
      modifies this, os
      ensures os.sent == old(os.sent) && old(os.dead) <= os.dead && os.refusals == old(os.refusals)
      ensures os.Valid() && Consistent() && pid == old(pid) && old(path) <= path
      ensures OthersIdled(old(os.children), os.children, handle)
      ensures os.nextPid == old(os.nextPid) && os.nextSerial == old(os.nextSerial)
      ensures os.now >= old(os.now)
      ensures exited ==>
                && state == ProcExited && exitInfo.Some? && Valid()
                && EndedNow()
      ensures !exited ==>
                && state == ProcStopping && t == os.now >= old(os.now) + intervalMs
                && os.log == old(os.log)
    {
      assert Inside(this);
      var info := TryReap();
      if info.Some? {
        return true, 0;
      }
      ghost var before := os.children;
      t := os.Nap(intervalMs);
      exited := false;
      OthersIdledTrans(old(os.children), before, os.children, handle);
    }

    /** Waits without blocking until the child is gone or the time is up. */
    method PollUntil(timeoutMs: nat, intervalMs: nat) returns (exited: bool)
      requires os.Valid() && Consistent() && state == ProcStopping && intervalMs > 0
      modifies this, os
      ensures os.Valid() && Consistent() && os.TouchedOnly(handle) && pid == old(pid) && old(path) <= path
      ensures exited ==>
                && state == ProcExited && exitInfo.Some? && Valid()
                && EndedNow()
      ensures !exited ==>
                && state == ProcStopping && os.now >= old(os.now) + timeoutMs
                && os.log == old(os.log)
      ensures os.sent == old(os.sent)
    {
      assert Inside(this);
      var t := os.Clock();
      var deadline := t + timeoutMs;
      exited := false;
      while t < deadline && !exited
        invariant os.Valid() && Consistent()
        invariant os.sent == old(os.sent) && old(os.dead) <= os.dead && os.refusals == old(os.refusals)
        invariant deadline >= old(os.now) + timeoutMs
        invariant OthersIdled(old(os.children), os.children, handle)
        invariant pid == old(pid) && old(path) <= path && os.nextSerial == old(os.nextSerial) && os.now >= old(os.now)
        invariant os.nextPid == old(os.nextPid)
        invariant !exited ==>
                    && state == ProcStopping && t <= os.now
                    && os.log == old(os.log)
        invariant exited ==>
                    && state == ProcExited
                    && EndedNow()
        decreases !exited, deadline - t
      {
        ghost var before := os.children;
        exited, t := PollOnce(intervalMs);
        OthersIdledTrans(old(os.children), before, os.children, handle);
      }
    }

    /** After a stop or a kill the child is gone; a process that had one is EXITED with its exit
        information, one that had none stays as it was or goes from CREATED to EXITED. */
    twostate predicate Ends()
      reads this, os
    {
      && os.Valid() && Valid() && IsTerminal(state) && pid == old(pid) && old(path) <= path
      && (old(IsTerminal(state)) ==> state == old(state) && exitInfo == old(exitInfo) && path == old(path))
      && (!old(IsTerminal(state)) ==> state == ProcExited && (exitInfo.Some? <==> pid > 0))
      && os.log == (if handle in old(os.log.monitor.live) then Extend(old(os.log), Ended(handle)) else old(os.log))
    }

    /** This child, and no other, gets SIGTERM, and SIGKILL only once the whole grace period has passed. */
    twostate predicate Terminates(timeoutMs: nat)
      reads this, os
    {
      Escalated(old(os.sent), os.sent, pid, old(os.now), timeoutMs)
    }

    /** A running child is asked to end before it is killed; nobody else gets a signal. */
    twostate predicate Escalates(timeoutMs: nat)
      reads this, os
    {
      if old(state) == ProcRunning then Terminates(timeoutMs) else os.sent == old(os.sent)
    }

    method KillLocked(timeoutMs: nat, ghost forced: bool)
      requires os.Valid() && Consistent() && state != ProcStarting && (forced || GraceOver(os.sent, pid, os.now))
      modifies this, os
      ensures os.sent == old(os.sent) + if old(state) == ProcRunning || old(state) == ProcStopping
                                        then [Sent.Kill(pid, old(os.now), forced)] else []
      ensures Ends() && os.TouchedOnly(handle)
      ensures old(state) == ProcStopping ==> EndedNow() && exitInfo.Some?
    {
      assert Inside(this);
      if IsTerminal(state) {
        return;
      }
      if pid == 0 {
        Write(ProcExited);
        return;
      }
      SignalKill(timeoutMs, forced);
    }

    method BeginStopping(signal: Signal, ghost record: Sent)
      requires os.Valid() && Consistent() && (state == ProcRunning || state == ProcStopping)
      requires Records(record, pid, signal, os.now)
      requires record.Kill? && !record.forced ==> GraceOver(os.sent, pid, os.now)
      modifies this`state, this`path, os`sent
      ensures os.Valid() && Consistent() && state == ProcStopping && os.sent == old(os.sent) + [record]
      ensures pid == old(pid) && old(path) <= path
    {
      assert Inside(this);
      Write(ProcStopping);
      os.SendSignal(pid, signal, record);
    }

    /** SIGKILL, a polling wait, and a blocking wait when that was not enough. */
    method SignalKill(timeoutMs: nat, ghost forced: bool)
      requires os.Valid() && Consistent() && (state == ProcRunning || state == ProcStopping)
      requires forced || GraceOver(os.sent, pid, os.now)
      modifies this, os
      ensures os.sent == old(os.sent) + [Sent.Kill(pid, old(os.now), forced)]
      ensures os.Valid() && Valid() && state == ProcExited && exitInfo.Some? && pid == old(pid) && old(path) <= path
      ensures os.TouchedOnly(handle)
      ensures EndedNow()
    {
      BeginStopping(SIGKILL, Sent.Kill(pid, os.now, forced));
      var exited := PollUntil(timeoutMs, 10);
      if !exited {
        ghost var before := os.children;
        AwaitKilled();
        OthersIdledTrans(old(os.children), before, os.children, handle);
      }
    }

    /** The final blocking wait; without a status the exit is recorded as the kill itself. */
    method AwaitKilled()
      requires os.Valid() && Consistent() && state == ProcStopping
      modifies this, os`children, os`dead, os`log
      ensures old(os.dead) <= os.dead
      ensures os.Valid() && Valid() && state == ProcExited && exitInfo.Some? && pid == old(pid) && old(path) <= path
      ensures OthersIdled(old(os.children), os.children, handle)
      ensures EndedNow()
    {
      assert Inside(this);
      var info := os.Wait(handle, true);
      Exit(if info.Some? then info.value else ExitInfo(true, 9));
    }

    method StopLocked(timeoutMs: nat)
      requires os.Valid() && Valid()
      modifies this, os
      ensures Escalates(timeoutMs)
      ensures Ends() && os.TouchedOnly(handle)
    {
      assert Inside(this);
      if IsTerminal(state) {
        return;
      }
      if state == ProcCreated {
        Write(ProcExited);
        return;
      }
      SignalTerm(timeoutMs);
    }

    /** SIGTERM and a polling wait; a child still there is killed. */
    method SignalTerm(timeoutMs: nat)
      requires os.Valid() && Consistent() && state == ProcRunning
      modifies this, os
      ensures Terminates(timeoutMs)
      ensures os.Valid() && Valid() && state == ProcExited && exitInfo.Some? && pid == old(pid) && old(path) <= path
      ensures os.TouchedOnly(handle)
      ensures EndedNow()
    {
      ghost var request := Request(pid, os.now, timeoutMs);
      BeginStopping(SIGTERM, request);
      assert os.sent[|os.sent| - 1] == request;
      var exited := PollUntil(timeoutMs, 20);
      if !exited {
        ghost var before := os.children;
        assert LeavesNoGrace(os.sent[|os.sent| - 1], pid, os.now);
        KillLocked(spec.killTimeoutMs, false);
        OthersIdledTrans(old(os.children), before, os.children, handle);
      }
    }

    /** SIGTERM, then SIGKILL when the grace period passes. */
    method Stop(timeoutMs: Option<nat>)
      requires os.Valid() && Valid()
      modifies this, os
      ensures Escalates(if timeoutMs.Some? then timeoutMs.value else spec.stopTimeoutMs)
      ensures Ends() && os.TouchedOnly(handle)
    {
      StopLocked(if timeoutMs.Some? then timeoutMs.value else spec.stopTimeoutMs);
    }

    method Kill(timeoutMs: Option<nat>)
      requires os.Valid() && Valid()
      modifies this, os
      ensures os.sent == old(os.sent) + if old(state) == ProcRunning then [Sent.Kill(pid, old(os.now), true)] else []
      ensures Ends() && os.TouchedOnly(handle)
    {
      KillLocked(if timeoutMs.Some? then timeoutMs.value else spec.killTimeoutMs, true);
    }

    /** Blocks until the child is gone; the first status obtained is the one reported ever after. */
    method Wait() returns (r: Result<ExitInfo>)
      requires os.Valid() && Valid()
      modifies this, os`children, os`dead, os`log
      ensures old(os.dead) <= os.dead
      ensures os.Valid() && Valid() && pid == old(pid) && old(path) <= path
      ensures OthersIdled(old(os.children), os.children, handle)
      ensures r.Success? <==> exitInfo.Some?
      ensures r.Success? ==> exitInfo == Some(r.value)
      ensures old(exitInfo).Some? ==> exitInfo == old(exitInfo)
      ensures pid == 0 ==> r == Failure(ProcessNotFound)
    {
      assert Inside(this);
      if exitInfo.Some? {
        return Success(exitInfo.value);
      }
      if pid == 0 || state == ProcCreated {
        return Failure(ProcessNotFound);
      }
      var info := os.Wait(handle, true);
      if info.None? {
        return Failure(ProcessNotFound);
      }
      Exit(info.value);
      r := Success(info.value);
    }

    /** Reaps the child if it is dead. */
    method Poll() returns (info: Option<ExitInfo>)
      requires os.Valid() && Valid()
      modifies this, os`children, os`dead, os`log
      ensures old(os.dead) <= os.dead
      ensures os.Valid() && Valid() && pid == old(pid) && info == exitInfo && old(path) <= path
      ensures OthersIdled(old(os.children), os.children, handle)
      ensures old(exitInfo).Some? ==> exitInfo == old(exitInfo)
      ensures info.Some? ==> IsTerminal(state)
      ensures info.None? ==> state == old(state)
      ensures pid > 0 && handle in old(os.dead) ==> info.Some?
      ensures state == old(state) ==> os.log == old(os.log)
      ensures state != old(state) ==>
                old(state) == ProcRunning && EndedNow()
    {
      assert Inside(this) && Inside(os);
      if exitInfo.Some? {
        return exitInfo;
      }
      if pid == 0 || state == ProcCreated {
        return None;
      }
      info := TryReap();
    }
  }
}
