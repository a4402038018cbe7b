/** The supervisor's table of processes, by handle. */
module Registry {
  import opened Results
  import opened Trace
  import opened Processes

  class ProcessRegistry {
    var byHandle: map<Handle, Process>

    constructor ()
      ensures byHandle == map[]
    {
      byHandle := map[];
    }

    /** Entries are filed under their own handle. */
    ghost predicate Valid()
      reads this
    {
      forall h :: h in byHandle ==> byHandle[h].handle == h
    }

    method RegisterProcess(p: Process) returns (r: Result<()>)
      requires Valid()
      modifies this
      ensures Valid()
      ensures if p.handle in old(byHandle) then r == Failure(ProcessRegistrationFailed) && byHandle == old(byHandle)
              else r == Success(()) && byHandle == old(byHandle)[p.handle := p]
    {
      if p.handle in byHandle {
        return Failure(ProcessRegistrationFailed);
      }
      byHandle := byHandle[p.handle := p];
      r := Success(());
    }

    method FindByHandle(h: Handle) returns (found: Option<Process>)
      ensures found == if h in byHandle then Some(byHandle[h]) else None
    {
      found := if h in byHandle then Some(byHandle[h]) else None;
    }

    /** Some registered process with that pid, and none exactly when there is no such process. */
    method FindByPid(pid: nat) returns (found: Option<Process>)
      ensures found.Some? ==> found.value in byHandle.Values && found.value.pid == pid > 0
      ensures found.None? ==> pid == 0 || forall h :: h in byHandle ==> byHandle[h].pid != pid
    {
      if pid == 0 {
        return None;
      }
      var todo := byHandle.Keys;
      while todo != {}
        invariant todo <= byHandle.Keys
        invariant forall h :: h in byHandle && h !in todo ==> byHandle[h].pid != pid
        decreases |todo|
      {
        var h :| h in todo;
        if byHandle[h].pid == pid {
          return Some(byHandle[h]);
        }
        todo := todo - {h};
      }
      found := None;
    }

    /** Every registered process once, in whatever order the table yields them. */
    method AllProcesses() returns (all: seq<Process>)
      requires Valid()
      ensures forall i :: 0 <= i < |all| ==> all[i].handle in byHandle && byHandle[all[i].handle] == all[i]
      ensures forall h :: h in byHandle ==> byHandle[h] in all
      ensures forall i, j :: 0 <= i < j < |all| ==> all[i].handle != all[j].handle
    {
      all := [];
      var todo := byHandle.Keys;
      while todo != {}
        invariant todo <= byHandle.Keys
        invariant forall i :: 0 <= i < |all| ==>
                    all[i].handle in byHandle && all[i].handle !in todo && byHandle[all[i].handle] == all[i]
        invariant forall h :: h in byHandle && h !in todo ==> byHandle[h] in all
        invariant forall i, j :: 0 <= i < j < |all| ==> all[i].handle != all[j].handle
        decreases |todo|
      {
        var h :| h in todo;
        all := all + [byHandle[h]];
        todo := todo - {h};
      }
    }

    method Clear()
      modifies this
      ensures byHandle == map[]
    {
      byHandle := map[];
    }
  }
}
