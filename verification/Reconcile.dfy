/**
 Startup reconciliation (`reconcile_service_startup`): what becomes of a core that an earlier run of the
 service left behind, judged by the runtime record that run wrote.
 */
module Reconcile {
  import opened Wrappers

  // A process is told apart from a later one with the same number by its executable and its start time.
  datatype Identity = Identity(executable: string, startedAt: nat)

  datatype RuntimeRecord<I> = RuntimeRecord(pid: nat, identity: I)

  // The record file: a file that is there but does not parse is an error, not an absence.
  datatype RecordFile<I> = Absent | Unparsable | Recorded(record: RuntimeRecord<I>)

  // What the environment decides: whether the file and the process can be inspected, whether terminating
  // works, and whether removing the record (whose failure is ignored) does.
  datatype Luck = Luck(readable: bool, identified: bool, terminated: bool, removed: bool)

  datatype Outcome<I> = Outcome(processes: map<nat, I>, record: RecordFile<I>, reconciled: bool)

  predicate StillRuns<I(==)>(processes: map<nat, I>, record: RecordFile<I>) {
    record.Recorded? && record.record.pid in processes && processes[record.record.pid] == record.record.identity
  }

  /** `reconcile_service_startup`, as one step of a whole run. */
  function Reconciled<I(==)>(processes: map<nat, I>, record: RecordFile<I>, luck: Luck): Outcome<I> {
    var cleared := if luck.removed then Absent else record;
    if !luck.readable || record.Unparsable? then Outcome(processes, record, false)
    else if record.Absent? then Outcome(processes, record, true)
    else if !luck.identified then Outcome(processes, record, false)
    else if !StillRuns(processes, record) then Outcome(processes, cleared, true)
    else if luck.terminated then Outcome(processes - {record.record.pid}, cleared, true)
    else Outcome(processes, record, false)
  }

  /**
   It succeeds if and only if there is no record, or one that can be judged and whose core, if it runs, can be
   stopped. Success means that nothing with the recorded identity is left alive; no other process is ever terminated;
   failure changes nothing. What is left of the record describes nothing that still runs.
   */
  lemma ReconcilingIsSafe<I>(processes: map<nat, I>, record: RecordFile<I>, luck: Luck)
    ensures Reconciled(processes, record, luck).reconciled <==>
              && luck.readable && !record.Unparsable?
              && (record.Recorded? ==> luck.identified && (StillRuns(processes, record) ==> luck.terminated))
    ensures var o := Reconciled(processes, record, luck);
            && (o.reconciled && luck.removed ==> o.record.Absent?)
            && (o.reconciled ==> !StillRuns(o.processes, record) && !StillRuns(o.processes, o.record))
            && (forall p | p in processes && p !in o.processes ::
                StillRuns(processes, record) && p == record.record.pid)
            && (forall p | p in o.processes :: p in processes && o.processes[p] == processes[p])
            && (!o.reconciled ==> o.record == record && o.processes == processes)
  {}

  /** The exact condition under which success leaves no core of an earlier run: the record must name it. */
  lemma NothingLeftExactlyWhenRecorded<I>(processes: map<nat, I>, record: RecordFile<I>, luck: Luck, core: nat)
    requires core in processes && Reconciled(processes, record, luck).reconciled
    ensures core !in Reconciled(processes, record, luck).processes <==>
              record.Recorded? && record.record == RuntimeRecord(core, processes[core])
  {}

  /* ---------- the service at startup ---------- */

  class Startup {
    var startupReconciled: bool
    var processes: map<nat, Identity>
    var record: RecordFile<Identity>
    var sockets: set<string>

    constructor (processes: map<nat, Identity>, record: RecordFile<Identity>, sockets: set<string>)
      ensures this.processes == processes && this.record == record && this.sockets == sockets && !startupReconciled
    {
      this.processes, this.record, this.sockets, startupReconciled := processes, record, sockets, false;
    }

    /** `ensure_startup_reconciled`: what every start asks first. */
    method EnsureStartupReconciled() returns (ok: bool)
      ensures ok <==> startupReconciled
    {
      ok := startupReconciled;
    }

    method ReadRecord(luck: Luck) returns (r: Result<RecordFile<Identity>, ()>)
      ensures r.Ok? <==> luck.readable && !record.Unparsable?
      ensures r.Ok? ==> r.value == record
    {
      r := if luck.readable && !record.Unparsable? then Ok(record) else Err(());
    }

    method ProcessIdentity(pid: nat, luck: Luck) returns (r: Result<Option<Identity>, ()>)
      ensures r == if !luck.identified then Err(()) else Ok(if pid in processes then Some(processes[pid]) else None)
    {
      r := if !luck.identified then Err(()) else Ok(if pid in processes then Some(processes[pid]) else None);
    }

    /** `terminate_process`: succeeds only once the process is gone. */
    method TerminateProcess(pid: nat, luck: Luck) returns (ok: bool)
      modifies this`processes
      ensures ok == luck.terminated && processes == if ok then old(processes) - {pid} else old(processes)
    {
      ok := luck.terminated;
      if ok {
        processes := processes - {pid};
      }
    }

    method CleanupSocket(path: string, removable: bool)
      modifies this`sockets
      ensures sockets == if removable then old(sockets) - {path} else old(sockets)
    {
      if path in sockets && removable {
        sockets := sockets - {path};
      }
    }

    method RemoveRecord(luck: Luck)
      modifies this`record
      ensures record == if luck.removed then Absent else old(record)
    {
      if luck.removed {
        record := Absent;
      }
    }

    /**
     `reconcile_service_startup`. The socket goes when the recorded core was stopped here, or when there is none
     and nobody answers on it.
     */
    method ReconcileServiceStartup(luck: Luck, reachable: bool, ipcPath: string, removable: bool) returns (ok: bool)
      modifies this
      ensures Outcome(processes, record, startupReconciled) == Reconciled(old(processes), old(record), luck)
      ensures ok <==> startupReconciled
      ensures var cleaned := ok && old(record).Recorded? && (StillRuns(old(processes), old(record)) || !reachable);
              sockets == if cleaned && removable then old(sockets) - {ipcPath} else old(sockets)
    {
      startupReconciled := false;
      var read := ReadRecord(luck);
      if read.Err? {
        return false;
      }
      if read.value.Absent? {
        startupReconciled := true;
        return true;
      }
      var found := read.value.record;
      var current := ProcessIdentity(found.pid, luck);
      if current.Err? {
        return false;
      }
      if current.value == Some(found.identity) {
        var terminated := TerminateProcess(found.pid, luck);
        if !terminated {
          return false;
        }
        CleanupSocket(ipcPath, removable);
        RemoveRecord(luck);
        startupReconciled := true;
        return true;
      }
      if !reachable {
        CleanupSocket(ipcPath, removable);
      }
      RemoveRecord(luck);
      startupReconciled := true;
      ok := true;
    }
  }
}
