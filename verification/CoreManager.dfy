/**
 `CoreManager` as the object the service works on: `stop_core`, `stop_watchdog` and `start_core`, field by
 field, with everybody else free to act between any two accesses. Each method is shown to do nothing but
 steps of the transition system, so all that is proved of its runs holds of the methods.
 */
module Manager {
  import opened Wrappers
  import opened Supervision
  import opened SupervisionInvariant
  import opened SupervisionRuns

  /* ---------- what the others do meanwhile ---------- */

  predicate ByOthers(a: Action) {
    !a.ManagerMoves? && !a.Crash? && !a.Boot?
  }

  // They cannot touch an operation in progress, and never take a signal back.
  lemma OthersLeaveTheOperation(s: State, a: Action, s': State)
    requires ByOthers(a) && !s.operation.Idle? && Next(s, a) == Some(s')
    ensures s'.operation == s.operation
    ensures forall w | w in s.watchdogs :: w in s'.watchdogs && (s.watchdogs[w].signalled ==> s'.watchdogs[w].signalled)
  {
    hide WatchdogStep, TakeoverStepped, StageStepped, StopClashStepped;
    if a.WatchdogMoves? {
    } else if !a.CoreExits? && !a.ShutdownStops? {
      RequestStepHasEffect(s, a, s');
    }
  }

  ghost predicate Since(r: Run, r': Run) {
    r.states <= r'.states && r.actions <= r'.actions
  }

  // What becomes of a step with a new core: it works, the core is gone again, or it will not die.
  datatype Attempted = Worked | Over | Unkillable

  function Came(ok: bool, killed: bool): Attempted {
    if ok then Worked else if killed then Over else Unkillable
  }

  // What the environment has in store for a start: whether the runtime directory, the log and the process come
  // about, whether its output can be captured, whether its socket can be secured, whether the record is written,
  // whether a write that fails has still replaced the file, and whether a kill works.
  datatype Fortune = Fortune(prepared: bool, captured: bool, secured: bool, recorded: bool, replaced: bool,
                             killable: bool)
  {
    predicate Spawns() { prepared && captured }

    predicate Starts() { Spawns() && secured && recorded }
  }

  class CoreManager {
    var runningPid: nat
    var runningConfig: Option<Config>
    var failedChild: Option<nat>
    var watchdogShutdown: Option<nat>
    var watchdogHandle: Option<nat>
    // Everything else: cores, files, watchdogs, requests, and which operation holds the manager's lock.
    var service: State
    // How it came to this.
    ghost var past: Run

    function Now(): State
      reads this
    {
      service.(world := service.world.(fields := Fields(runningPid, runningConfig, failedChild, watchdogShutdown,
                                                        watchdogHandle)))
    }

    ghost predicate Valid()
      reads this
    {
      IsPath(past) && End(past) == Now() && Inv(Now())
    }

    constructor (s: State)
      requires Inv(s)
      ensures Valid() && Now() == s && past == Run([s], [])
    {
      var f := s.world.fields;
      runningPid, runningConfig, failedChild := f.runningPid, f.runningConfig, f.failedChild;
      watchdogShutdown, watchdogHandle := f.watchdogShutdown, f.watchdogHandle;
      service := s;
      past := Run([s], []);
    }

    // What was just done was one step.
    ghost method Happened(a: Action)
      requires IsPath(past) && Inv(End(past)) && Next(End(past), a) == Some(Now())
      modifies this`past
      ensures Valid() && Since(old(past), past)
    {
      hide Next, Inv;
      EveryStepKeepsInv(End(past), a, Now());
      past := Then(past, a, Now());
    }

    method Load(s: State)
      modifies this
      ensures Now() == s && past == old(past)
    {
      var f := s.world.fields;
      runningPid, runningConfig, failedChild := f.runningPid, f.runningConfig, f.failedChild;
      watchdogShutdown, watchdogHandle := f.watchdogShutdown, f.watchdogHandle;
      service := s;
    }

    // Another party takes one step.
    method OneOther(a: Action)
      requires Valid() && !service.operation.Idle? && ByOthers(a) && Next(Now(), a).Some?
      modifies this
      ensures Valid() && Since(old(past), past) && Next(old(Now()), a) == Some(Now())
      ensures service.operation == old(service.operation)
      ensures forall w | w in old(service.watchdogs) ::
                w in service.watchdogs && (old(service.watchdogs)[w].signalled ==> service.watchdogs[w].signalled)
    {
      hide Next, Inv;
      ghost var before := Now();
      var next := Next(Now(), a).value;
      OthersLeaveTheOperation(Now(), a, next);
      Load(next);
      Happened(a);
    }

    /** Between two accesses the other parties take any number of steps. */
    method Interfere()
      requires Valid() && !service.operation.Idle?
      modifies this
      ensures Valid() && Since(old(past), past) && service.operation == old(service.operation)
      ensures forall w | w in old(service.watchdogs) ::
                w in service.watchdogs && (old(service.watchdogs)[w].signalled ==> service.watchdogs[w].signalled)
    {
      hide Next, Inv;
      var steps: int := *;
      while steps > 0
        invariant Valid() && Since(old(past), past) && service.operation == old(service.operation)
        invariant forall w | w in old(service.watchdogs) ::
                    w in service.watchdogs && (old(service.watchdogs)[w].signalled ==> service.watchdogs[w].signalled)
      {
        var a: Action := *;
        if ByOthers(a) && Next(Now(), a).Some? {
          OneOther(a);
        }
        steps := steps - 1;
      }
    }

    /** Waiting for a watchdog that has been told to stop: it is let go on until it has ended. */
    method JoinWatchdog(w: nat, next: Continuation) returns (ok: bool)
      requires Valid() && service.operation == Stop(Joining(w), next)
      modifies this
      ensures Valid() && Since(old(past), past) && service.operation == Stop(TakingFailed(ok), next)
    {
      hide Next, Inv, WatchdogMoved, Rank, WayOut;
      JoinedIsSignalled(Now(), w);
      Interfere();
      while !service.watchdogs[w].phase.Finished?
        invariant Valid() && Since(old(past), past) && service.operation == Stop(Joining(w), next)
        invariant w in service.watchdogs && service.watchdogs[w].signalled
        decreases Rank(service.watchdogs[w].phase)
      {
        var a := WatchdogMoves(w, WayOut(service.watchdogs[w].phase));
        SignalledWatchdogCanFinish(Now(), w);
        NextOfWatchdog(Now(), w, a.move);
        OneOther(a);
      }
      ok := service.watchdogs[w].phase.ok;
      service := service.(operation := Stop(TakingFailed(ok), next));
      JoinIsAStep(End(past), w, next);
      Happened(ManagerMoves(Proceed));
    }

    // `watchdog_shutdown` is taken and the watchdog told to stop.
    method SendShutdown(next: Continuation)
      requires Valid() && service.operation == Stop(Signalling, next)
      modifies this
      ensures Valid() && Since(old(past), past) && service.operation == Stop(TakingHandle, next)
    {
      hide Next, Inv, IsPath;
      ghost var s := Now();
      var sender := watchdogShutdown;
      watchdogShutdown := None;
      service := service.(watchdogs := Signalled(service.watchdogs, sender), operation := Stop(TakingHandle, next));
      SignallingIsAStep(s, next);
      Happened(ManagerMoves(Proceed));
    }

    method TakeHandle(next: Continuation) returns (handle: Option<nat>)
      requires Valid() && service.operation == Stop(TakingHandle, next) && !next.ThenStart?
      modifies this
      ensures Valid() && Since(old(past), past)
      ensures service.operation == Stop(if handle.Some? then Joining(handle.value) else TakingFailed(true), next)
    {
      hide Next, Inv, IsPath;
      ghost var s := Now();
      handle := watchdogHandle;
      watchdogHandle := None;
      var taken := if handle.Some? then Joining(handle.value) else TakingFailed(true);
      service := service.(operation := Stop(taken, next));
      StopIsAStep(s, TakingHandle, next, Proceed, GoesOn(Now().world, taken));
      Happened(ManagerMoves(Proceed));
    }

    /** `stop_watchdog`: whether the watchdog, if there was one, ended well. */
    method StopWatchdog(next: Continuation) returns (joined: bool)
      requires Valid() && service.operation == Stop(Signalling, next) && !next.ThenStart?
      modifies this
      ensures Valid() && Since(old(past), past) && service.operation == Stop(TakingFailed(joined), next)
    {
      hide Next, Inv, IsPath;
      SendShutdown(next);
      Interfere();
      var handle := TakeHandle(next);
      joined := true;
      if handle.Some? {
        joined := JoinWatchdog(handle.value, next);
      }
    }

    // `failed_child` is taken.
    method TakeFailed(joined: bool, next: Continuation) returns (child: Option<nat>)
      requires Valid() && service.operation == Stop(TakingFailed(joined), next) && !next.ThenStart?
      modifies this
      ensures Valid() && Since(old(past), past)
      ensures service.operation == Stop(if child.Some? then Retrying(child.value) else ClearingPid, next)
      ensures child == old(failedChild)
    {
      hide Next, Inv, IsPath;
      ghost var s := Now();
      // The error of a watchdog that failed is never all there is: it has left its core behind.
      FailedWatchdogLeftItsCore(s, joined, next);
      child := failedChild;
      failedChild := None;
      var taken := if child.Some? then Retrying(child.value) else ClearingPid;
      service := service.(operation := Stop(taken, next));
      StopIsAStep(s, TakingFailed(joined), next, Proceed, GoesOn(Now().world, taken));
      Happened(ManagerMoves(Proceed));
    }

    /**
     `stop_core`, when a retried kill works if and only if `killable`, and the record can be removed if and only if
     `removable`. It returns, and always with success, unless a
     core was in `failed_child` and cannot be killed: then it waits for its own lock.
     */
    method StopCore(next: Continuation, killable: bool, removable: bool) returns (stopped: bool, ghost taking: Run)
      requires Valid() && service.operation == Stop(Signalling, next) && !next.ThenStart?
      modifies this
      ensures Valid() && Since(old(past), taking) && Since(taking, past)
      ensures IsPath(taking) && End(taking).operation.Stop? && End(taking).operation.stop.TakingFailed?
      ensures !stopped <==> End(taking).world.fields.failedChild.Some? && !killable
      ensures stopped ==> service.operation.Idle? && Quiet(Now()) && forall p :: !Tracked(Now(), p)
      ensures stopped && removable ==> service.world.record.None?
      ensures stopped ==>
                && runningPid == 0 && runningConfig.None? && failedChild.None?
                && watchdogShutdown.None? && watchdogHandle.None?
      ensures !stopped ==> Blocked(Now(), End(taking).world.fields.failedChild.value)
    {
      hide Next, Inv, IsPath, Tracked, Quiet;
      var joined := StopWatchdog(next);
      Interfere();
      taking := past;
      var child := TakeFailed(joined, next);
      if child.Some? {
        RetryKill(child.value, killable, next);
        if !killable {
          return false, taking;
        }
      }
      ClearRunning(next, removable);
      stopped := true;
    }

    // The part of `stop_core` after the last core is gone.
    method ClearRunning(next: Continuation, removable: bool)
      requires Valid() && service.operation == Stop(ClearingPid, next) && !next.ThenStart?
      modifies this
      ensures Valid() && Since(old(past), past) && service.operation.Idle?
      ensures Quiet(Now()) && (forall p :: !Tracked(Now(), p)) && Now().world.fields == NEW_MANAGER
      ensures removable ==> service.world.record.None?
    {
      hide Next, Inv, IsPath, Tracked, Quiet;
      Interfere();
      ClearPid(next);
      Interfere();
      ClearConfig(next);
      Interfere();
      RemoveRecord(next, removable);
    }

    // Killing the core an earlier failure left. If that fails again the core is to be put back, which waits for ever.
    method RetryKill(child: nat, killable: bool, next: Continuation)
      requires Valid() && service.operation == Stop(Retrying(child), next) && !next.ThenStart?
      modifies this
      ensures Valid() && Since(old(past), past)
      ensures service.operation == Stop(if killable then ClearingPid else PuttingBack(child), next)
    {
      hide Next, Inv, IsPath;
      Interfere();
      ghost var s := Now();
      var after := if killable then ClearingPid else PuttingBack(child);
      service := service.(world := if killable then service.world.Killing(child) else service.world,
                          operation := Stop(after, next));
      StopIsAStep(s, Retrying(child), next, Kill(killable), GoesOn(Now().world, after));
      Happened(ManagerMoves(Kill(killable)));
    }

    method ClearPid(next: Continuation)
      requires Valid() && service.operation == Stop(ClearingPid, next) && !next.ThenStart?
      modifies this
      ensures Valid() && Since(old(past), past) && service.operation == Stop(ClearingConfig, next) && runningPid == 0
    {
      hide Next, Inv, IsPath;
      ghost var s := Now();
      runningPid := 0;
      service := service.(operation := Stop(ClearingConfig, next));
      StopIsAStep(s, ClearingPid, next, Proceed, GoesOn(Now().world, ClearingConfig));
      Happened(ManagerMoves(Proceed));
    }

    method ClearConfig(next: Continuation)
      requires Valid() && service.operation == Stop(ClearingConfig, next) && !next.ThenStart?
      modifies this
      ensures Valid() && Since(old(past), past) && service.operation == Stop(RemovingRecord, next)
      ensures runningConfig.None?
    {
      hide Next, Inv, IsPath;
      ghost var s := Now();
      runningConfig := None;
      service := service.(operation := Stop(RemovingRecord, next));
      StopIsAStep(s, ClearingConfig, next, Proceed, GoesOn(Now().world, RemovingRecord));
      Happened(ManagerMoves(Proceed));
    }

    // The last step of a stop; whether the file can be removed does not matter to it.
    method RemoveRecord(next: Continuation, removable: bool)
      requires Valid() && service.operation == Stop(RemovingRecord, next) && !next.ThenStart?
      modifies this
      ensures Valid() && Since(old(past), past) && service.operation.Idle?
      ensures Quiet(Now()) && (forall p :: !Tracked(Now(), p)) && Now().world.fields == NEW_MANAGER
      ensures removable ==> service.world.record.None?
    {
      hide Next, Inv, Resumed, IsPath, Tracked, Quiet;
      ghost var s := Now();
      service := Return(service.(world := service.world.Unrecording(removable)), next, true);
      StopIsAStep(s, RemovingRecord, next, Supervision.RemoveRecord(removable), Returns(Now().world, true));
      Happened(ManagerMoves(Supervision.RemoveRecord(removable)));
      ManagerNext(s, Supervision.RemoveRecord(removable));
      StopReturns(s, removable, Now());
    }

    // The two checks a start begins with.
    method CheckStart(owner: Owner, config: Config) returns (ok: bool)
      requires Valid() && service.operation == Start(Checking, owner, config)
      modifies this
      ensures Valid() && Since(old(past), past) && ok == old(service.reconciled)
      ensures if ok then service.operation == Start(Preparing, owner, config)
              else service.operation.Idle? && Untaken(config) && failedChild.None?
    {
      hide Next, Inv, Resumed, IsPath;
      ghost var s := Now();
      StartIsQuiet(s);
      ok := service.reconciled;
      // A core that ran would be stopped first; none does.
      assert runningPid == 0;
      service := if ok then service.(operation := Start(Preparing, owner, config))
                 else Return(service, ToRequest, false);
      CheckingIsAStep(s, owner, config);
      Happened(ManagerMoves(Proceed));
    }

    // Nothing is held, or a core of `config` that could not be killed.
    predicate Untaken(config: Config)
      reads this
    {
      StartOver(Now().world, config)
    }

    method SpawnNew(owner: Owner, config: Config, fortune: Fortune) returns (pid: Option<nat>)
      requires Valid() && service.operation == Start(Preparing, owner, config)
      modifies this
      ensures Valid() && Since(old(past), past)
      ensures pid.Some? <==> fortune.Spawns()
      ensures pid.Some? ==> service.operation == Start(SecuringNew(pid.value), owner, config)
      ensures pid.None? ==> service.operation.Idle? && Untaken(config) && failedChild.None?
    {
      hide Next, Inv, Resumed, IsPath, StartOver;
      ghost var s := Now();
      NoChildKept(s);
      UnusedId(service.world.spawned.Keys + {0});
      // The pid is the system's choice.
      var p: nat :| p !in service.world.spawned.Keys + {0};
      ghost var m := FailToSpawn;
      pid := None;
      if !fortune.prepared {
        service := Return(service, ToRequest, false);
        StartIsAStep(s, Preparing, owner, config, m, Returns(Now().world, false));
      } else if !fortune.captured {
        // Its guard is dropped: it is left to a kill nobody waits for.
        m := LoseSpawned(p);
        service := Return(service.(world := service.world.Spawning(p, owner, config).Detaching(p)), ToRequest, false);
        StartIsAStep(s, Preparing, owner, config, m, Returns(Now().world, false));
      } else {
        m, pid := SpawnCore(p), Some(p);
        service := service.(world := service.world.Spawning(p, owner, config),
                            operation := Start(SecuringNew(p), owner, config));
        StartIsAStep(s, Preparing, owner, config, m, GoesOn(Now().world, SecuringNew(p)));
      }
      Happened(ManagerMoves(m));
    }

    // Securing the socket of a new core, or killing it, or keeping hold of what cannot be killed.
    method SecureNew(p: nat, owner: Owner, config: Config, ok: bool, killed: bool) returns (r: Attempted)
      requires Valid() && service.operation == Start(SecuringNew(p), owner, config)
      modifies this
      ensures Valid() && Since(old(past), past)
      ensures r == Came(ok, killed)
      ensures r.Worked? ==> service.operation == Start(RecordingNew(p), owner, config)
      ensures r.Over? ==> service.operation.Idle? && Untaken(config) && failedChild.None?
      ensures r.Over? ==> p !in service.world.alive
      ensures r.Unkillable? ==> service.operation == Start(KeepingPid(p, true), owner, config)
    {
      hide Next, Inv, Resumed, IsPath, StartOver;
      ghost var s := Now();
      NoChildKept(s);
      if ok || !killed {
        var after := if ok then RecordingNew(p) else KeepingPid(p, true);
        service := service.(operation := Start(after, owner, config));
        StartIsAStep(s, SecuringNew(p), owner, config, Secure(ok, killed), GoesOn(Now().world, after));
        r := if ok then Worked else Unkillable;
      } else {
        service := Return(service.(world := service.world.Killing(p)), ToRequest, false);
        StartIsAStep(s, SecuringNew(p), owner, config, Secure(ok, killed), Returns(Now().world, false));
        r := Over;
      }
      Happened(ManagerMoves(Secure(ok, killed)));
    }

    // Writing the runtime record, which may fail although the file has been replaced.
    method RecordNew(p: nat, owner: Owner, config: Config, ok: bool, written: bool, killed: bool)
      returns (r: Attempted)
      requires Valid() && service.operation == Start(RecordingNew(p), owner, config)
      modifies this
      ensures Valid() && Since(old(past), past)
      ensures r == Came(ok, killed)
      ensures r.Worked? ==> service.operation == Start(PublishingPid(p), owner, config)
      ensures r.Over? ==> service.operation.Idle? && Untaken(config) && failedChild.None?
      ensures r.Over? ==> p !in service.world.alive
      ensures r.Unkillable? ==> service.operation == Start(KeepingPid(p, false), owner, config)
    {
      hide Next, Inv, Resumed, IsPath, StartOver;
      ghost var s := Now();
      NoChildKept(s);
      var recorded := service.world.Recording(p, ok || written);
      if ok || !killed {
        var after := if ok then PublishingPid(p) else KeepingPid(p, false);
        service := service.(world := recorded, operation := Start(after, owner, config));
        StartIsAStep(s, RecordingNew(p), owner, config, WriteRecord(ok, written, killed), GoesOn(Now().world, after));
        r := if ok then Worked else Unkillable;
      } else {
        service := Return(service.(world := recorded.Killing(p)), ToRequest, false);
        StartIsAStep(s, RecordingNew(p), owner, config, WriteRecord(ok, written, killed), Returns(Now().world, false));
        r := Over;
      }
      Happened(ManagerMoves(WriteRecord(ok, written, killed)));
    }

    // `running_pid` is stored: of a core that works, or of one that could not be killed.
    method StorePid(p: nat, before: StartStep, after: StartStep, owner: Owner, config: Config)
      requires Valid() && service.operation == Start(before, owner, config)
      requires (before == PublishingPid(p) && after == PublishingConfig(p)) ||
               (before.KeepingPid? && before.pid == p && after == KeepingConfig(p, before.unsecured))
      modifies this
      ensures Valid() && Since(old(past), past) && service.operation == Start(after, owner, config)
    {
      hide Next, Inv, IsPath, StartOver;
      ghost var s := Now();
      runningPid := p;
      service := service.(operation := Start(after, owner, config), world := service.world.Publishing(p));
      StartIsAStep(s, before, owner, config, Proceed, GoesOn(Now().world, after));
      Happened(ManagerMoves(Proceed));
    }

    // `running_config` is stored.
    method StoreConfig(p: nat, before: StartStep, after: StartStep, owner: Owner, config: Config)
      requires Valid() && service.operation == Start(before, owner, config)
      requires (before == PublishingConfig(p) && after == Watching(p)) ||
               (before.KeepingConfig? && before.pid == p &&
                after == if before.unsecured then KeepingRecord(p) else KeepingChild(p))
      modifies this
      ensures Valid() && Since(old(past), past) && service.operation == Start(after, owner, config)
    {
      hide Next, Inv, IsPath, StartOver;
      ghost var s := Now();
      runningConfig := Some(config);
      service := service.(operation := Start(after, owner, config));
      StartIsAStep(s, before, owner, config, Proceed, GoesOn(Now().world, after));
      Happened(ManagerMoves(Proceed));
    }

    method KeepRecordOf(p: nat, written: bool, owner: Owner, config: Config)
      requires Valid() && service.operation == Start(KeepingRecord(p), owner, config)
      modifies this
      ensures Valid() && Since(old(past), past) && service.operation == Start(KeepingChild(p), owner, config)
      ensures written ==> service.world.record == Some(p)
    {
      hide Next, Inv, IsPath, StartOver;
      ghost var s := Now();
      service := service.(world := service.world.Recording(p, written),
                          operation := Start(KeepingChild(p), owner, config));
      StartIsAStep(s, KeepingRecord(p), owner, config, KeepRecord(written), GoesOn(Now().world, KeepingChild(p)));
      Happened(ManagerMoves(KeepRecord(written)));
    }

    method KeepChild(p: nat, owner: Owner, config: Config)
      requires Valid() && service.operation == Start(KeepingChild(p), owner, config)
      modifies this
      ensures Valid() && Since(old(past), past) && service.operation.Idle? && Untaken(config) && failedChild == Some(p)
    {
      hide Next, Inv, Resumed, IsPath, StartOver;
      ghost var s := Now();
      NoChildKept(s);
      failedChild := Some(p);
      service := Return(service, ToRequest, false);
      StartIsAStep(s, KeepingChild(p), owner, config, Proceed, Returns(Now().world, false));
      Happened(ManagerMoves(Proceed));
    }

    // A new core that failed and could not be killed is published and kept for the next stop.
    method KeepUnkillable(p: nat, unsecured: bool, written: bool, owner: Owner, config: Config)
      requires Valid() && service.operation == Start(KeepingPid(p, unsecured), owner, config)
      modifies this
      ensures Valid() && Since(old(past), past) && service.operation.Idle? && Untaken(config) && failedChild == Some(p)
    {
      hide Next, Inv, IsPath, StartOver;
      Interfere();
      StorePid(p, KeepingPid(p, unsecured), KeepingConfig(p, unsecured), owner, config);
      Interfere();
      var next := if unsecured then KeepingRecord(p) else KeepingChild(p);
      StoreConfig(p, KeepingConfig(p, unsecured), next, owner, config);
      if unsecured {
        Interfere();
        KeepRecordOf(p, written, owner, config);
      }
      Interfere();
      KeepChild(p, owner, config);
    }

    /** `start_watchdog`: the new core is handed to a new watchdog. */
    method StartWatchdog(p: nat, owner: Owner, config: Config)
      requires Valid() && service.operation == Start(Watching(p), owner, config)
      modifies this
      ensures Valid() && Since(old(past), past) && service.operation.Idle? && Supervised(owner, config)
    {
      hide Next, Inv, Resumed, IsPath;
      ghost var s := Now();
      WatchedCore(s);
      UnusedId(service.watchdogs.Keys);
      var w: nat :| w !in service.watchdogs;
      var dog := Watchdog(owner, config, false, Waiting(p));
      var watchdogs := Signalled(service.watchdogs, watchdogShutdown)[w := dog];
      service := Return(service.(watchdogs := watchdogs), ToRequest, true);
      watchdogShutdown, watchdogHandle := Some(w), Some(w);
      WatchingIsAStep(s, w, p, owner, config);
      Happened(ManagerMoves(Watch(w)));
    }

    /** A core runs for `owner` from `config`: recorded, published, and watched by the one watchdog. */
    predicate Supervised(owner: Owner, config: Config)
      reads this
    {
      && runningPid != 0 && runningConfig == Some(config) && failedChild.None?
      && runningPid in service.world.spawned && service.world.spawned[runningPid] == Spawned(owner, config)
      && service.world.record == Some(runningPid)
      && watchdogHandle.Some? && watchdogShutdown == watchdogHandle && watchdogHandle.value in service.watchdogs
      && service.watchdogs[watchdogHandle.value] == Watchdog(owner, config, false, Waiting(runningPid))
    }

    /**
     `start_core`: it succeeds exactly when the service is reconciled and nothing fails on the way, and then ends
     with a supervised core. Otherwise it ends with nothing, or with a core it spawned and could not kill.
     */
    method StartCore(owner: Owner, config: Config, fortune: Fortune) returns (ok: bool)
      requires Valid() && service.operation == Start(Checking, owner, config)
      modifies this
      ensures Valid() && Since(old(past), past) && service.operation.Idle?
      ensures ok <==> old(service.reconciled) && fortune.Starts()
      ensures if ok then Supervised(owner, config) else Untaken(config)
      ensures !ok ==> (failedChild.Some? <==> old(service.reconciled) && fortune.Spawns() && !fortune.killable)
    {
      hide Next, Inv, IsPath, StartOver, Supervised;
      ok := CheckStart(owner, config);
      if !ok {
        return;
      }
      Interfere();
      var pid := SpawnNew(owner, config, fortune);
      if pid.None? {
        return false;
      }
      ok := FinishStart(pid.value, owner, config, fortune);
    }

    // The part of `start_core` after a core has been spawned.
    method FinishStart(p: nat, owner: Owner, config: Config, fortune: Fortune) returns (ok: bool)
      requires Valid() && service.operation == Start(SecuringNew(p), owner, config)
      modifies this
      ensures Valid() && Since(old(past), past) && service.operation.Idle?
      ensures ok <==> fortune.secured && fortune.recorded
      ensures if ok then Supervised(owner, config) else Untaken(config)
      ensures !ok ==> failedChild == if fortune.killable then None else Some(p)
      ensures !ok && fortune.killable ==> p !in service.world.alive
    {
      hide Next, Inv, IsPath, StartOver, Supervised;
      Interfere();
      var secured := SecureNew(p, owner, config, fortune.secured, fortune.killable);
      if !secured.Worked? {
        if secured.Unkillable? {
          KeepUnkillable(p, true, fortune.recorded || fortune.replaced, owner, config);
        }
        return false;
      }
      Interfere();
      var recorded := RecordNew(p, owner, config, fortune.recorded, fortune.replaced, fortune.killable);
      if !recorded.Worked? {
        if recorded.Unkillable? {
          KeepUnkillable(p, false, fortune.replaced, owner, config);
        }
        return false;
      }
      PublishNew(p, owner, config);
      ok := true;
    }

    method PublishNew(p: nat, owner: Owner, config: Config)
      requires Valid() && service.operation == Start(PublishingPid(p), owner, config)
      modifies this
      ensures Valid() && Since(old(past), past) && service.operation.Idle? && Supervised(owner, config)
    {
      hide Next, Inv, IsPath, StartOver, Supervised;
      Interfere();
      StorePid(p, PublishingPid(p), PublishingConfig(p), owner, config);
      Interfere();
      StoreConfig(p, PublishingConfig(p), Watching(p), owner, config);
      Interfere();
      StartWatchdog(p, owner, config);
    }
  }

  lemma JoinedIsSignalled(s: State, w: nat)
    requires Inv(s) && s.operation.Stop? && s.operation.stop == Joining(w)
    ensures w in s.watchdogs && s.watchdogs[w].signalled
  {
    hide Coupled, Traced, AllAccountedFor, Isolated, Matched, PublishedOnce, RecordKept;
    assert Joinable(s, w);
  }

  lemma NextOfWatchdog(s: State, w: nat, m: Move)
    ensures Next(s, WatchdogMoves(w, m)) == WatchdogMoved(s, w, m)
  {}

  lemma JoinIsAStep(s: State, w: nat, next: Continuation)
    requires s.operation == Stop(Joining(w), next) && w in s.watchdogs && s.watchdogs[w].phase.Finished?
    ensures Next(s, ManagerMoves(Proceed)) == Some(s.(operation := Stop(TakingFailed(s.watchdogs[w].phase.ok), next)))
  {}

  lemma ManagerNext(s: State, m: Move)
    ensures Next(s, ManagerMoves(m)) == ManagerStep(s, m)
  {}

  lemma SignallingIsAStep(s: State, next: Continuation)
    requires s.operation == Stop(Signalling, next)
    ensures Next(s, ManagerMoves(Proceed)) ==
            Some(s.(watchdogs := Signalled(s.watchdogs, s.world.fields.watchdogShutdown),
                    world := s.world.(fields := s.world.fields.(watchdogShutdown := None)),
                    operation := Stop(TakingHandle, next)))
  {}

  lemma StopIsAStep(s: State, step: StopStep, next: Continuation, m: Move, o: Outcome<StopStep>)
    requires s.operation == Stop(step, next) && !step.Signalling? && !step.Joining?
    requires StopCoreStep(s.world, step, m) == Some(o)
    ensures Next(s, ManagerMoves(m)) == Some(if o.GoesOn? then s.(world := o.world, operation := Stop(o.step, next))
                                             else Return(s.(world := o.world), next, o.ok))
  {
    hide StopCoreStep, Return;
  }

  lemma FailedWatchdogLeftItsCore(s: State, joined: bool, next: Continuation)
    requires Inv(s) && s.operation == Stop(TakingFailed(joined), next)
    ensures !joined ==> s.world.fields.failedChild.Some?
  {}

  lemma StartIsQuiet(s: State)
    requires Inv(s) && s.operation.Start? && s.operation.start.Checking?
    ensures s.world.fields == NEW_MANAGER && s.world.published <= s.world.spawned.Keys
  {}

  lemma CheckingIsAStep(s: State, owner: Owner, config: Config)
    requires s.operation == Start(Checking, owner, config) && s.world.fields.runningPid == 0
    ensures Next(s, ManagerMoves(Proceed)) ==
            Some(if s.reconciled then s.(operation := Start(Preparing, owner, config)) else Return(s, ToRequest, false))
  {
    hide Return;
  }

  lemma StartIsAStep(s: State, step: StartStep, owner: Owner, config: Config, m: Move, o: Outcome<StartStep>)
    requires Inv(s) && s.operation == Start(step, owner, config) && !step.Checking? && !step.Watching?
    requires StartCoreStep(s.world, step, owner, config, m) == Some(o)
    ensures Next(s, ManagerMoves(m)) ==
            Some(if o.GoesOn? then s.(world := o.world, operation := Start(o.step, owner, config))
                 else Return(s.(world := o.world), ToRequest, o.ok))
    ensures o.Returns? ==> StartOver(o.world, config)
  {
    StartStandsOnWorld(s);
    StartWorldKept(s.world, step, owner, config, m, o);
    hide StartCoreStep, Return, Inv, StartOver, StartWorld;
  }

  lemma NoChildKept(s: State)
    requires Inv(s) && s.operation.Start?
    ensures s.world.fields.failedChild.None?
  {}

  // What a start knows when it hands its core over.
  lemma WatchedCore(s: State)
    requires Inv(s) && s.operation.Start? && s.operation.start.Watching?
    ensures var p, x := s.operation.start.pid, s.world;
            && p != 0 && x.fields == NEW_MANAGER.(runningPid := p, runningConfig := Some(s.operation.config))
            && p in x.spawned && x.spawned[p] == Spawned(s.operation.owner, s.operation.config) && x.record == Some(p)
  {}

  lemma WatchingIsAStep(s: State, w: nat, p: nat, owner: Owner, config: Config)
    requires s.operation == Start(Watching(p), owner, config) && w !in s.watchdogs
    ensures Next(s, ManagerMoves(Watch(w))) ==
            Some(Return(s.(watchdogs := Signalled(s.watchdogs, s.world.fields.watchdogShutdown)
                                        [w := Watchdog(owner, config, false, Waiting(p))],
                           world := s.world.(fields := s.world.fields.(watchdogShutdown := Some(w),
                                                                       watchdogHandle := Some(w)))),
                        ToRequest, true))
  {
    hide Return;
  }
}
