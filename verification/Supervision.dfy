/**
 Core supervision and the owner protocol as one transition system: the manager's operations, the watchdog
 tasks that run beside them, the requests that drive them, process exits, failing kills, and crashes and
 restarts of the service. One step is one access to something another party can see.
 */
module Supervision {
  import opened Wrappers
  import Reconcile

  type Owner = string

  // A `ClashConfig`.
  type Config = string

  // Whom a core was started for, and from what.
  datatype Spawned = Spawned(owner: Owner, config: Config)

  /* ---------- the watchdog task ---------- */

  datatype Phase =
    | Waiting(pid: nat)             // for its core to exit, or for shutdown
    | Cleared                       // the core is gone; the running pid is not yet cleared
    | Unrecording                   // pid cleared; the runtime record is not yet removed
    | Restarting                    // checking the limit, backing off, preparing the socket
    | Securing(pid: nat)            // spawned
    | Recording(pid: nat)           // secured
    | Publishing(pid: nat)          // recorded; the running pid is not yet set
    | Unsecured(pid: nat)           // could not be secured, then could not be killed
    | UnsecuredRecording(pid: nat)  // the same, after its pid was published
    | Unrecorded(pid: nat)          // could not be recorded, then could not be killed
    | Failing(pid: nat)             // a core that could not be killed is about to be handed to the manager
    | Ending                        // out of the loop
    | EndingRecord
    | Finished(ok: bool)
  {
    function Holds(): Option<nat> {
      match this
      case Waiting(p) => Some(p) case Securing(p) => Some(p) case Recording(p) => Some(p)
      case Publishing(p) => Some(p) case Unsecured(p) => Some(p) case UnsecuredRecording(p) => Some(p)
      case Unrecorded(p) => Some(p) case Failing(p) => Some(p)
      case _ => None
    }

    // Spawned, and its pid not yet stored in `running_pid`.
    predicate Unpublished() {
      Securing? || Recording? || Publishing? || Unsecured? || Unrecorded?
    }
  }

  datatype Watchdog = Watchdog(owner: Owner, config: Config, signalled: bool, phase: Phase)

  /* ---------- the manager ---------- */

  // The fields of `CoreManager` that supervision reads.
  datatype Fields = Fields(
    runningPid: nat,
    runningConfig: Option<Config>,
    failedChild: Option<nat>,
    watchdogShutdown: Option<nat>,
    watchdogHandle: Option<nat>)

  const NEW_MANAGER := Fields(0, None, None, None, None)

  datatype StopStep =
    | Signalling
    | TakingHandle
    | Joining(watchdog: nat)
    | TakingFailed(joined: bool)
    | Retrying(pid: nat)
    | PuttingBack(pid: nat)  // waits for a lock it holds itself
    | ClearingPid
    | ClearingConfig
    | RemovingRecord

  datatype StartStep =
    | Checking
    | Preparing
    | SecuringNew(pid: nat)
    | RecordingNew(pid: nat)
    | KeepingPid(pid: nat, unsecured: bool)     // the new core could not be killed after a failure
    | KeepingConfig(pid: nat, unsecured: bool)
    | KeepingRecord(pid: nat)
    | KeepingChild(pid: nat)
    | PublishingPid(pid: nat)
    | PublishingConfig(pid: nat)
    | Watching(pid: nat)
  {
    function Holds(): Option<nat> {
      match this
      case Checking => None case Preparing => None
      case SecuringNew(p) => Some(p) case RecordingNew(p) => Some(p)
      case KeepingPid(p, _) => Some(p) case KeepingConfig(p, _) => Some(p)
      case KeepingRecord(p) => Some(p) case KeepingChild(p) => Some(p)
      case PublishingPid(p) => Some(p) case PublishingConfig(p) => Some(p) case Watching(p) => Some(p)
    }

    predicate Unpublished() {
      SecuringNew? || RecordingNew? || KeepingPid? || PublishingPid?
    }
  }

  // Who waits for a stop: a request, the shutdown of the service, or a start that found a core running.
  datatype Continuation = ToRequest | ToShutdown | ThenStart(owner: Owner, config: Config)

  // The operation that holds the manager's lock.
  datatype Operation =
    | Idle
    | Stop(stop: StopStep, next: Continuation)
    | Start(start: StartStep, owner: Owner, config: Config)
  {
    function Holds(): Option<nat> {
      match this
      case Idle => None
      case Stop(Retrying(p), _) => Some(p)
      case Stop(PuttingBack(p), _) => Some(p)
      case Stop(_, _) => None
      case Start(step, _, _) => step.Holds()
    }
  }

  /* ---------- requests ---------- */

  datatype TakeoverStep =
    | WillStop | InStop | WillClear | WillMaterialize | WillStart | InStart
    | WillAbort | InAbort | WillCommit | WillRollBack | InRollBack | WillForget

  // The request that holds the owner lifecycle lock, or the restore at boot.
  datatype Request =
    | NoRequest
    | Takeover(owner: Owner, config: Config, takeover: TakeoverStep)
    | StopClash(owner: Owner, stopping: StopClashStep)
    | Stage(owner: Owner, seen: Option<(nat, Config)>, passed: bool)
    | Restore(owner: Owner, config: Config)

  datatype StopClashStep = WillStopOwn | InStopOwn | WillClearOwn

  /* ---------- the whole service ---------- */

  // What watchdogs and the manager share: the cores, the runtime record, and the manager's fields.
  datatype World = World(
    spawned: map<nat, Spawned>,  // every core ever spawned
    alive: set<nat>,
    detached: set<nat>,          // those given up to a fire-and-forget kill
    record: Option<nat>,
    fields: Fields,
    published: set<nat>)         // every pid `running_pid` has ever held
  {
    predicate Fresh(pid: nat) {
      pid != 0 && pid !in spawned
    }

    function Spawning(pid: nat, owner: Owner, config: Config): World {
      this.(spawned := spawned[pid := Spawned(owner, config)], alive := alive + {pid})
    }

    function Detaching(pid: nat): World {
      this.(detached := detached + {pid})
    }

    function Killing(pid: nat): World {
      this.(alive := alive - {pid})
    }

    function Recording(pid: nat, written: bool): World {
      if written then this.(record := Some(pid)) else this
    }

    function Unrecording(removed: bool): World {
      if removed then this.(record := None) else this
    }

    function Publishing(pid: nat): World {
      this.(fields := fields.(runningPid := pid), published := published + {pid})
    }

    function ClearingPid(): World {
      this.(fields := fields.(runningPid := 0))
    }

    // Overwriting `failed_child` drops the guard of whatever it held.
    function KeepingFailed(pid: nat): World {
      var kept := this.(fields := fields.(failedChild := Some(pid)));
      if fields.failedChild.Some? then kept.Detaching(fields.failedChild.value) else kept
    }
  }

  datatype State = State(
    world: World,
    active: Option<Owner>,
    orphans: set<nat>,           // cores that a crash of the service left behind
    up: bool,
    reconciled: bool,
    watchdogs: map<nat, Watchdog>,
    operation: Operation,
    request: Request)

  // What can happen at a step, where the environment has a say.
  datatype Move =
    | Proceed
    | SeeShutdown(killed: bool)
    | SeeExit
    | LoseChild
    | GiveUp
    | Kill(killed: bool)
    | RemoveRecord(removed: bool)
    | FailToSpawn
    | LoseSpawned(pid: nat)
    | SpawnCore(pid: nat)
    | Secure(ok: bool, killed: bool)
    | WriteRecord(ok: bool, written: bool, killed: bool)
    | KeepRecord(written: bool)
    | Watch(watchdog: nat)

  datatype Moved = Moved(world: World, phase: Phase)

  // A watchdog whose core runs.
  function WaitingStep(x: World, signalled: bool, p: nat, m: Move): Option<Moved> {
    if m.SeeShutdown? && signalled then
      Some(if m.killed then Moved(x.Killing(p), Ending) else Moved(x, Failing(p)))
    else if m.SeeExit? && p !in x.alive then Some(Moved(x, Cleared))
    else if m.LoseChild? then Some(Moved(x.Detaching(p), Ending))
    else None
  }

  // A watchdog without a core: past the limit it gives up, and only a backoff listens for shutdown.
  function RestartingStep(x: World, dog: Watchdog, m: Move): Option<Moved> {
    if m.GiveUp? || (m.SeeShutdown? && dog.signalled) then Some(Moved(x, Ending))
    else if m.FailToSpawn? then Some(Moved(x, Restarting))
    else if m.LoseSpawned? && x.Fresh(m.pid) then
      Some(Moved(x.Spawning(m.pid, dog.owner, dog.config).Detaching(m.pid), Restarting))
    else if m.SpawnCore? && x.Fresh(m.pid) then Some(Moved(x.Spawning(m.pid, dog.owner, dog.config), Securing(m.pid)))
    else None
  }

  function SecuringStep(x: World, p: nat, m: Move): Option<Moved> {
    if !m.Secure? then None
    else if m.ok then Some(Moved(x, Recording(p)))
    else Some(if m.killed then Moved(x.Killing(p), Restarting) else Moved(x, Unsecured(p)))
  }

  function RecordingStep(x: World, p: nat, m: Move): Option<Moved> {
    if !m.WriteRecord? then None
    else if m.ok then Some(Moved(x.Recording(p, true), Publishing(p)))
    else var x' := x.Recording(p, m.written);
         Some(if m.killed then Moved(x'.Killing(p), Ending) else Moved(x', Unrecorded(p)))
  }

  /** One step of a watchdog (`start_watchdog`), if `m` is possible there. */
  function WatchdogStep(x: World, dog: Watchdog, m: Move): Option<Moved> {
    match dog.phase
    case Waiting(p) => WaitingStep(x, dog.signalled, p, m)
    case Cleared => if m.Proceed? then Some(Moved(x.ClearingPid(), Unrecording)) else None
    case Unrecording => if m.RemoveRecord? then Some(Moved(x.Unrecording(m.removed), Restarting)) else None
    case Restarting => RestartingStep(x, dog, m)
    case Securing(p) => SecuringStep(x, p, m)
    case Recording(p) => RecordingStep(x, p, m)
    case Publishing(p) => if m.Proceed? then Some(Moved(x.Publishing(p), Waiting(p))) else None
    case Unsecured(p) => if m.Proceed? then Some(Moved(x.Publishing(p), UnsecuredRecording(p))) else None
    case UnsecuredRecording(p) => if m.KeepRecord? then Some(Moved(x.Recording(p, m.written), Failing(p))) else None
    case Unrecorded(p) => if m.Proceed? then Some(Moved(x.Publishing(p), Failing(p))) else None
    case Failing(p) => if m.Proceed? then Some(Moved(x.KeepingFailed(p), Finished(false))) else None
    case Ending => if m.Proceed? then Some(Moved(x.ClearingPid(), EndingRecord)) else None
    case EndingRecord => if m.RemoveRecord? then Some(Moved(x.Unrecording(m.removed), Finished(true))) else None
    case Finished(_) => None
  }

  // An operation goes on, or returns to whoever called it.
  datatype Outcome<Step> = GoesOn(world: World, step: Step) | Returns(world: World, ok: bool)

  function StopCoreStep(x: World, step: StopStep, m: Move): Option<Outcome<StopStep>> {
    var f := x.fields;
    match step
    case Signalling => None
    case TakingHandle =>
      if !m.Proceed? then None
      else Some(GoesOn(x.(fields := f.(watchdogHandle := None)),
                       if f.watchdogHandle.Some? then Joining(f.watchdogHandle.value) else TakingFailed(true)))
    case Joining(w) => None
    case TakingFailed(joined) =>
      if !m.Proceed? then None
      else if f.failedChild.Some? then
        Some(GoesOn(x.(fields := f.(failedChild := None)), Retrying(f.failedChild.value)))
      else if joined then Some(GoesOn(x, ClearingPid))
      else Some(Returns(x, false))
    case Retrying(p) =>
      if !m.Kill? then None
      else Some(if m.killed then GoesOn(x.Killing(p), ClearingPid) else GoesOn(x, PuttingBack(p)))
    // The guard under which the core was taken is still held here, and the lock is not reentrant.
    case PuttingBack(_) => None
    case ClearingPid => if m.Proceed? then Some(GoesOn(x.ClearingPid(), ClearingConfig)) else None
    case ClearingConfig =>
      if m.Proceed? then Some(GoesOn(x.(fields := f.(runningConfig := None)), RemovingRecord)) else None
    case RemovingRecord => if m.RemoveRecord? then Some(Returns(x.Unrecording(m.removed), true)) else None
  }

  function StartCoreStep(x: World, step: StartStep, owner: Owner, config: Config, m: Move): Option<Outcome<StartStep>> {
    var f := x.fields;
    match step
    case Checking => None
    case Preparing =>
      if m.FailToSpawn? then Some(Returns(x, false))
      else if m.LoseSpawned? && x.Fresh(m.pid) then
        Some(Returns(x.Spawning(m.pid, owner, config).Detaching(m.pid), false))
      else if m.SpawnCore? && x.Fresh(m.pid) then Some(GoesOn(x.Spawning(m.pid, owner, config), SecuringNew(m.pid)))
      else None
    case SecuringNew(p) =>
      if !m.Secure? then None
      else Some(if m.ok then GoesOn(x, RecordingNew(p))
                else if m.killed then Returns(x.Killing(p), false) else GoesOn(x, KeepingPid(p, true)))
    case RecordingNew(p) =>
      if !m.WriteRecord? then None
      else if m.ok then Some(GoesOn(x.Recording(p, true), PublishingPid(p)))
      else var x' := x.Recording(p, m.written);
           Some(if m.killed then Returns(x'.Killing(p), false) else GoesOn(x', KeepingPid(p, false)))
    case KeepingPid(p, unsecured) =>
      if m.Proceed? then Some(GoesOn(x.Publishing(p), KeepingConfig(p, unsecured))) else None
    case KeepingConfig(p, unsecured) =>
      if !m.Proceed? then None
      else Some(GoesOn(x.(fields := f.(runningConfig := Some(config))),
                       if unsecured then KeepingRecord(p) else KeepingChild(p)))
    case KeepingRecord(p) => if m.KeepRecord? then Some(GoesOn(x.Recording(p, m.written), KeepingChild(p))) else None
    case KeepingChild(p) => if m.Proceed? then Some(Returns(x.KeepingFailed(p), false)) else None
    case PublishingPid(p) => if m.Proceed? then Some(GoesOn(x.Publishing(p), PublishingConfig(p))) else None
    case PublishingConfig(p) =>
      if m.Proceed? then Some(GoesOn(x.(fields := f.(runningConfig := Some(config))), Watching(p))) else None
    case Watching(p) => None
  }

  // The watchdog whose sender is in `watchdog_shutdown` is told to stop: by a message, or by dropping the sender.
  function Signalled(watchdogs: map<nat, Watchdog>, sender: Option<nat>): map<nat, Watchdog> {
    if sender.Some? && sender.value in watchdogs
    then watchdogs[sender.value := watchdogs[sender.value].(signalled := true)]
    else watchdogs
  }

  // The operation is over; what waited for it goes on.
  function Return(s: State, next: Continuation, ok: bool): State {
    match next
    case ToShutdown => s.(operation := Idle)
    case ToRequest => s.(operation := Idle, request := Resumed(s.request, ok))
    case ThenStart(owner, config) =>
      if ok then s.(operation := Start(Preparing, owner, config))
      else s.(operation := Idle, request := Resumed(s.request, false))
  }

  // Where a request goes on after the manager's answer.
  function Resumed(r: Request, ok: bool): Request {
    match r
    case Takeover(owner, config, step) =>
      if step.InStop? && ok then Takeover(owner, config, WillClear)
      else if step.InStart? then Takeover(owner, config, if ok then WillCommit else WillAbort)
      else if step.InRollBack? && ok then Takeover(owner, config, WillForget)
      else NoRequest
    case StopClash(owner, step) => if step.InStopOwn? && ok then StopClash(owner, WillClearOwn) else NoRequest
    case _ => NoRequest
  }

  function Stopping(s: State, step: StopStep, next: Continuation, m: Move): Option<State> {
    match step
    case Signalling =>
      if !m.Proceed? then None
      else Some(s.(watchdogs := Signalled(s.watchdogs, s.world.fields.watchdogShutdown),
                   world := s.world.(fields := s.world.fields.(watchdogShutdown := None)),
                   operation := Stop(TakingHandle, next)))
    case Joining(w) =>
      if m.Proceed? && w in s.watchdogs && s.watchdogs[w].phase.Finished?
      then Some(s.(operation := Stop(TakingFailed(s.watchdogs[w].phase.ok), next))) else None
    case _ =>
      match StopCoreStep(s.world, step, m)
      case None => None
      case Some(GoesOn(x, step')) => Some(s.(world := x, operation := Stop(step', next)))
      case Some(Returns(x, ok)) => Some(Return(s.(world := x), next, ok))
  }

  function Starting(s: State, step: StartStep, owner: Owner, config: Config, m: Move): Option<State> {
    match step
    case Checking =>
      if !m.Proceed? then None
      else if !s.reconciled then Some(Return(s, ToRequest, false))
      else if s.world.fields.runningPid != 0 then Some(s.(operation := Stop(Signalling, ThenStart(owner, config))))
      else Some(s.(operation := Start(Preparing, owner, config)))
    case Watching(p) =>
      if !m.Watch? || m.watchdog in s.watchdogs then None
      else Some(Return(s.(watchdogs := Signalled(s.watchdogs, s.world.fields.watchdogShutdown)
                                       [m.watchdog := Watchdog(owner, config, false, Waiting(p))],
                          world := s.world.(fields := s.world.fields.(watchdogShutdown := Some(m.watchdog),
                                                                      watchdogHandle := Some(m.watchdog)))),
                       ToRequest, true))
    case _ =>
      match StartCoreStep(s.world, step, owner, config, m)
      case None => None
      case Some(GoesOn(x, step')) => Some(s.(world := x, operation := Start(step', owner, config)))
      case Some(Returns(x, ok)) => Some(Return(s.(world := x), ToRequest, ok))
  }

  /** One step of the manager's operation (`stop_core`, `stop_watchdog`, `start_core`). */
  function ManagerStep(s: State, m: Move): Option<State> {
    match s.operation
    case Idle => None
    case Stop(step, next) => Stopping(s, step, next, m)
    case Start(step, owner, config) => Starting(s, step, owner, config, m)
  }

  /* ---------- requests, boots and crashes ---------- */

  datatype Action =
    | CoreExits(pid: nat)
    | WatchdogMoves(watchdog: nat, move: Move)
    | ManagerMoves(move: Move)
    | TakeoverArrives(newOwner: Owner, newConfig: Config)
    | StopArrives(owner: Owner)
    | StageArrives(owner: Owner)
    | RequestFails       // something that is not modelled itself: loading, preparing, the proxy
    | CallManager
    | ClearActive(ok: bool)
    | Materialize
    | CommitOwner(written: bool, reported: bool)
    | ReadRunning
    | RecheckRunning
    | ShutdownStops
    | Crash
    | Boot(luck: Reconcile.Luck, restored: Option<Config>)

  // `running_core_config`.
  function RunningCoreConfig(f: Fields): Option<(nat, Config)> {
    if f.runningPid == 0 || f.runningConfig.None? then None else Some((f.runningPid, f.runningConfig.value))
  }

  // A takeover, from the loading of the previous owner to the commit of the new one or the end of its rollback.
  function TakeoverStepped(s: State, owner: Owner, config: Config, step: TakeoverStep, a: Action): Option<State> {
    match step
    case WillStop =>
      if a.RequestFails? then Some(s.(request := NoRequest))
      else if a.CallManager? && s.operation.Idle?
      then Some(s.(request := Takeover(owner, config, InStop), operation := Stop(Signalling, ToRequest))) else None
    case WillClear =>
      if !a.ClearActive? then None
      else if a.ok then Some(s.(active := None, request := Takeover(owner, config, WillMaterialize)))
      else Some(s.(request := NoRequest))
    case WillMaterialize =>
      if a.RequestFails? then Some(s.(request := NoRequest))
      else if a.Materialize? then Some(s.(request := Takeover(owner, config, WillStart))) else None
    case WillStart =>
      if a.CallManager? && s.operation.Idle?
      then Some(s.(request := Takeover(owner, config, InStart), operation := Start(Checking, owner, config))) else None
    case WillAbort =>
      if a.CallManager? && s.operation.Idle?
      then Some(s.(request := Takeover(owner, config, InAbort), operation := Stop(Signalling, ToRequest))) else None
    case WillCommit =>
      // A commit may fail although the active owner has been written.
      if !a.CommitOwner? || (a.reported && !a.written) then None
      else Some(s.(active := if a.written then Some(owner) else s.active,
                   request := if a.reported then NoRequest else Takeover(owner, config, WillRollBack)))
    case WillRollBack =>
      if a.CallManager? && s.operation.Idle?
      then Some(s.(request := Takeover(owner, config, InRollBack), operation := Stop(Signalling, ToRequest))) else None
    case WillForget =>
      if a.ClearActive? then Some(s.(active := if a.ok then None else s.active, request := NoRequest)) else None
    case _ => None
  }

  function StopClashStepped(s: State, owner: Owner, step: StopClashStep, a: Action): Option<State> {
    match step
    case WillStopOwn =>
      if a.RequestFails? then Some(s.(request := NoRequest))
      else if a.CallManager? && s.operation.Idle?
      then Some(s.(request := StopClash(owner, InStopOwn), operation := Stop(Signalling, ToRequest))) else None
    case InStopOwn => None
    case WillClearOwn =>
      if a.ClearActive? then Some(s.(active := if a.ok then None else s.active, request := NoRequest)) else None
  }

  // Staging reads pid and configuration under the manager's lock, and the pid again before it commits.
  function StageStepped(s: State, owner: Owner, seen: Option<(nat, Config)>, passed: bool, a: Action): Option<State> {
    var running := RunningCoreConfig(s.world.fields);
    if a.RequestFails? then Some(s.(request := NoRequest))
    else if passed || !s.operation.Idle? then None
    else if seen.None? && a.ReadRunning? then
      Some(s.(request := if running.None? then NoRequest else Stage(owner, running, false)))
    else if seen.Some? && a.RecheckRunning? then
      Some(s.(request := if running.Some? && running.value.0 == seen.value.0 then Stage(owner, seen, true)
                         else NoRequest))
    else None
  }

  // Requests that get in: an owner's session is only accepted while that owner is active.
  function Arrived(s: State, a: Action): Option<State> {
    match a
    case TakeoverArrives(owner, config) => Some(s.(request := Takeover(owner, config, WillStop)))
    case StopArrives(owner) =>
      if s.active == Some(owner) then Some(s.(request := StopClash(owner, WillStopOwn))) else None
    case StageArrives(owner) => if s.active == Some(owner) then Some(s.(request := Stage(owner, None, false))) else None
    case _ => None
  }

  function RequestStep(s: State, a: Action): Option<State> {
    match s.request
    case NoRequest => Arrived(s, a)
    case Takeover(owner, config, step) => TakeoverStepped(s, owner, config, step, a)
    case StopClash(owner, step) => StopClashStepped(s, owner, step, a)
    case Stage(owner, seen, passed) => StageStepped(s, owner, seen, passed, a)
    case Restore(_, _) => None
  }

  function WatchdogsHold(watchdogs: map<nat, Watchdog>): set<nat> {
    set w | w in watchdogs && watchdogs[w].phase.Holds().Some? :: watchdogs[w].phase.Holds().value
  }

  function Only(o: Option<nat>): set<nat> {
    if o.Some? then {o.value} else {}
  }

  /** The cores somebody is responsible for. */
  function Held(s: State): set<nat> {
    Only(s.operation.Holds()) + Only(s.world.fields.failedChild) + WatchdogsHold(s.watchdogs)
  }

  // The memory of the service is lost; the cores it held live on without it.
  function Crashed(s: State): State {
    s.(orphans := s.orphans + Held(s), up := false, reconciled := false, world := s.world.(fields := NEW_MANAGER),
       watchdogs := map[], operation := Idle, request := NoRequest)
  }

  // Pids are never reused here, so a live process with a recorded pid is the recorded process.
  function RecordFile(x: World): Reconcile.RecordFile<nat> {
    if x.record.None? then Reconcile.Absent
    else Reconcile.Recorded(Reconcile.RuntimeRecord(x.record.value, x.record.value))
  }

  function Reconciling(x: World, luck: Reconcile.Luck): Reconcile.Outcome<nat> {
    Reconcile.Reconciled(map p | p in x.alive :: p, RecordFile(x), luck)
  }

  function Booted(s: State, luck: Reconcile.Luck, restored: Option<Config>): State {
    var outcome := Reconciling(s.world, luck);
    var record := if outcome.record.Recorded? then Some(outcome.record.record.pid) else None;
    var s' := s.(up := true, reconciled := outcome.reconciled,
                 world := s.world.(alive := outcome.processes.Keys, record := record));
    if outcome.reconciled && s.active.Some? && restored.Some?
    then
      s'.(request := Restore(s.active.value, restored.value),
          operation := Start(Checking, s.active.value, restored.value))
    else s'
  }

  function WatchdogMoved(s: State, w: nat, m: Move): Option<State> {
    if w !in s.watchdogs then None
    else
      match WatchdogStep(s.world, s.watchdogs[w], m)
      case None => None
      case Some(Moved(x, phase)) =>
        Some(s.(world := x, watchdogs := s.watchdogs[w := s.watchdogs[w].(phase := phase)]))
  }

  /** Every step the service can take. */
  function Next(s: State, a: Action): Option<State> {
    match a
    case CoreExits(p) => Some(s.(world := s.world.Killing(p)))
    case Crash => if s.up then Some(Crashed(s)) else None
    case Boot(luck, restored) => if s.up then None else Some(Booted(s, luck, restored))
    case WatchdogMoves(w, m) => WatchdogMoved(s, w, m)
    case ManagerMoves(m) => ManagerStep(s, m)
    // The supervisor's shutdown stops the core without the lifecycle lock.
    case ShutdownStops =>
      if s.up && s.operation.Idle? then Some(s.(operation := Stop(Signalling, ToShutdown))) else None
    case _ => if s.up then RequestStep(s, a) else None
  }

  const FIRST_STATE :=
    State(World(map[], {}, {}, None, NEW_MANAGER, {}), None, {}, false, false, map[], Idle, NoRequest)
}
