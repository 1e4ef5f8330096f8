/**
 What the requests come to: that the pid everybody reads is the pid of the core that runs, what staging may conclude
 from it, who is active and since when, how every request ends and what it then leaves, and that none of them has to
 hang.
 */
module ProtocolRuns {
  import opened Wrappers
  import opened Supervision
  import opened SupervisionInvariant
  import opened SupervisionRuns
  import Reconcile

  /* ---------- the running pid follows the core ---------- */

  // What the running pid is while a watchdog is in `phase`.
  predicate PidIn(pid: nat, phase: Phase) {
    match phase
    case Waiting(p) => pid == p
    case UnsecuredRecording(p) => pid == p
    case Failing(p) => pid == p
    case Cleared => pid != 0
    case Ending => true
    case Finished(ok) => ok ==> pid == 0
    case _ => pid == 0
  }

  // The running pid is that of the core its holder watches, or keeps because it would not die; and zero between cores.
  predicate PidFollows(s: State) {
    var pid := s.world.fields.runningPid;
    && (forall w | w in s.watchdogs && (Joinable(s, w) || !s.watchdogs[w].phase.Finished?) ::
          PidIn(pid, s.watchdogs[w].phase))
    && (s.world.fields.failedChild.Some? ==> pid == s.world.fields.failedChild.value)
    && (s.operation.Stop? && s.operation.Holds().Some? ==> pid == s.operation.Holds().value)
  }

  lemma WatchdogKeepsPidIn(x: World, dog: Watchdog, m: Move, x': World, phase: Phase)
    requires WatchdogStep(x, dog, m) == Some(Moved(x', phase)) && PidIn(x.fields.runningPid, dog.phase)
    requires dog.phase.Holds() != Some(0)
    ensures PidIn(x'.fields.runningPid, phase)
    ensures x'.fields.failedChild.Some? && x'.fields.failedChild != x.fields.failedChild ==>
              x'.fields.runningPid == x'.fields.failedChild.value
  {}

  lemma WatchdogKeepsPidFollows(s: State, w: nat, m: Move, s': State)
    requires Inv(s) && PidFollows(s) && WatchdogMoved(s, w, m) == Some(s')
    ensures PidFollows(s')
  {
    hide Coupled, AllAccountedFor, Isolated, Matched, RecordKept, WatchdogStep, PidIn;
    WatchdogMovedHasEffect(s, w, m, s');
    var dog := s.watchdogs[w];
    assert !dog.phase.Finished? && Joinable(s, w);
    WatchdogKeepsPidIn(s.world, dog, m, s'.world, s'.watchdogs[w].phase);
    hide WatchdogMoved;
  }

  predicate PidHeld(x: World, held: Option<nat>) {
    && (x.fields.failedChild.Some? ==> x.fields.runningPid == x.fields.failedChild.value)
    && (held.Some? ==> x.fields.runningPid == held.value)
  }

  lemma StopCoreStepKeepsPid(x: World, step: StopStep, m: Move, o: Outcome<StopStep>)
    requires StopFields(x.fields, step) && StopCoreStep(x, step, m) == Some(o)
    requires PidHeld(x, Stop(step, ToShutdown).Holds())
    ensures PidHeld(o.world, if o.GoesOn? then Stop(o.step, ToShutdown).Holds() else None)
    ensures !PastWatchdog(step) ==> o.world.fields.runningPid == x.fields.runningPid
  {}

  lemma StopKeepsPidFollows(s: State, m: Move, s': State)
    requires Inv(s) && PidFollows(s) && s.operation.Stop? && ManagerStep(s, m) == Some(s')
    ensures PidFollows(s')
  {
    hide Traced, AllAccountedFor, Isolated, Matched, PublishedOnce, RecordKept, Resumed, PidIn, FailureKept, Stoppable,
         Quiet;
    if s.operation.stop.Signalling? {
      SignallingOnlySignals(s, m, s');
      hide ManagerStep, Coupled, OneWatchdog;
    } else if s.operation.stop.Joining? {
      hide Coupled, OneWatchdog;
    } else {
      var o := StopOutcome(s, m, s');
      StopCoreStepKeepsPid(s.world, s.operation.stop, m, o);
      StopFieldsKept(s.world, s.operation.stop, m, o);
      hide ManagerStep, StopCoreStep, OneWatchdog, Coupled;
    }
  }

  lemma StartKeepsPidFollows(s: State, m: Move, s': State)
    requires Inv(s) && PidFollows(s) && s.operation.Start? && ManagerStep(s, m) == Some(s')
    ensures PidFollows(s')
  {
    hide Traced, AllAccountedFor, Isolated, Matched, PublishedOnce, RecordKept, Resumed, FailureKept, Stoppable, Quiet;
    NoneJoinable(s);
    if MidStart(s) {
      var o := StartOutcome(s, m, s');
      StartStands(s);
      StartWorldKept(s.world, s.operation.start, s.operation.owner, s.operation.config, m, o);
      hide ManagerStep, StartCoreStep, Coupled, OneWatchdog;
    }
  }

  lemma StartStands(s: State)
    requires Inv(s) && s.operation.Start?
    ensures StartWorld(s.world, s.operation.start, s.operation.owner, s.operation.config)
  {
    hide Coupled, AllAccountedFor, Isolated, Matched;
    StartStandsOnWorld(s);
  }

  lemma StepKeepsPidFollows(s: State, a: Action, s': State)
    requires Inv(s) && PidFollows(s) && Next(s, a) == Some(s')
    ensures PidFollows(s')
  {
    hide RequestStep, ManagerStep, WatchdogMoved, PidIn, Inv;
    match a
    case WatchdogMoves(w, m) => WatchdogKeepsPidFollows(s, w, m, s');
    case ManagerMoves(m) =>
      ManagerActs(s, m);
      if s.operation.Stop? { StopKeepsPidFollows(s, m, s'); } else { StartKeepsPidFollows(s, m, s'); }
    case CoreExits(_) =>
    case Crash =>
    case Boot(_, _) => DownIsEmpty(s);
    case ShutdownStops =>
    case _ => RequestStepHasEffect(s, a, s');
  }

  lemma DownIsEmpty(s: State)
    requires Inv(s) && !s.up
    ensures s.watchdogs == map[] && s.world.fields == NEW_MANAGER && s.operation.Idle?
  {}

  /** In every run the pid that status, staging and start read is zero between cores and otherwise the core's. */
  lemma {:induction false} PidFollowsTheCore(r: Run, i: nat)
    requires IsRun(r) && i < |r.states|
    ensures Inv(r.states[i]) && PidFollows(r.states[i])
  {
    hide Inv, Next, PidFollows;
    RunsKeepInv(r, i);
    if i == 0 {
      assert PidFollows(FIRST_STATE) by { NobodyIsFollowed(); }
    } else {
      PidFollowsTheCore(r, i - 1);
      NextOnPath(r, i - 1);
      StepKeepsPidFollows(r.states[i - 1], r.actions[i - 1], r.states[i - 1 + 1]);
    }
  }

  lemma NobodyIsFollowed()
    ensures PidFollows(FIRST_STATE)
  {}

  // A core is only ever spawned while the pid is zero.
  lemma SpawnsUnderZero(s: State, a: Action, s': State)
    requires Inv(s) && PidFollows(s) && Next(s, a) == Some(s') && SpawnsCore(a)
    ensures s.world.fields.runningPid == 0
  {
    hide Traced, AllAccountedFor, Isolated, Matched, PublishedOnce, RecordKept, Coupled;
  }

  // Somebody, watchdog or manager, brings a core into the world.
  predicate SpawnsCore(a: Action) {
    (a.WatchdogMoves? || a.ManagerMoves?) && Spawns(a.move)
  }

  // Any core of this run that has not been given up is the one whose pid is read, if a pid is read.
  lemma TheCoreThatIsRead(s: State, q: nat)
    requires Inv(s) && PidFollows(s) && Tracked(s, q) && s.operation.Idle? && s.world.fields.runningPid != 0
    ensures q == s.world.fields.runningPid
  {
    hide Traced, Isolated, Matched, PublishedOnce, RecordKept, Coupled;
    if w :| w in s.watchdogs && s.watchdogs[w].phase.Holds() == Some(q) {
      assert !s.watchdogs[w].phase.Finished?;
    }
  }

  lemma StageReads(s: State, a: Action, s': State)
    requires Next(s, a) == Some(s') && (a.ReadRunning? || a.RecheckRunning?) && s'.request.Stage?
    ensures RunningCoreConfig(s.world.fields).Some? && s'.request.seen.Some? && s.operation.Idle?
    ensures a.ReadRunning? ==> s'.request.seen == RunningCoreConfig(s.world.fields) && !s'.request.passed
    ensures a.RecheckRunning? ==> s'.request.seen.value.0 == s.world.fields.runningPid
  {}

  /**
   Staging commits only for the core it began with. If it passes its last check, then since its first read nobody has
   spawned a core, the pid has not changed for a moment, and whatever core runs is the very one it read of.
   */
  lemma StagingSawNoRestart(r: Run, i: nat, j: nat, k: nat, q: nat)
    requires IsRun(r) && i < j < |r.actions| && i <= k <= j
    requires r.actions[i].ReadRunning? && r.states[i + 1].request.Stage?
    requires r.actions[j].RecheckRunning? && r.states[j + 1].request == r.states[i + 1].request.(passed := true)
    ensures r.states[i + 1].request.seen.Some? && !SpawnsCore(r.actions[k])
    ensures var (pid, config) := r.states[i + 1].request.seen.value;
            && r.states[k].world.fields.runningPid == pid != 0
            && pid in r.states[k].world.spawned && r.states[k].world.spawned[pid].config == config
            && (Tracked(r.states[i], q) || Tracked(r.states[j], q) ==> q == pid)
  {
    NextOnPath(r, i);
    NextOnPath(r, j);
    NextOnPath(r, k);
    StageReads(r.states[i], r.actions[i], r.states[i + 1]);
    StageReads(r.states[j], r.actions[j], r.states[j + 1]);
    hide Next, Inv, PidFollows;
    PidAndConfigMatch(r, i);
    PidsNeverReturn(r, i, k, j);
    SpawnedIsForGood(r, i, k, r.states[i].world.fields.runningPid);
    PidFollowsTheCore(r, i);
    PidFollowsTheCore(r, j);
    PidFollowsTheCore(r, k);
    if SpawnsCore(r.actions[k]) {
      SpawnsUnderZero(r.states[k], r.actions[k], r.states[k + 1]);
    }
    if Tracked(r.states[i], q) { TheCoreThatIsRead(r.states[i], q); }
    if Tracked(r.states[j], q) { TheCoreThatIsRead(r.states[j], q); }
  }

  /** And the check refuses nothing else: it passes exactly when the pid is still the one that was read. */
  lemma StageChecksThePid(s: State, a: Action, s': State)
    requires Next(s, a) == Some(s') && s.request.Stage?
    ensures a.ReadRunning? ==>
              s'.request == if RunningCoreConfig(s.world.fields).None? then NoRequest
                            else s.request.(seen := RunningCoreConfig(s.world.fields))
    ensures a.RecheckRunning? ==>
              s.request.seen.Some? &&
              (s'.request == s.request.(passed := true) <==>
               s.world.fields.runningConfig.Some? && s.world.fields.runningPid == s.request.seen.value.0 != 0)
  {}

  /* ---------- who is active ---------- */

  /** The owner of the last commit that was written, unless a clear has succeeded since. */
  function LastWritten(r: Run, i: nat): Option<Owner>
    requires IsPath(r) && i < |r.states|
  {
    if i == 0 then r.states[0].active
    else
      match r.actions[i - 1]
      case ClearActive(ok) => if ok then None else LastWritten(r, i - 1)
      case CommitOwner(written, _) =>
        if written && r.states[i - 1].request.Takeover? then Some(r.states[i - 1].request.owner)
        else LastWritten(r, i - 1)
      case _ => LastWritten(r, i - 1)
  }

  lemma ActiveStep(s: State, a: Action, s': State)
    requires Next(s, a) == Some(s')
    ensures s'.active ==
            match a
            case ClearActive(ok) => if ok then None else s.active
            case CommitOwner(written, _) =>
              if written && s.request.Takeover? then Some(s.request.owner) else s.active
            case _ => s.active
  {
    hide StopCoreStep, StartCoreStep, WatchdogStep, Resumed, RunningCoreConfig;
  }

  /** At every moment, crashes and boots included, the active owner is the one that was written last. */
  lemma {:induction false} ActiveIsLastWritten(r: Run, i: nat)
    requires IsPath(r) && i < |r.states|
    ensures r.states[i].active == LastWritten(r, i)
  {
    hide Next;
    if i > 0 {
      ActiveIsLastWritten(r, i - 1);
      NextOnPath(r, i - 1);
      ActiveStep(r.states[i - 1], r.actions[i - 1], r.states[i - 1 + 1]);
    }
  }

  // A commit that writes.
  predicate Activates(a: Action) {
    a.CommitOwner? && a.written
  }

  /**
   A session that was cleared is over: from then on, until a commit has written, nobody is active, and neither a stop
   nor a staging of anyone is let in.
   */
  lemma {:induction false} ClearedIsOver(r: Run, i: nat, j: nat, owner: Owner)
    requires IsPath(r) && i < j < |r.states| && r.actions[i] == ClearActive(true)
    requires forall k | i < k < j :: !Activates(r.actions[k])
    ensures r.states[j].active.None?
    ensures Next(r.states[j], StopArrives(owner)).None? && Next(r.states[j], StageArrives(owner)).None?
  {
    hide Next;
    NextOnPath(r, j - 1);
    ActiveStep(r.states[j - 1], r.actions[j - 1], r.states[j - 1 + 1]);
    if i < j - 1 { ClearedIsOver(r, i, j - 1, owner); }
    GateOf(r.states[j], owner);
  }

  // Who gets in: anyone to take over, an owner to stop or stage only while active.
  lemma GateOf(s: State, owner: Owner)
    ensures Next(s, StopArrives(owner)).Some? <==> s.up && s.request.NoRequest? && s.active == Some(owner)
    ensures Next(s, StageArrives(owner)).Some? <==> s.up && s.request.NoRequest? && s.active == Some(owner)
    ensures forall config :: Next(s, TakeoverArrives(owner, config)).Some? <==> s.up && s.request.NoRequest?
  {
    hide RunningCoreConfig;
  }

  /* ---------- how requests end ---------- */

  /**
   How a stop answers, in any state at all. It fails exactly when its watchdog has failed and left nothing behind; then
   whoever waited for it gives up, and a start that waited does not go on. After a success a start does.
   */
  lemma HowAStopAnswers(s: State, m: Move, s': State)
    requires s.operation.Stop? && ManagerStep(s, m) == Some(s')
    ensures !s'.operation.Stop? && !m.RemoveRecord? <==>
              s.operation.stop == TakingFailed(false) && s.world.fields.failedChild.None?
    ensures !s'.operation.Stop? && !m.RemoveRecord? ==> s'.operation.Idle? && s'.world == s.world
    ensures !s'.operation.Stop? && !m.RemoveRecord? && !s.operation.next.ToShutdown? && AwaitsStop(s.request) ==>
              s'.request.NoRequest?
    ensures !s'.operation.Stop? && m.RemoveRecord? && s.operation.next.ThenStart? ==>
              s'.operation == Start(Preparing, s.operation.next.owner, s.operation.next.config) &&
              s'.request == s.request
    ensures s.operation.next.ToShutdown? ==> s'.request == s.request
  {}

  /** How a start begins, in any state at all: it refuses before reconciliation, and stops whatever pid it reads. */
  lemma HowAStartBegins(s: State, m: Move, s': State)
    requires s.operation.Start? && s.operation.start.Checking? && ManagerStep(s, m) == Some(s')
    ensures s'.operation.Idle? <==> !s.reconciled
    ensures s'.operation.Stop? <==> s.reconciled && s.world.fields.runningPid != 0
    ensures s'.operation.Stop? ==>
              s'.operation == Stop(Signalling, ThenStart(s.operation.owner, s.operation.config)) &&
              s'.request == s.request
    ensures s'.operation.Start? ==> s'.operation == s.operation.(start := Preparing) && s'.request == s.request
    ensures s'.world == s.world && s'.watchdogs == s.watchdogs
  {}

  // Nothing has happened but that the request is over.
  predicate OnlyEnded(s: State, s': State) {
    s' == s.(request := NoRequest)
  }

  /**
   Every way a takeover can end. It fails before it has touched anything, or when the previous owner has been stopped;
   it commits; or, once it has started a core of its own, it stops that again first, and if it had got as far as a
   commit it clears the active owner, whoever that is by then.
   */
  lemma TakeoverEnds(r: Run, i: nat)
    requires IsRun(r) && i < |r.actions| && r.states[i].request.Takeover? && !r.states[i + 1].request.Takeover?
    ensures r.states[i + 1].request.NoRequest?
    ensures var s, s', step := r.states[i], r.states[i + 1], r.states[i].request.takeover;
            match r.actions[i]
            case Crash => true
            case RequestFails => (step.WillStop? || (step.WillMaterialize? && Quiet(s))) && OnlyEnded(s, s')
            case CommitOwner(written, reported) =>
              step.WillCommit? && written && reported && s'.active == Some(s.request.owner)
            case ClearActive(ok) =>
              && Quiet(s')
              && ((step.WillClear? && !ok && OnlyEnded(s, s')) ||
                  (step.WillForget? && s'.active == if ok then None else s.active))
            case ManagerMoves(m) => step.InAbort? && m.RemoveRecord? && Quiet(s') && s'.active.None?
            case _ => false
  {
    RunsKeepInv(r, i);
    RunsKeepInv(r, i + 1);
    NextOnPath(r, i);
    TakeoverStepEnds(r.states[i], r.actions[i], r.states[i + 1]);
  }

  lemma TakeoverStepEnds(s: State, a: Action, s': State)
    requires Inv(s) && Inv(s') && Next(s, a) == Some(s') && s.request.Takeover? && !s'.request.Takeover?
    ensures s'.request.NoRequest?
    ensures match a
            case Crash => true
            case RequestFails =>
              (s.request.takeover.WillStop? || (s.request.takeover.WillMaterialize? && Quiet(s))) && OnlyEnded(s, s')
            case CommitOwner(written, reported) =>
              s.request.takeover.WillCommit? && written && reported && s'.active == Some(s.request.owner)
            case ClearActive(ok) =>
              && Quiet(s')
              && ((s.request.takeover.WillClear? && !ok && OnlyEnded(s, s')) ||
                  (s.request.takeover.WillForget? && s'.active == if ok then None else s.active))
            case ManagerMoves(m) => s.request.takeover.InAbort? && m.RemoveRecord? && Quiet(s') && s'.active.None?
            case _ => false
  {
    hide Custody, Traced, AllAccountedFor, Matched, PublishedOnce, RecordKept, WatchdogMoved;
    match a
    case ManagerMoves(m) => AbortEnds(s, m, s');
    case Boot(_, _) => DownIsEmpty(s);
    case WatchdogMoves(w, m) => WatchdogLeavesRequests(s, w, m, s');
    case _ =>
      hide ManagerStep;
  }

  lemma AbortEnds(s: State, m: Move, s': State)
    requires Inv(s) && Inv(s') && ManagerStep(s, m) == Some(s') && s.request.Takeover? && !s'.request.Takeover?
    ensures s'.request.NoRequest? && s.request.takeover.InAbort? && m.RemoveRecord? && Quiet(s') && s'.active.None?
  {
    ManagerActs(s, m);
    if s.operation.Stop? {
      if s'.operation.Stop? {
        StopKeepsRequest(s, m, s');
      } else {
        OnlyWayOut(s, m, s');
        StopReturns(s, m.removed, s');
        hide Custody, Traced, AllAccountedFor, Matched, PublishedOnce, RecordKept, Quiet, ManagerStep, OwnedBy;
      }
    } else {
      StartingOnlyResumes(s, s.operation.start, s.operation.owner, s.operation.config, m, s');
      hide Custody, Traced, AllAccountedFor, Matched, PublishedOnce, RecordKept, Quiet, ManagerStep, OwnedBy, Isolated;
    }
  }

  lemma StopKeepsRequest(s: State, m: Move, s': State)
    requires s.operation.Stop? && ManagerStep(s, m) == Some(s') && s'.operation.Stop? && Coupled(s)
    ensures s'.request == s.request
  {
    hide StopCoreStep, Resumed, Signalled, Quiet;
  }

  /**
   Every way a stop of an owner's own core can end: it fails before it has touched anything, or it has got to its last
   step, with no core left; and if that step works, nobody is active any more.
   */
  lemma StopClashEnds(r: Run, i: nat)
    requires IsRun(r) && i < |r.actions| && r.states[i].request.StopClash? && !r.states[i + 1].request.StopClash?
    ensures r.states[i + 1].request.NoRequest?
    ensures var s, s', step := r.states[i], r.states[i + 1], r.states[i].request.stopping;
            match r.actions[i]
            case Crash => true
            case RequestFails => step.WillStopOwn? && OnlyEnded(s, s')
            case ClearActive(ok) => step.WillClearOwn? && Quiet(s') && s'.active == if ok then None else s.active
            case _ => false
  {
    RunsKeepInv(r, i);
    RunsKeepInv(r, i + 1);
    NextOnPath(r, i);
    StopClashStepEnds(r.states[i], r.actions[i], r.states[i + 1]);
  }

  lemma StopClashStepEnds(s: State, a: Action, s': State)
    requires Inv(s) && Inv(s') && Next(s, a) == Some(s') && s.request.StopClash? && !s'.request.StopClash?
    ensures s'.request.NoRequest?
    ensures match a
            case Crash => true
            case RequestFails => s.request.stopping.WillStopOwn? && OnlyEnded(s, s')
            case ClearActive(ok) =>
              s.request.stopping.WillClearOwn? && Quiet(s') && s'.active == if ok then None else s.active
            case _ => false
  {
    hide Custody, Traced, AllAccountedFor, Isolated, Matched, PublishedOnce, RecordKept, WatchdogMoved;
    match a
    case ManagerMoves(m) => StopClashGoesOn(s, m, s');
    case Boot(_, _) => DownIsEmpty(s);
    case WatchdogMoves(w, m) => WatchdogLeavesRequests(s, w, m, s');
    case _ =>
      hide ManagerStep;
  }

  lemma StopClashGoesOn(s: State, m: Move, s': State)
    requires Inv(s) && ManagerStep(s, m) == Some(s') && s.request.StopClash?
    ensures s'.request.StopClash?
  {
    ManagerActs(s, m);
    if s.operation.Stop? {
      if s'.operation.Stop? {
        StopKeepsRequest(s, m, s');
      } else {
        OnlyWayOut(s, m, s');
        hide Custody, Traced, AllAccountedFor, Isolated, Matched, PublishedOnce, RecordKept, Quiet, ManagerStep;
      }
    } else {
      hide Custody, Traced, AllAccountedFor, Isolated, Matched, PublishedOnce, RecordKept, Quiet, ManagerStep;
    }
  }

  /* ---------- what a takeover's core is started on ---------- */

  /** The owner and the configuration the generation was last rebuilt for. */
  function LastMaterialized(r: Run, i: nat): Option<(Owner, Config)>
    requires IsPath(r) && i < |r.states|
  {
    if i == 0 then None
    else if r.actions[i - 1].Materialize? && r.states[i - 1].request.Takeover? then
      Some((r.states[i - 1].request.owner, r.states[i - 1].request.config))
    else LastMaterialized(r, i - 1)
  }

  // From its materializing on.
  predicate PastMaterializing(r: Request) {
    r.Takeover? && !r.takeover.WillStop? && !r.takeover.InStop? && !r.takeover.WillClear? &&
    !r.takeover.WillMaterialize?
  }

  lemma MaterializesBeforehand(s: State, a: Action, s': State)
    requires Coupled(s) && Next(s, a) == Some(s') && PastMaterializing(s'.request)
    ensures s'.request.owner == s.request.owner && s'.request.config == s.request.config && s.request.Takeover?
    ensures PastMaterializing(s.request) || a.Materialize?
    ensures a.Materialize? ==> s.request.takeover.WillMaterialize?
  {
    hide Quiet, ManagerStep, WatchdogMoved, RunningCoreConfig;
    match a
    case ManagerMoves(m) =>
      ManagerActs(s, m);
      ManagerResumes(s, m, s');
    case WatchdogMoves(w, m) => WatchdogLeavesRequests(s, w, m, s');
    case _ =>
  }

  /** No takeover starts a core but on the generation that was rebuilt last, by itself, and for its configuration. */
  lemma {:induction false} StartsOnItsGeneration(r: Run, i: nat)
    requires IsRun(r) && i < |r.states| && PastMaterializing(r.states[i].request)
    ensures LastMaterialized(r, i) == Some((r.states[i].request.owner, r.states[i].request.config))
  {
    hide Next, Inv;
    if i > 0 {
      NextOnPath(r, i - 1);
      RunsKeepInv(r, i - 1);
      InvIsCoupled(r.states[i - 1]);
      MaterializesBeforehand(r.states[i - 1], r.actions[i - 1], r.states[i - 1 + 1]);
      if PastMaterializing(r.states[i - 1].request) { StartsOnItsGeneration(r, i - 1); }
    }
  }

  lemma InvIsCoupled(s: State)
    requires Inv(s)
    ensures Coupled(s)
  {}

  /* ---------- nothing has to hang ---------- */

  // How far a start is from its return by the shortest way.
  function StartRank(step: StartStep): nat {
    match step
    case Checking => 10
    case Preparing => 1
    case SecuringNew(_) => 1
    case RecordingNew(_) => 1
    case KeepingPid(_, _) => 4
    case KeepingConfig(_, _) => 3
    case KeepingRecord(_) => 2
    case KeepingChild(_) => 1
    case PublishingPid(_) => 3
    case PublishingConfig(_) => 2
    case Watching(_) => 1
  }

  function StartWayOut(step: StartStep, unused: nat): Move {
    match step
    case Preparing => FailToSpawn
    case SecuringNew(_) => Secure(false, true)
    case RecordingNew(_) => WriteRecord(false, false, true)
    case KeepingRecord(_) => KeepRecord(true)
    case Watching(_) => Watch(unused)
    case _ => Proceed
  }

  lemma StartGoesOn(s: State) returns (a: Action, s': State)
    requires Inv(s) && s.up && s.operation.Start?
    ensures !a.Crash? && Next(s, a) == Some(s') && s'.up
    ensures s'.active == s.active && s'.reconciled == s.reconciled
    ensures if s'.operation.Start? then
              s'.request == s.request && StartRank(s'.operation.start) < StartRank(s.operation.start)
            else
              s'.operation.Idle? && (s'.request == Resumed(s.request, true) || s'.request == Resumed(s.request, false))
  {
    hide Traced, AllAccountedFor, Isolated, Matched, PublishedOnce, RecordKept, Resumed, OneWatchdog, FailureKept;
    UnusedId(s.watchdogs.Keys);
    var w: nat :| w !in s.watchdogs;
    a := ManagerMoves(StartWayOut(s.operation.start, w));
    s' := Next(s, a).value;
  }

  // Whatever the manager is doing it can finish, and the request that waits for it goes on.
  lemma {:induction false} StartCanReturn(r: Run) returns (r': Run)
    requires IsPath(r) && CrashFree(r) && Inv(End(r)) && End(r).up && End(r).operation.Start?
    ensures IsPath(r') && CrashFree(r') && r'.states[0] == r.states[0] && Inv(End(r')) && End(r').up
    ensures End(r').operation.Idle?
    ensures End(r').request == Resumed(End(r).request, true) || End(r').request == Resumed(End(r).request, false)
    decreases StartRank(End(r).operation.start)
  {
    hide Next, Inv, IsPath, StartRank, Resumed;
    var s := End(r);
    var a, s' := StartGoesOn(s);
    EveryStepKeepsInv(s, a, s');
    r' := Then(r, a, s');
    if s'.operation.Start? {
      r' := StartCanReturn(r');
    }
  }

  // How far a request is from its end.
  function RequestRank(q: Request): nat {
    match q
    case NoRequest => 0
    case Stage(_, _, _) => 1
    case Restore(_, _) => 1
    case StopClash(_, step) => if step.WillStopOwn? then 1 else if step.InStopOwn? then 2 else 1
    case Takeover(_, _, step) =>
      match step
      case WillStop => 1
      case InStop => 10
      case WillClear => 9
      case WillMaterialize => 1
      case WillStart => 8
      case InStart => 7
      case WillAbort => 6
      case InAbort => 5
      case WillCommit => 1
      case WillRollBack => 4
      case InRollBack => 3
      case WillForget => 1
  }

  function RequestWayOut(q: Request): Action {
    match q
    case Takeover(_, _, step) =>
      if step.WillStop? || step.WillMaterialize? then RequestFails
      else if step.WillClear? || step.WillForget? then ClearActive(false)
      else if step.WillCommit? then CommitOwner(true, true)
      else CallManager
    case StopClash(_, step) => if step.WillStopOwn? then RequestFails else ClearActive(true)
    case _ => RequestFails
  }

  lemma RequestGoesOn(s: State) returns (s': State)
    requires Inv(s) && s.up && s.operation.Idle? && !s.request.NoRequest?
    ensures Next(s, RequestWayOut(s.request)) == Some(s') && s'.up
    ensures RequestRank(s'.request) < RequestRank(s.request)
    ensures s'.operation.Stop? ==> !s'.operation.stop.PuttingBack?
  {
    hide Custody, Traced, AllAccountedFor, Isolated, Matched, PublishedOnce, RecordKept, Quiet;
    s' := Next(s, RequestWayOut(s.request)).value;
  }

  lemma ResumedGoesOn(s: State, ok: bool)
    requires Coupled(s) && !s.operation.Idle?
    ensures s.operation.Stop? && s.operation.next.ToRequest? && ok ==>
              RequestRank(Resumed(s.request, ok)) < RequestRank(s.request)
    ensures s.operation.Start? ==> RequestRank(Resumed(s.request, ok)) < RequestRank(s.request)
  {
    hide Quiet;
  }

  lemma {:induction false} RequestCanEnd(r: Run) returns (r': Run)
    requires IsPath(r) && CrashFree(r) && Inv(End(r)) && End(r).up && End(r).operation.Idle?
    ensures IsPath(r') && CrashFree(r') && r'.states[0] == r.states[0] && Inv(End(r')) && End(r').up
    ensures End(r').operation.Idle? && End(r').request.NoRequest?
    decreases RequestRank(End(r).request)
  {
    hide Next, Inv, IsPath, RequestRank, Resumed, Coupled;
    r' := r;
    if End(r).request.NoRequest? {
      return;
    }
    var s' := RequestGoesOn(End(r));
    EveryStepKeepsInv(End(r), RequestWayOut(End(r).request), s');
    r' := Then(r, RequestWayOut(End(r).request), s');
    r' := ManagerCanFinish(r');
    r' := RequestCanEnd(r');
  }

  lemma ManagerCanFinish(r: Run) returns (r': Run)
    requires IsPath(r) && CrashFree(r) && Inv(End(r)) && End(r).up
    requires End(r).operation.Stop? ==> !End(r).operation.stop.PuttingBack?
    ensures IsPath(r') && CrashFree(r') && r'.states[0] == r.states[0] && Inv(End(r')) && End(r').up
    ensures End(r').operation.Idle? && RequestRank(End(r').request) <= RequestRank(End(r).request)
  {
    hide Next, Inv, IsPath, RequestRank, Resumed, Coupled;
    InvIsCoupled(End(r));
    r' := r;
    if End(r).operation.Stop? {
      ResumedGoesOn(End(r), true);
      r' := StopCanReturn(r);
    } else if End(r).operation.Start? {
      ResumedGoesOn(End(r), true);
      ResumedGoesOn(End(r), false);
      r' := StartCanReturn(r);
    }
  }

  /**
   From every state of every run, unless a stop waits for itself, all that is going on can come to an end without a
   crash: the manager becomes free, and no request is left.
   */
  lemma EverythingCanEnd(s: State) returns (r: Run)
    requires Inv(s) && s.up && (s.operation.Stop? ==> !s.operation.stop.PuttingBack?)
    ensures IsPath(r) && CrashFree(r) && r.states[0] == s && Inv(End(r)) && End(r).up
    ensures End(r).operation.Idle? && End(r).request.NoRequest?
  {
    hide Next, Inv;
    r := Run([s], []);
    r := ManagerCanFinish(r);
    r := RequestCanEnd(r);
  }

  /** And then anyone can take over, once reconciliation has succeeded, and end up active with a core of their own. */
  lemma AnyoneCanTakeOver(s: State, owner: Owner, config: Config) returns (r: Run, p: nat)
    requires Inv(s) && s.up && s.reconciled && s.operation.Idle? && s.request.NoRequest?
    ensures IsPath(r) && CrashFree(r) && r.states[0] == s
    ensures End(r).active == Some(owner) && End(r).request.NoRequest? && End(r).operation.Idle?
    ensures Tracked(End(r), p) && HeldByWatchdog(End(r), p) && SpawnedAs(End(r), p, owner, config)
    ensures RunningCoreConfig(End(r).world.fields) == Some((p, config)) && End(r).world.record == Some(p)
  {
    hide Next, Inv, IsPath, Resumed;
    r := Beginning(s);
    r := StopsForTakeover(r, owner, config);
    var b := End(r);
    p := FreshPid(b, {});
    r := ReachesSpawn(r, owner, config, p);
    var c := End(r);
    UnusedId(c.watchdogs.Keys);
    var w: nat :| w !in c.watchdogs;
    r := StartFinishes(r, p, owner, config, w);
    var d := End(r).(active := Some(owner), request := NoRequest);
    ReturnsToCommit(c, owner, config);
    CommitSucceeds(End(r), owner, config, d);
    r := Then(r, CommitOwner(true, true), d);
    assert d.watchdogs[w].phase.Holds() == Some(p) && Joinable(d, w);
  }

  lemma Beginning(s: State) returns (r: Run)
    ensures IsPath(r) && CrashFree(r) && r.states[0] == s == End(r)
  {
    r := Run([s], []);
  }

  lemma StopsForTakeover(r: Run, owner: Owner, config: Config) returns (r': Run)
    requires IsPath(r) && CrashFree(r) && Inv(End(r)) && End(r).up && End(r).operation.Idle?
    requires End(r).request.NoRequest?
    ensures IsPath(r') && CrashFree(r') && r'.states[0] == r.states[0] && Inv(End(r')) && End(r').up
    ensures End(r').operation.Idle? && End(r').request == Takeover(owner, config, WillClear)
    ensures End(r').reconciled == End(r).reconciled
  {
    hide Inv, IsPath;
    var b := End(r);
    var c := b.(request := Takeover(owner, config, WillStop));
    ArrivalIsAStep(b, owner, config);
    EveryStepKeepsInv(b, TakeoverArrives(owner, config), c);
    r' := Then(r, TakeoverArrives(owner, config), c);
    var d := c.(request := Takeover(owner, config, InStop), operation := Stop(Signalling, ToRequest));
    TakeoverStops(c, owner, config, d);
    EveryStepKeepsInv(c, CallManager, d);
    r' := Then(r', CallManager, d);
    hide Next;
    r' := StopCanReturn(r');
  }

  lemma ArrivalIsAStep(s: State, owner: Owner, config: Config)
    requires s.up && s.request.NoRequest?
    ensures Next(s, TakeoverArrives(owner, config)) == Some(s.(request := Takeover(owner, config, WillStop)))
  {}

  lemma ClearedForTakeover(s: State, owner: Owner, config: Config)
    requires Inv(s) && s.request == Takeover(owner, config, WillClear)
    ensures s.world.fields == NEW_MANAGER
  {}

  // From its stop to its core.
  lemma ReachesSpawn(r: Run, owner: Owner, config: Config, p: nat) returns (r': Run)
    requires IsPath(r) && CrashFree(r) && Inv(End(r)) && End(r).up && End(r).reconciled && End(r).operation.Idle?
    requires End(r).request == Takeover(owner, config, WillClear) && End(r).world.Fresh(p)
    ensures IsPath(r') && CrashFree(r') && r'.states[0] == r.states[0]
    ensures End(r') == End(r).(active := None, request := Takeover(owner, config, InStart),
                               operation := Start(SecuringNew(p), owner, config),
                               world := End(r).world.Spawning(p, owner, config))
    ensures End(r').world.fields == NEW_MANAGER
  {
    ClearedForTakeover(End(r), owner, config);
    hide StopCoreStep, IsPath, Inv;
    var c := End(r).(active := None);
    r' := Then(r, ClearActive(true), c.(request := Takeover(owner, config, WillMaterialize)));
    r' := Then(r', Materialize, c.(request := Takeover(owner, config, WillStart)));
    var d := c.(request := Takeover(owner, config, InStart));
    r' := Then(r', CallManager, d.(operation := Start(Checking, owner, config)));
    r' := Then(r', ManagerMoves(Proceed), d.(operation := Start(Preparing, owner, config)));
    r' := Then(r', ManagerMoves(SpawnCore(p)),
               d.(operation := Start(SecuringNew(p), owner, config), world := d.world.Spawning(p, owner, config)));
  }

  lemma ReturnsToCommit(s: State, owner: Owner, config: Config)
    requires s.request == Takeover(owner, config, InStart)
    ensures Resumed(s.request, true) == Takeover(owner, config, WillCommit)
  {}

  /**
   A core that exits comes back: from wherever its watchdog has got to in its loop, it can bring up another core, for
   the same owner and configuration, that is recorded, published and watched as the first one was.
   */
  lemma CrashedCoreCanComeBack(s: State, w: nat) returns (r: Run, q: nat)
    requires Inv(s) && s.up && w in s.watchdogs && InLoop(s.watchdogs[w].phase)
    ensures IsPath(r) && CrashFree(r) && r.states[0] == s
    ensures End(r).operation == s.operation && End(r).active == s.active && End(r).request == s.request
    ensures w in End(r).watchdogs && End(r).watchdogs[w] == s.watchdogs[w].(phase := Waiting(q))
    ensures q !in s.world.spawned && SpawnedAs(End(r), q, s.watchdogs[w].owner, s.watchdogs[w].config)
    ensures q in End(r).world.alive && End(r).world.record == Some(q) && End(r).world.fields.runningPid == q
  {
    hide Next, Inv, IsPath;
    r := Beginning(s);
    r := ComesRound(r, w);
    var b := End(r);
    q := FreshPid(b, {});
    r := ComesUp(r, w, q);
  }

  lemma {:induction false} ComesRound(r: Run, w: nat) returns (r': Run)
    requires IsPath(r) && CrashFree(r) && w in End(r).watchdogs && InLoop(End(r).watchdogs[w].phase)
    ensures IsPath(r') && CrashFree(r') && r'.states[0] == r.states[0]
    ensures End(r') == End(r).(world := End(r').world, watchdogs := End(r').watchdogs) && w in End(r').watchdogs
    ensures End(r').watchdogs[w] == End(r).watchdogs[w].(phase := Restarting)
    ensures End(r').world.spawned == End(r).world.spawned
    decreases StepsToRestart(End(r).watchdogs[w].phase)
  {
    hide Next, IsPath;
    r' := r;
    var phase := End(r).watchdogs[w].phase;
    if !phase.Restarting? {
      if phase.Waiting? {
        ExitIsAStep(End(r), phase.pid);
        r' := Then(r', CoreExits(phase.pid), End(r).(world := End(r).world.Killing(phase.pid)));
      }
      var b := End(r');
      var s' := WatchdogStepsRound(b, w);
      WatchdogOnlyMoves(b, w, StepRound(phase), s');
      r' := Then(r', WatchdogMoves(w, StepRound(phase)), s');
      r' := ComesRound(r', w);
    }
  }

  lemma WatchdogOnlyMoves(s: State, w: nat, m: Move, s': State)
    requires Next(s, WatchdogMoves(w, m)) == Some(s')
    ensures w in s.watchdogs && w in s'.watchdogs && s' == s.(world := s'.world, watchdogs := s'.watchdogs)
    ensures s'.watchdogs[w] == s.watchdogs[w].(phase := s'.watchdogs[w].phase)
  {
    hide WatchdogStep;
  }

  // One step of a watchdog, when what it does to the world and to its phase is known.
  lemma WatchdogThen(r: Run, w: nat, m: Move, x: World, phase: Phase) returns (r': Run)
    requires IsPath(r) && CrashFree(r) && w in End(r).watchdogs
    requires WatchdogStep(End(r).world, End(r).watchdogs[w], m) == Some(Moved(x, phase))
    ensures IsPath(r') && CrashFree(r') && r'.states[0] == r.states[0]
    ensures End(r') == End(r).(world := x, watchdogs := End(r).watchdogs[w := End(r).watchdogs[w].(phase := phase)])
  {
    hide IsPath, WatchdogStep;
    var b := End(r);
    r' := Then(r, WatchdogMoves(w, m), b.(world := x, watchdogs := b.watchdogs[w := b.watchdogs[w].(phase := phase)]));
  }

  lemma ComesUp(r: Run, w: nat, q: nat) returns (r': Run)
    requires IsPath(r) && CrashFree(r) && w in End(r).watchdogs && End(r).watchdogs[w].phase.Restarting?
    requires End(r).world.Fresh(q)
    ensures IsPath(r') && CrashFree(r') && r'.states[0] == r.states[0]
    ensures var b := End(r);
            var dog, x := b.watchdogs[w], b.world.Spawning(q, b.watchdogs[w].owner, b.watchdogs[w].config);
            End(r') == b.(watchdogs := b.watchdogs[w := dog.(phase := Waiting(q))],
                          world := x.Recording(q, true).Publishing(q))
  {
    hide IsPath, Next;
    var b := End(r);
    var dog := b.watchdogs[w];
    var x := b.world.Spawning(q, dog.owner, dog.config);
    r' := WatchdogThen(r, w, SpawnCore(q), x, Securing(q));
    r' := WatchdogThen(r', w, Secure(true, false), x, Recording(q));
    r' := WatchdogThen(r', w, WriteRecord(true, true, false), x.Recording(q, true), Publishing(q));
    r' := WatchdogThen(r', w, Proceed, x.Recording(q, true).Publishing(q), Waiting(q));
    assert End(r').watchdogs == b.watchdogs[w := dog.(phase := Waiting(q))];
  }

  /* ---------- restoring at boot ---------- */

  /**
   A boot begins to restore exactly when it has reconciled, somebody is active and their desired state asks for it; and
   then for nobody else and nothing else.
   */
  lemma BootRestores(s: State, luck: Reconcile.Luck, restored: Option<Config>, s': State)
    requires Inv(s) && Next(s, Boot(luck, restored)) == Some(s')
    ensures s'.up && s'.active == s.active
    ensures s'.operation.Start? <==> s'.reconciled && s.active.Some? && restored.Some?
    ensures if s'.operation.Start?
            then s'.request == Restore(s.active.value, restored.value) &&
                 s'.operation == Start(Checking, s.active.value, restored.value)
            else s'.request.NoRequest? && s'.operation.Idle?
  {
    hide Custody, Traced, AllAccountedFor, Isolated, Matched, PublishedOnce, RecordKept;
  }

  /** So after a crash the active owner can have a core again without asking for it. */
  lemma RestoreCanSucceed(s: State, luck: Reconcile.Luck, config: Config, b: State) returns (r: Run, p: nat)
    requires Inv(s) && Next(s, Boot(luck, Some(config))) == Some(b) && b.reconciled && s.active.Some?
    ensures IsPath(r) && CrashFree(r) && r.states[0] == b
    ensures End(r).active == s.active && End(r).request.NoRequest? && End(r).operation.Idle?
    ensures Tracked(End(r), p) && HeldByWatchdog(End(r), p) && SpawnedAs(End(r), p, s.active.value, config)
    ensures RunningCoreConfig(End(r).world.fields) == Some((p, config)) && End(r).world.record == Some(p)
  {
    hide Next, Inv, IsPath, Resumed;
    BootRestores(s, luck, Some(config), b);
    EveryStepKeepsInv(s, Boot(luck, Some(config)), b);
    RestoreFindsNothing(b);
    r := Beginning(b);
    p := FreshPid(b, {});
    var owner := s.active.value;
    RestoreSpawns(b, owner, config, p);
    var c := b.(operation := Start(Preparing, owner, config));
    r := Then(r, ManagerMoves(Proceed), c);
    var d := b.(operation := Start(SecuringNew(p), owner, config), world := b.world.Spawning(p, owner, config));
    r := Then(r, ManagerMoves(SpawnCore(p)), d);
    UnusedId(d.watchdogs.Keys);
    var w: nat :| w !in d.watchdogs;
    r := StartFinishes(r, p, owner, config, w);
    RestoreEnds(d);
    assert End(r).watchdogs[w].phase.Holds() == Some(p) && Joinable(End(r), w);
  }

  lemma RestoreFindsNothing(b: State)
    requires Inv(b) && b.operation.Start? && b.operation.start.Checking?
    ensures b.world.fields == NEW_MANAGER
  {}

  lemma RestoreSpawns(b: State, owner: Owner, config: Config, p: nat)
    requires b.reconciled && b.operation == Start(Checking, owner, config) && b.world.fields == NEW_MANAGER
    requires b.world.Fresh(p)
    ensures var c := b.(operation := Start(Preparing, owner, config));
            && Next(b, ManagerMoves(Proceed)) == Some(c)
            && Next(c, ManagerMoves(SpawnCore(p))) ==
               Some(b.(operation := Start(SecuringNew(p), owner, config), world := b.world.Spawning(p, owner, config)))
  {}

  lemma RestoreEnds(s: State)
    requires s.request.Restore?
    ensures Resumed(s.request, true).NoRequest?
  {}

  /* ---------- no stale record ---------- */

  // Whoever removes the runtime record succeeds, and a write of it that fails has not replaced the file.
  predicate FilesWork(a: Action) {
    match a
    case WatchdogMoves(_, m) => RecordMoveWorks(m)
    case ManagerMoves(m) => RecordMoveWorks(m)
    case Boot(luck, _) => luck.removed
    case _ => true
  }

  predicate RecordMoveWorks(m: Move) {
    (m.RemoveRecord? ==> m.removed) && (m.WriteRecord? ==> m.ok || !m.written)
  }

  // A watchdog without a core, or with one that is not recorded yet.
  predicate Unrecorded(phase: Phase) {
    || phase.Restarting? || phase.Securing? || phase.Recording? || phase.Unsecured? || phase.UnsecuredRecording?
    || phase.Unrecorded? || phase == Finished(true)
  }

  predicate UnrecordedStart(step: StartStep) {
    || step.Checking? || step.Preparing? || step.SecuringNew? || step.RecordingNew?
    || step.KeepingPid? || step.KeepingConfig? || step.KeepingRecord?
  }

  // There is no record while there is no core, nor before the new one is recorded.
  predicate RecordFresh(s: State) {
    s.reconciled ==>
      && (forall w | w in s.watchdogs && (Joinable(s, w) || !s.watchdogs[w].phase.Finished?) ::
            Unrecorded(s.watchdogs[w].phase) ==> s.world.record.None?)
      && (s.operation.Start? && UnrecordedStart(s.operation.start) ==> s.world.record.None?)
      && (AfterStop(s.request) ==> s.world.record.None?)
  }

  lemma WatchdogKeepsUnrecorded(x: World, dog: Watchdog, m: Move, x': World, phase: Phase)
    requires WatchdogStep(x, dog, m) == Some(Moved(x', phase)) && RecordMoveWorks(m)
    requires Unrecorded(dog.phase) ==> x.record.None?
    ensures Unrecorded(phase) ==> x'.record.None?
  {}

  lemma WatchdogKeepsRecordFresh(s: State, w: nat, m: Move, s': State)
    requires Inv(s) && RecordFresh(s) && RecordMoveWorks(m) && WatchdogMoved(s, w, m) == Some(s')
    ensures RecordFresh(s')
  {
    hide AllAccountedFor, Isolated, Matched, RecordKept, WatchdogStep, Unrecorded;
    WatchdogMovedHasEffect(s, w, m, s');
    var dog := s.watchdogs[w];
    assert !dog.phase.Finished? && Joinable(s, w);
    if s.reconciled { WatchdogKeepsUnrecorded(s.world, dog, m, s'.world, s'.watchdogs[w].phase); }
    hide WatchdogMoved;
  }

  lemma StopKeepsRecordFresh(s: State, m: Move, s': State)
    requires Inv(s) && Inv(s') && RecordFresh(s) && RecordMoveWorks(m) && s.operation.Stop?
    requires ManagerStep(s, m) == Some(s')
    ensures RecordFresh(s')
  {
    hide Traced, AllAccountedFor, Isolated, Matched, PublishedOnce, RecordKept, Unrecorded, FailureKept, Stoppable,
         Quiet;
    if s.operation.stop.Signalling? {
      SignallingOnlySignals(s, m, s');
      hide ManagerStep, Coupled, OneWatchdog;
    } else if s.operation.stop.Joining? {
      hide Coupled, OneWatchdog;
    } else {
      var o := StopOutcome(s, m, s');
      StopCoreStepHasEffect(s.world, s.operation.stop, m, o);
      StopFieldsKept(s.world, s.operation.stop, m, o);
      if s.operation.stop.RemovingRecord? { LastStepRemoves(s.world, m, o); }
      hide ManagerStep, StopCoreStep, OneWatchdog, StopEffect;
    }
  }

  lemma LastStepRemoves(x: World, m: Move, o: Outcome<StopStep>)
    requires StopCoreStep(x, RemovingRecord, m) == Some(o) && RecordMoveWorks(m)
    ensures o.Returns? && o.world.record.None?
  {}

  lemma StartCoreStepKeepsUnrecorded(x: World, step: StartStep, owner: Owner, config: Config, m: Move,
                                     o: Outcome<StartStep>)
    requires StartCoreStep(x, step, owner, config, m) == Some(o) && RecordMoveWorks(m)
    requires UnrecordedStart(step) ==> x.record.None?
    ensures o.GoesOn? && UnrecordedStart(o.step) ==> o.world.record.None?
  {}

  lemma StartKeepsRecordFresh(s: State, m: Move, s': State)
    requires Inv(s) && RecordFresh(s) && RecordMoveWorks(m) && s.operation.Start? && ManagerStep(s, m) == Some(s')
    ensures RecordFresh(s')
  {
    hide Traced, AllAccountedFor, Isolated, Matched, PublishedOnce, RecordKept, FailureKept, Stoppable, Quiet;
    if MidStart(s) {
      var o := StartOutcome(s, m, s');
      if s.reconciled {
        StartCoreStepKeepsUnrecorded(s.world, s.operation.start, s.operation.owner, s.operation.config, m, o);
      }
      StartCoreStepHasEffect(s.world, s.operation.start, s.operation.owner, s.operation.config, m, o);
      hide ManagerStep, StartCoreStep, StartEffect, UnrecordedStart, Unrecorded;
      NoneJoinable(s);
    }
  }

  lemma NoneJoinable(s: State)
    requires Inv(s) && s.operation.Start?
    ensures NoWatchdog(s) && s.world.fields.watchdogHandle.None?
  {}

  lemma StepKeepsRecordFresh(s: State, a: Action, s': State)
    requires Inv(s) && Inv(s') && RecordFresh(s) && FilesWork(a) && Next(s, a) == Some(s')
    ensures RecordFresh(s')
  {
    hide RequestStep, ManagerStep, WatchdogMoved, Inv, Unrecorded, UnrecordedStart;
    match a
    case WatchdogMoves(w, m) => WatchdogKeepsRecordFresh(s, w, m, s');
    case ManagerMoves(m) =>
      ManagerActs(s, m);
      if s.operation.Stop? { StopKeepsRecordFresh(s, m, s'); } else { StartKeepsRecordFresh(s, m, s'); }
    case CoreExits(_) =>
    case Crash =>
    case Boot(_, _) => BootKeepsRecordFresh(s, a, s');
    case ShutdownStops =>
    case _ => RequestKeepsRecordFresh(s, a, s');
  }

  lemma BootKeepsRecordFresh(s: State, a: Action, s': State)
    requires Inv(s) && a.Boot? && FilesWork(a) && Next(s, a) == Some(s')
    ensures RecordFresh(s')
  {
    hide Custody, Traced, AllAccountedFor, Isolated, Matched, PublishedOnce, RecordKept, Quiet, Unrecorded,
         UnrecordedStart;
  }

  lemma RequestKeepsRecordFresh(s: State, a: Action, s': State)
    requires Inv(s) && RecordFresh(s) && s.up && RequestStep(s, a) == Some(s')
    ensures RecordFresh(s')
  {
    RequestStepHasEffect(s, a, s');
    NoStopIsClaimed(s, a, s');
    hide Inv, Unrecorded, RequestStep;
  }

  // No step of a request claims a stop that has not happened.
  lemma NoStopIsClaimed(s: State, a: Action, s': State)
    requires RequestStep(s, a) == Some(s')
    ensures AfterStop(s'.request) ==> AfterStop(s.request)
  {
    hide RunningCoreConfig;
  }

  /**
   While the record file can be removed and written, it never outlives its core: it is gone before the next one is
   spawned, whoever spawns it, and after every stop.
   */
  lemma {:induction false} NoStaleRecord(r: Run, i: nat)
    requires IsRun(r) && i < |r.states| && forall k | 0 <= k < i :: FilesWork(r.actions[k])
    ensures RecordFresh(r.states[i])
    ensures i < |r.actions| && SpawnsCore(r.actions[i]) && r.states[i].reconciled ==> r.states[i].world.record.None?
  {
    hide Inv, Next, RecordFresh, FilesWork;
    RunsKeepInv(r, i);
    if i == 0 {
      assert RecordFresh(FIRST_STATE) by { NothingRecorded(); }
    } else {
      NoStaleRecord(r, i - 1);
      RunsKeepInv(r, i - 1);
      NextOnPath(r, i - 1);
      StepKeepsRecordFresh(r.states[i - 1], r.actions[i - 1], r.states[i - 1 + 1]);
    }
    if i < |r.actions| && SpawnsCore(r.actions[i]) {
      NextOnPath(r, i);
      SpawnsUnrecorded(r.states[i], r.actions[i], r.states[i + 1]);
    }
  }

  lemma NothingRecorded()
    ensures RecordFresh(FIRST_STATE)
  {}

  lemma SpawnsUnrecorded(s: State, a: Action, s': State)
    requires RecordFresh(s) && Next(s, a) == Some(s') && SpawnsCore(a)
    ensures s.reconciled ==> s.world.record.None?
  {}
}
