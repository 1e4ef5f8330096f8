/**
 What every step of the service keeps: who may hold a core, whom a core belongs to, which configuration it
 runs, which pids have been published, and what the runtime record says.
 */
module SupervisionInvariant {
  import opened Wrappers
  import opened Supervision
  import Reconcile

  /* ---------- custody ---------- */

  predicate NoWatchdog(s: State) {
    forall w | w in s.watchdogs :: s.watchdogs[w].phase.Finished?
  }

  /** No core is held and nobody is about to start one. */
  predicate Quiet(s: State) {
    NoWatchdog(s) && s.world.fields == NEW_MANAGER && s.operation.Holds().None?
  }

  // Only the watchdog the manager would join, or is joining, is still at work.
  predicate Joinable(s: State, w: nat) {
    s.world.fields.watchdogHandle == Some(w) || (s.operation.Stop? && s.operation.stop == Joining(w))
  }

  predicate OneWatchdog(s: State) {
    forall w | w in s.watchdogs :: s.watchdogs[w].phase.Finished? || Joinable(s, w)
  }

  // A watchdog that failed has left its core with the manager.
  predicate FailureKept(s: State) {
    forall w | w in s.watchdogs && Joinable(s, w) && s.watchdogs[w].phase == Finished(false) ::
      s.world.fields.failedChild.Some?
  }

  // Whoever would be joined has been told to stop, or the manager can still tell it.
  predicate Stoppable(s: State) {
    forall w | w in s.watchdogs && Joinable(s, w) ::
      s.watchdogs[w].signalled || s.world.fields.watchdogShutdown == Some(w)
  }

  predicate StopFields(f: Fields, step: StopStep) {
    && (!step.Signalling? ==> f.watchdogShutdown.None?)
    && (!step.Signalling? && !step.TakingHandle? ==> f.watchdogHandle.None?)
    && (step.TakingFailed? && !step.joined ==> f.failedChild.Some?)
    && (PastWatchdog(step) && !step.TakingFailed? ==> f.failedChild.None?)
    && (step.ClearingConfig? || step.RemovingRecord? ==> f.runningPid == 0)
    && (step.RemovingRecord? ==> f.runningConfig.None?)
  }

  // The watchdog, if there was one, has been joined.
  predicate PastWatchdog(step: StopStep) {
    !step.Signalling? && !step.TakingHandle? && !step.Joining?
  }

  predicate StartFields(f: Fields, step: StartStep, config: Config) {
    f == match step
         case KeepingConfig(p, _) => NEW_MANAGER.(runningPid := p)
         case PublishingConfig(p) => NEW_MANAGER.(runningPid := p)
         case KeepingRecord(p) => NEW_MANAGER.(runningPid := p, runningConfig := Some(config))
         case KeepingChild(p) => NEW_MANAGER.(runningPid := p, runningConfig := Some(config))
         case Watching(p) => NEW_MANAGER.(runningPid := p, runningConfig := Some(config))
         case _ => NEW_MANAGER
  }

  predicate Custody(s: State) {
    && OneWatchdog(s) && FailureKept(s) && Stoppable(s)
    && (s.world.fields.watchdogHandle.Some? ==> s.world.fields.watchdogHandle.value in s.watchdogs)
    && (s.world.fields.failedChild.Some? ==> NoWatchdog(s))
    && match s.operation
       case Idle => true
       case Stop(step, _) =>
         && StopFields(s.world.fields, step)
         && (step.Joining? ==> step.watchdog in s.watchdogs)
         && (PastWatchdog(step) ==> NoWatchdog(s))
       case Start(step, _, config) => NoWatchdog(s) && StartFields(s.world.fields, step, config)
  }

  /* ---------- who waits for what ---------- */

  predicate AwaitsStop(r: Request) {
    match r
    case Takeover(_, _, step) => step.InStop? || step.InAbort? || step.InRollBack?
    case StopClash(_, step) => step.InStopOwn?
    case _ => false
  }

  predicate AwaitsStart(r: Request) {
    r.Restore? || (r.Takeover? && r.takeover.InStart?)
  }

  // Between a takeover's successful stop and its start.
  predicate Emptied(r: Request) {
    r.Takeover? && (r.takeover.WillClear? || r.takeover.WillMaterialize? || r.takeover.WillStart?)
  }

  // A stop has just succeeded for this request, and nothing has been started since.
  predicate AfterStop(r: Request) {
    Emptied(r) || (r.Takeover? && r.takeover.WillForget?) || (r.StopClash? && r.stopping.WillClearOwn?)
  }

  predicate Coupled(s: State) {
    && (s.operation.Stop? ==> !s.operation.next.ThenStart?)
    && (AwaitsStop(s.request) <==> s.operation.Stop? && s.operation.next.ToRequest?)
    && (AwaitsStart(s.request) <==> s.operation.Start?)
    && (s.operation.Start? ==> s.request.owner == s.operation.owner && s.request.config == s.operation.config)
    && (AfterStop(s.request) ==> Quiet(s))
    && (!s.up ==> s.operation.Idle? && s.request.NoRequest? && Quiet(s) && s.watchdogs == map[] && !s.reconciled)
    && (!s.reconciled ==> Quiet(s) && (s.operation.Start? ==> s.operation.start.Checking?))
  }

  /* ---------- what is known of every core ---------- */

  predicate SpawnedAs(s: State, pid: nat, owner: Owner, config: Config) {
    pid in s.world.spawned && s.world.spawned[pid] == Spawned(owner, config)
  }

  predicate Traced(s: State) {
    && 0 !in s.world.spawned && s.world.alive <= s.world.spawned.Keys
    && (forall w | w in s.watchdogs && s.watchdogs[w].phase.Holds().Some? ::
          SpawnedAs(s, s.watchdogs[w].phase.Holds().value, s.watchdogs[w].owner, s.watchdogs[w].config))
    && (s.operation.Holds().Some? ==> s.operation.Holds().value in s.world.spawned)
    && (s.operation.Start? && s.operation.Holds().Some? ==>
          SpawnedAs(s, s.operation.Holds().value, s.operation.owner, s.operation.config))
    && (s.world.fields.failedChild.Some? ==> s.world.fields.failedChild.value in s.world.spawned)
    && (s.world.fields.runningPid != 0 ==> s.world.fields.runningPid in s.world.spawned)
  }

  predicate SomeoneHolds(s: State, pid: nat) {
    || s.operation.Holds() == Some(pid)
    || s.world.fields.failedChild == Some(pid)
    || exists w | w in s.watchdogs :: s.watchdogs[w].phase.Holds() == Some(pid)
  }

  /** No core escapes: a live one is held, or was given up to a fire-and-forget kill, or is left from an earlier run. */
  predicate AllAccountedFor(s: State) {
    forall p | p in s.world.alive :: p in s.world.detached || p in s.orphans || SomeoneHolds(s, p)
  }

  /* ---------- owners ---------- */

  predicate SpawnedFor(s: State, pid: nat, owner: Owner) {
    pid in s.world.spawned && s.world.spawned[pid].owner == owner
  }

  // Every core that is held or published, and every core a watchdog may still spawn, is `owner`'s.
  predicate OwnedBy(s: State, owner: Owner) {
    && (s.operation.Holds().Some? ==> SpawnedFor(s, s.operation.Holds().value, owner))
    && (s.world.fields.failedChild.Some? ==> SpawnedFor(s, s.world.fields.failedChild.value, owner))
    && (s.world.fields.runningPid != 0 ==> SpawnedFor(s, s.world.fields.runningPid, owner))
    && (forall w | w in s.watchdogs :: s.watchdogs[w].phase.Finished? || s.watchdogs[w].owner == owner)
  }

  predicate Isolated(s: State) {
    && (s.active.Some? ==> OwnedBy(s, s.active.value))
    && match s.request
       case NoRequest => true
       case Takeover(owner, _, step) =>
         && (step.WillMaterialize? || step.WillStart? || step.InStart? || step.WillAbort? || step.InAbort? ||
             step.WillCommit? ==>
               s.active.None?)
         && (step.InStart? || step.WillAbort? || step.InAbort? || step.WillCommit? ||
             step.WillRollBack? || step.InRollBack? || step.WillForget? ==>
               OwnedBy(s, owner))
         && (step.WillRollBack? || step.InRollBack? || step.WillForget? ==> s.active.None? || s.active == Some(owner))
       case StopClash(owner, _) => s.active == Some(owner)
       case Stage(owner, _, _) => s.active == Some(owner)
       case Restore(owner, _) => s.active == Some(owner)
  }

  /* ---------- pid and configuration ---------- */

  predicate Matched(s: State) {
    var f := s.world.fields;
    f.runningConfig.Some? ==>
      && (f.runningPid != 0 ==>
            f.runningPid in s.world.spawned && s.world.spawned[f.runningPid].config == f.runningConfig.value)
      && (forall w | w in s.watchdogs ::
          s.watchdogs[w].phase.Finished? || s.watchdogs[w].config == f.runningConfig.value)
  }

  predicate PublishedOnce(s: State) {
    && s.world.published <= s.world.spawned.Keys
    && (s.world.fields.runningPid != 0 ==> s.world.fields.runningPid in s.world.published)
    && (s.operation.Start? && s.operation.start.Unpublished() ==> s.operation.Holds().value !in s.world.published)
    && (forall w | w in s.watchdogs && s.watchdogs[w].phase.Unpublished() ::
          s.watchdogs[w].phase.Holds().value !in s.world.published)
  }

  /* ---------- the runtime record ---------- */

  predicate RecordKept(s: State) {
    && (forall w | w in s.watchdogs && (s.watchdogs[w].phase.Waiting? || s.watchdogs[w].phase.Publishing?) ::
          s.world.record == s.watchdogs[w].phase.Holds())
    && (s.operation.Start? &&
        (s.operation.start.PublishingPid? || s.operation.start.PublishingConfig? || s.operation.start.Watching?) ==>
          s.world.record == s.operation.Holds())
  }

  predicate Inv(s: State) {
    && Custody(s) && Coupled(s) && Traced(s) && AllAccountedFor(s)
    && Isolated(s) && Matched(s) && PublishedOnce(s) && RecordKept(s)
  }

  /* ---------- watchdog steps ---------- */

  // A step that brings a core into the world.
  predicate Spawns(m: Move) {
    m.SpawnCore? || m.LoseSpawned?
  }

  // What any step of a watchdog does, without saying which step it was.
  predicate WatchdogEffect(x: World, dog: Watchdog, m: Move, x': World, phase: Phase) {
    var held, held' := dog.phase.Holds(), phase.Holds();
    var f, f' := x.fields, x'.fields;
    && !dog.phase.Finished? && f' == f.(runningPid := f'.runningPid, failedChild := f'.failedChild)
    // the cores
    && x.detached <= x'.detached
    && (if Spawns(m) then
          && x.Fresh(m.pid) && x'.spawned == x.spawned[m.pid := Spawned(dog.owner, dog.config)]
          && x'.alive == x.alive + {m.pid} && (m.pid in x'.detached || held' == Some(m.pid))
          && held.None? && (held'.None? || held' == Some(m.pid)) && f' == f
        else x'.alive <= x.alive && x'.spawned == x.spawned && (held'.None? || held' == held))
    && (held.Some? && held' != held ==> held.value in x'.detached || held.value !in x'.alive || f'.failedChild == held)
    && (f'.failedChild == f.failedChild ||
        (held.Some? && f'.failedChild == held && phase == Finished(false) &&
          (f.failedChild.Some? ==> f.failedChild.value in x'.detached)))
    && (phase == Finished(false) ==> f'.failedChild.Some?)
    // the running pid
    && (if f'.runningPid == f.runningPid || f'.runningPid == 0 then x'.published == x.published
        else held == Some(f'.runningPid) && dog.phase.Unpublished() && x'.published == x.published + {f'.runningPid})
    && (phase.Unpublished() ==> f' == f && x'.published == x.published && (dog.phase.Unpublished() || Spawns(m)))
    // the record
    && (phase.Publishing? ==> x'.record == held')
    && (phase.Waiting? ==> dog.phase.Publishing? && held' == held && x'.record == x.record)
  }

  lemma PhaseStepsHaveEffect(x: World, dog: Watchdog, m: Move, x': World, phase: Phase)
    requires WatchdogStep(x, dog, m) == Some(Moved(x', phase))
    requires dog.phase.Waiting? || dog.phase.Restarting? || dog.phase.Securing? || dog.phase.Recording?
    ensures WatchdogEffect(x, dog, m, x', phase)
  {}

  lemma WatchdogStepHasEffect(x: World, dog: Watchdog, m: Move, x': World, phase: Phase)
    requires WatchdogStep(x, dog, m) == Some(Moved(x', phase))
    requires dog.phase.Unpublished() ==> dog.phase.Holds() != Some(0) && dog.phase.Holds() != Some(x.fields.runningPid)
    ensures WatchdogEffect(x, dog, m, x', phase)
  {
    hide WaitingStep, RestartingStep, SecuringStep, RecordingStep;
    if dog.phase.Waiting? || dog.phase.Restarting? || dog.phase.Securing? || dog.phase.Recording? {
      hide WatchdogEffect;
      PhaseStepsHaveEffect(x, dog, m, x', phase);
    }
  }

  // From a watchdog's step to the state it belongs to.
  lemma WatchdogMovedHasEffect(s: State, w: nat, m: Move, s': State)
    requires Traced(s) && PublishedOnce(s) && WatchdogMoved(s, w, m) == Some(s')
    ensures w in s.watchdogs && w in s'.watchdogs
    ensures s' == s.(world := s'.world, watchdogs := s.watchdogs[w := s.watchdogs[w].(phase := s'.watchdogs[w].phase)])
    ensures WatchdogEffect(s.world, s.watchdogs[w], m, s'.world, s'.watchdogs[w].phase)
  {
    hide WatchdogStep;
    var moved := WatchdogStep(s.world, s.watchdogs[w], m);
    WatchdogStepHasEffect(s.world, s.watchdogs[w], m, moved.value.world, moved.value.phase);
  }

  predicate WatchdogDid(s: State, w: nat, m: Move, s': State) {
    && w in s.watchdogs && w in s'.watchdogs
    && s' == s.(world := s'.world, watchdogs := s.watchdogs[w := s.watchdogs[w].(phase := s'.watchdogs[w].phase)])
    && WatchdogEffect(s.world, s.watchdogs[w], m, s'.world, s'.watchdogs[w].phase)
  }

  lemma WatchdogKeepsCustody(s: State, w: nat, m: Move, s': State)
    requires Custody(s) && WatchdogDid(s, w, m, s')
    ensures Custody(s')
  {}

  lemma WatchdogKeepsCoupled(s: State, w: nat, m: Move, s': State)
    requires Custody(s) && Coupled(s) && WatchdogDid(s, w, m, s')
    ensures Coupled(s')
  {}

  lemma WatchdogKeepsTraced(s: State, w: nat, m: Move, s': State)
    requires Custody(s) && Traced(s) && PublishedOnce(s) && WatchdogDid(s, w, m, s')
    ensures Traced(s')
  {}

  lemma WatchdogKeepsIsolated(s: State, w: nat, m: Move, s': State)
    requires Custody(s) && Coupled(s) && Traced(s) && Isolated(s) && WatchdogDid(s, w, m, s')
    ensures Isolated(s')
  {}

  lemma WatchdogKeepsMatched(s: State, w: nat, m: Move, s': State)
    requires Custody(s) && Traced(s) && PublishedOnce(s) && Matched(s) && WatchdogDid(s, w, m, s')
    ensures Matched(s')
  {}

  lemma WatchdogKeepsPublished(s: State, w: nat, m: Move, s': State)
    requires Custody(s) && Traced(s) && PublishedOnce(s) && WatchdogDid(s, w, m, s')
    ensures PublishedOnce(s')
  {}

  lemma WatchdogKeepsRecord(s: State, w: nat, m: Move, s': State)
    requires Custody(s) && RecordKept(s) && WatchdogDid(s, w, m, s')
    ensures RecordKept(s')
  {}

  lemma WatchdogKeepsAccounts(s: State, w: nat, m: Move, s': State)
    requires Custody(s) && AllAccountedFor(s) && WatchdogDid(s, w, m, s')
    ensures AllAccountedFor(s')
  {}

  /* ---------- stopping ---------- */

  // Telling a watchdog to stop changes nothing that matters here.
  predicate OnlySignalled(s: State, s': State) {
    && s.operation.Stop? && s.operation.stop.Signalling?
    && s' == s.(world := s.world.(fields := s.world.fields.(watchdogShutdown := None)), watchdogs := s'.watchdogs,
                operation := Stop(TakingHandle, s.operation.next))
    && s'.watchdogs.Keys == s.watchdogs.Keys
    && (forall w | w in s.watchdogs ::
          && s'.watchdogs[w] == s.watchdogs[w].(signalled := s'.watchdogs[w].signalled)
          && (s.watchdogs[w].signalled || s.world.fields.watchdogShutdown == Some(w) ==> s'.watchdogs[w].signalled))
  }

  lemma SignallingOnlySignals(s: State, m: Move, s': State)
    requires s.operation.Stop? && s.operation.stop.Signalling? && ManagerStep(s, m) == Some(s')
    ensures OnlySignalled(s, s')
  {}

  lemma SignalKeepsOrder(s: State, s': State)
    requires OnlySignalled(s, s') && Custody(s) && Coupled(s) && Isolated(s)
    ensures Custody(s') && Coupled(s') && Isolated(s')
  {}

  lemma SignalKeepsCores(s: State, s': State)
    requires OnlySignalled(s, s') && Traced(s) && AllAccountedFor(s) && Matched(s) && PublishedOnce(s) && RecordKept(s)
    ensures Traced(s') && AllAccountedFor(s') && Matched(s') && PublishedOnce(s') && RecordKept(s')
  {
    forall p: nat | SomeoneHolds(s, p)
      ensures SomeoneHolds(s', p)
    {
      if w :| w in s.watchdogs && s.watchdogs[w].phase.Holds() == Some(p) {
        assert s'.watchdogs[w].phase.Holds() == Some(p);
      }
    }
  }

  lemma SignallingKeepsInv(s: State, m: Move, s': State)
    requires Inv(s) && s.operation.Stop? && s.operation.stop.Signalling? && ManagerStep(s, m) == Some(s')
    ensures Inv(s')
  {
    SignallingOnlySignals(s, m, s');
    hide Custody, Coupled, Traced, AllAccountedFor, Isolated, Matched, PublishedOnce, RecordKept, OnlySignalled,
         ManagerStep;
    SignalKeepsOrder(s, s');
    SignalKeepsCores(s, s');
  }

  lemma JoiningKeepsInv(s: State, m: Move, s': State)
    requires Inv(s) && s.operation.Stop? && s.operation.stop.Joining? && ManagerStep(s, m) == Some(s')
    ensures Inv(s')
  {}

  // What the other steps of a stop do to the world.
  predicate StopEffect(x: World, held: Option<nat>, x': World, held': Option<nat>) {
    var f, f' := x.fields, x'.fields;
    && x'.spawned == x.spawned && x'.published == x.published && x.detached <= x'.detached && x'.alive <= x.alive
    && (f'.runningPid == f.runningPid || f'.runningPid == 0)
    && (f'.runningConfig == f.runningConfig || f'.runningConfig == None)
    && (f'.failedChild == f.failedChild || f'.failedChild.None? || f'.failedChild == held)
    && (held'.None? || held' == held || held' == f.failedChild)
    && (held.Some? && held' != held ==> held.value !in x'.alive || f'.failedChild == held)
    && (f.failedChild.Some? && f'.failedChild != f.failedChild ==>
          held' == f.failedChild || f.failedChild.value in x'.detached)
  }

  predicate StopDid(s: State, s': State) {
    && s.operation.Stop? && StopEffect(s.world, s.operation.Holds(), s'.world, s'.operation.Holds())
    && s' == s.(world := s'.world, operation := s'.operation, request := s'.request)
    && ((s'.operation.Stop? && s'.operation.next == s.operation.next && s'.request == s.request) ||
        (s'.operation.Idle? &&
         s'.request == if s.operation.next.ToRequest? then Resumed(s.request, s.operation.stop.RemovingRecord?)
                       else s.request))
  }

  // A step of a stop that does not concern the watchdog is a step on the world.
  lemma StopOutcome(s: State, m: Move, s': State) returns (o: Outcome<StopStep>)
    requires s.operation.Stop? && !s.operation.stop.Signalling? && !s.operation.stop.Joining?
    requires !s.operation.next.ThenStart?
    requires ManagerStep(s, m) == Some(s')
    ensures StopCoreStep(s.world, s.operation.stop, m) == Some(o)
    ensures s' == if o.GoesOn? then s.(world := o.world, operation := Stop(o.step, s.operation.next))
                  else Return(s.(world := o.world), s.operation.next, o.ok)
  {
    hide StopCoreStep, Resumed;
    o := StopCoreStep(s.world, s.operation.stop, m).value;
  }

  lemma StopCoreStepHasEffect(x: World, step: StopStep, m: Move, o: Outcome<StopStep>)
    requires StopCoreStep(x, step, m) == Some(o)
    ensures StopEffect(x, Stop(step, ToShutdown).Holds(), o.world,
                       if o.GoesOn? then Stop(o.step, ToShutdown).Holds() else None)
    ensures o.Returns? ==> o.ok == step.RemovingRecord?
    ensures o.world.record == x.record || step.RemovingRecord?
  {}

  lemma StopFieldsKept(x: World, step: StopStep, m: Move, o: Outcome<StopStep>)
    requires StopFields(x.fields, step) && StopCoreStep(x, step, m) == Some(o)
    ensures o.GoesOn? ==> StopFields(o.world.fields, o.step)
    ensures o.GoesOn? && step.TakingHandle? ==>
              o.step == (if x.fields.watchdogHandle.Some? then Joining(x.fields.watchdogHandle.value)
                         else TakingFailed(true))
    ensures o.GoesOn? && !step.TakingHandle? ==> PastWatchdog(step) && PastWatchdog(o.step)
    ensures o.Returns? ==> PastWatchdog(step) && o.world.fields.watchdogHandle.None?
    ensures o.Returns? && o.ok ==> o.world.fields == NEW_MANAGER
    ensures o.world.fields.failedChild.Some? ==> x.fields.failedChild.Some? || PastWatchdog(step)
    ensures !PastWatchdog(step) ==> o.world.fields.failedChild == x.fields.failedChild
  {}

  lemma StopStepHasEffect(s: State, m: Move, s': State)
    requires s.operation.Stop? && !s.operation.stop.Signalling? && !s.operation.stop.Joining?
    requires !s.operation.next.ThenStart?
    requires ManagerStep(s, m) == Some(s')
    ensures StopDid(s, s')
    ensures s'.world.record == s.world.record || s.operation.stop.RemovingRecord?
  {
    hide StopCoreStep, Resumed, StopEffect;
    var o := StopOutcome(s, m, s');
    StopCoreStepHasEffect(s.world, s.operation.stop, m, o);
  }

  lemma StopKeepsCustody(s: State, m: Move, s': State)
    requires Custody(s) && s.operation.Stop? && !s.operation.stop.Signalling?
    requires !s.operation.stop.Joining? && !s.operation.next.ThenStart?
    requires ManagerStep(s, m) == Some(s')
    ensures Custody(s')
  {
    var o := StopOutcome(s, m, s');
    hide StopCoreStep, Resumed, ManagerStep, StopFields;
    StopFieldsKept(s.world, s.operation.stop, m, o);
  }

  lemma StopKeepsCoupled(s: State, m: Move, s': State)
    requires Custody(s) && Coupled(s) && s.operation.Stop? && !s.operation.stop.Signalling?
    requires !s.operation.stop.Joining?
    requires ManagerStep(s, m) == Some(s')
    ensures Coupled(s')
  {
    var o := StopOutcome(s, m, s');
    StopFieldsKept(s.world, s.operation.stop, m, o);
    hide ManagerStep;
  }

  lemma StopKeepsTraced(s: State, s': State)
    requires Traced(s) && StopDid(s, s')
    ensures Traced(s')
  {
    hide Resumed;
  }

  lemma StopKeepsAccounts(s: State, s': State)
    requires AllAccountedFor(s) && StopDid(s, s')
    ensures AllAccountedFor(s')
  {
    hide Resumed;
    forall p | p in s'.world.alive
      ensures p in s'.world.detached || p in s'.orphans || SomeoneHolds(s', p)
    {
      assert p in s.world.alive;
      if w :| w in s.watchdogs && s.watchdogs[w].phase.Holds() == Some(p) {
        assert s'.watchdogs[w].phase.Holds() == Some(p);
      }
    }
  }

  lemma StopKeepsOwned(s: State, s': State, owner: Owner)
    requires OwnedBy(s, owner) && StopDid(s, s')
    ensures OwnedBy(s', owner)
  {
    hide Resumed;
  }

  lemma StopKeepsIsolated(s: State, s': State)
    requires Coupled(s) && Isolated(s) && StopDid(s, s')
    ensures Isolated(s')
  {
    hide OwnedBy, StopEffect, Quiet;
    if s.active.Some? { StopKeepsOwned(s, s', s.active.value); }
    if s.request.Takeover? && OwnedBy(s, s.request.owner) { StopKeepsOwned(s, s', s.request.owner); }
  }

  lemma StopKeepsPids(s: State, s': State)
    requires Matched(s) && PublishedOnce(s) && RecordKept(s) && StopDid(s, s')
    requires s'.world.record == s.world.record || NoWatchdog(s)
    ensures Matched(s') && PublishedOnce(s') && RecordKept(s')
  {
    hide Resumed;
  }

  lemma StopKeepsInv(s: State, m: Move, s': State)
    requires Inv(s) && s.operation.Stop? && ManagerStep(s, m) == Some(s')
    ensures Inv(s')
  {
    if s.operation.stop.Signalling? {
      SignallingKeepsInv(s, m, s');
    } else if s.operation.stop.Joining? {
      JoiningKeepsInv(s, m, s');
    } else {
      StopStepHasEffect(s, m, s');
      StopKeepsCustody(s, m, s');
      StopKeepsCoupled(s, m, s');
      hide Resumed, Traced, AllAccountedFor, Isolated, Matched, PublishedOnce, RecordKept, OwnedBy, StopEffect, Coupled;
      StopKeepsTraced(s, s');
      StopKeepsAccounts(s, s');
      StopKeepsIsolated(s, s');
      StopKeepsPids(s, s');
    }
  }

  /* ---------- starting ---------- */

  lemma CheckingKeepsInv(s: State, m: Move, s': State)
    requires Inv(s) && s.operation.Start? && s.operation.start.Checking? && ManagerStep(s, m) == Some(s')
    ensures Inv(s')
  {}

  // Handing the new core to a new watchdog.
  lemma WatchingKeepsInv(s: State, m: Move, s': State)
    requires Inv(s) && s.operation.Start? && s.operation.start.Watching? && ManagerStep(s, m) == Some(s')
    ensures Inv(s')
  {
    forall p: nat | SomeoneHolds(s, p)
      ensures SomeoneHolds(s', p)
    {
      if s.operation.Holds() == Some(p) {
        assert s'.watchdogs[m.watchdog].phase.Holds() == Some(p);
      }
    }
  }

  predicate StartEffect(x: World, owner: Owner, config: Config, step: StartStep, m: Move, x': World,
                        step': Option<StartStep>) {
    var f, f' := x.fields, x'.fields;
    var held, held' := step.Holds(), if step'.Some? then step'.value.Holds() else None;
    && x.detached <= x'.detached
    && (if Spawns(m) then
          && x.Fresh(m.pid) && x'.spawned == x.spawned[m.pid := Spawned(owner, config)] && x'.alive == x.alive + {m.pid}
          && (m.pid in x'.detached || held' == Some(m.pid)) && held.None? && (held'.None? || held' == Some(m.pid))
          && f' == f
        else x'.alive <= x.alive && x'.spawned == x.spawned && (held'.None? || held' == held))
    && (held.Some? && held' != held ==> held.value !in x'.alive || f'.failedChild == held)
    && (f'.failedChild == f.failedChild || f'.failedChild == held)
    && x.published <= x'.published &&
       (f'.runningPid == f.runningPid || (step.Unpublished() && held == Some(f'.runningPid)))
  }

  predicate StartDid(s: State, m: Move, s': State) {
    && s.operation.Start?
    && s' == s.(world := s'.world, operation := s'.operation, request := s'.request)
    && StartEffect(s.world, s.operation.owner, s.operation.config, s.operation.start, m, s'.world,
                   if s'.operation.Start? then Some(s'.operation.start) else None)
    && ((s'.operation.Start? && s'.operation == s.operation.(start := s'.operation.start) && s'.request == s.request) ||
        (s'.operation.Idle? && s'.request == Resumed(s.request, false)))
  }

  // Neither the first nor the last step of a start: a step on the world.
  predicate MidStart(s: State) {
    s.operation.Start? && !s.operation.start.Checking? && !s.operation.start.Watching?
  }

  lemma StartOutcome(s: State, m: Move, s': State) returns (o: Outcome<StartStep>)
    requires MidStart(s) && ManagerStep(s, m) == Some(s')
    ensures StartCoreStep(s.world, s.operation.start, s.operation.owner, s.operation.config, m) == Some(o)
    ensures s' == if o.GoesOn?
                  then s.(world := o.world, operation := Start(o.step, s.operation.owner, s.operation.config))
                  else Return(s.(world := o.world), ToRequest, o.ok)
  {
    hide StartCoreStep, Resumed;
    o := StartCoreStep(s.world, s.operation.start, s.operation.owner, s.operation.config, m).value;
  }

  // What a start in progress knows about the world.
  predicate StartWorld(x: World, step: StartStep, owner: Owner, config: Config) {
    && StartFields(x.fields, step, config)
    && 0 !in x.spawned && x.published <= x.spawned.Keys &&
       (x.fields.runningPid != 0 ==> x.fields.runningPid in x.published)
    && (step.Holds().Some? ==>
          var p := step.Holds().value;
          && p in x.spawned && x.spawned[p] == Spawned(owner, config)
          && (step.Unpublished() ==> p !in x.published)
          && (step.PublishingPid? || step.PublishingConfig? || step.Watching? ==> x.record == Some(p)))
  }

  // What a start that did not get through leaves behind: nothing, or a core that could not be killed.
  predicate StartOver(x: World, config: Config) {
    && x.published <= x.spawned.Keys
    && (x.fields == NEW_MANAGER ||
        (x.fields == NEW_MANAGER.(runningPid := x.fields.runningPid, runningConfig := Some(config),
                                  failedChild := Some(x.fields.runningPid)) &&
          x.fields.runningPid in x.published && x.spawned[x.fields.runningPid].config == config))
  }

  lemma StartWorldKept(x: World, step: StartStep, owner: Owner, config: Config, m: Move, o: Outcome<StartStep>)
    requires StartWorld(x, step, owner, config) && StartCoreStep(x, step, owner, config, m) == Some(o)
    ensures o.GoesOn? ==> !o.step.Checking? && StartWorld(o.world, o.step, owner, config)
    ensures o.Returns? ==> !o.ok && StartOver(o.world, config)
  {}

  lemma StartCoreStepHasEffect(x: World, step: StartStep, owner: Owner, config: Config, m: Move, o: Outcome<StartStep>)
    requires StartCoreStep(x, step, owner, config, m) == Some(o)
    ensures StartEffect(x, owner, config, step, m, o.world, if o.GoesOn? then Some(o.step) else None)
    ensures o.Returns? ==> !o.ok
  {}

  lemma StartStepHasEffect(s: State, m: Move, s': State)
    requires MidStart(s) && ManagerStep(s, m) == Some(s')
    ensures StartDid(s, m, s')
  {
    hide StartCoreStep, Resumed, StartEffect;
    var o := StartOutcome(s, m, s');
    StartCoreStepHasEffect(s.world, s.operation.start, s.operation.owner, s.operation.config, m, o);
  }

  lemma StartKeepsCoupled(s: State, m: Move, s': State)
    requires Coupled(s) && MidStart(s) && ManagerStep(s, m) == Some(s')
    ensures Coupled(s')
  {
    var o := StartOutcome(s, m, s');
    StartCoreStepHasEffect(s.world, s.operation.start, s.operation.owner, s.operation.config, m, o);
    hide ManagerStep, StartCoreStep, StartEffect;
  }

  lemma StartStandsOnWorld(s: State)
    requires Custody(s) && Traced(s) && PublishedOnce(s) && RecordKept(s) && s.operation.Start?
    ensures NoWatchdog(s) && StartWorld(s.world, s.operation.start, s.operation.owner, s.operation.config)
  {}

  lemma StartKeepsCustody(s: State, m: Move, s': State)
    requires NoWatchdog(s) && MidStart(s) && ManagerStep(s, m) == Some(s')
    requires StartWorld(s.world, s.operation.start, s.operation.owner, s.operation.config)
    ensures Custody(s')
  {
    var o := StartOutcome(s, m, s');
    StartWorldKept(s.world, s.operation.start, s.operation.owner, s.operation.config, m, o);
    hide ManagerStep, StartCoreStep, Resumed;
  }

  lemma StartKeepsPids(s: State, m: Move, s': State)
    requires NoWatchdog(s) && MidStart(s) && ManagerStep(s, m) == Some(s')
    requires StartWorld(s.world, s.operation.start, s.operation.owner, s.operation.config)
    ensures Matched(s') && PublishedOnce(s')
  {
    var o := StartOutcome(s, m, s');
    StartWorldKept(s.world, s.operation.start, s.operation.owner, s.operation.config, m, o);
    hide ManagerStep, StartCoreStep, Resumed;
  }

  lemma StartKeepsRecord(s: State, m: Move, s': State)
    requires NoWatchdog(s) && MidStart(s) && ManagerStep(s, m) == Some(s')
    requires StartWorld(s.world, s.operation.start, s.operation.owner, s.operation.config)
    ensures RecordKept(s')
  {
    var o := StartOutcome(s, m, s');
    StartWorldKept(s.world, s.operation.start, s.operation.owner, s.operation.config, m, o);
    hide ManagerStep, StartCoreStep, Resumed;
  }

  lemma StartKeepsTraced(s: State, m: Move, s': State)
    requires Traced(s) && StartDid(s, m, s')
    ensures Traced(s')
  {
    hide Resumed;
  }

  lemma StartKeepsAccounts(s: State, m: Move, s': State)
    requires AllAccountedFor(s) && StartDid(s, m, s') && s.world.fields.failedChild.None?
    ensures AllAccountedFor(s')
  {
    hide Resumed;
    forall p | p in s'.world.alive
      ensures p in s'.world.detached || p in s'.orphans || SomeoneHolds(s', p)
    {
      if w :| w in s.watchdogs && s.watchdogs[w].phase.Holds() == Some(p) {
        assert s'.watchdogs[w].phase.Holds() == Some(p);
      }
    }
  }

  // A start for `owner` only adds cores of `owner`.
  lemma StartKeepsOwned(s: State, m: Move, s': State, owner: Owner)
    requires OwnedBy(s, owner) && StartDid(s, m, s') && s.operation.owner == owner
    ensures OwnedBy(s', owner)
  {
    hide Resumed;
  }

  lemma StartKeepsIsolated(s: State, m: Move, s': State)
    requires Coupled(s) && Isolated(s) && StartDid(s, m, s')
    ensures Isolated(s')
  {
    hide OwnedBy, StartEffect, Quiet;
    if OwnedBy(s, s.operation.owner) { StartKeepsOwned(s, m, s', s.operation.owner); }
  }

  lemma StartKeepsInv(s: State, m: Move, s': State)
    requires Inv(s) && s.operation.Start? && ManagerStep(s, m) == Some(s')
    ensures Inv(s')
  {
    if s.operation.start.Checking? {
      CheckingKeepsInv(s, m, s');
    } else if s.operation.start.Watching? {
      WatchingKeepsInv(s, m, s');
    } else {
      StartStepHasEffect(s, m, s');
      StartKeepsCoupled(s, m, s');
      StartStandsOnWorld(s);
      StartKeepsCustody(s, m, s');
      StartKeepsPids(s, m, s');
      StartKeepsRecord(s, m, s');
      hide Resumed, Traced, AllAccountedFor, Isolated, Matched, PublishedOnce, RecordKept, OwnedBy, StartEffect,
           Coupled;
      StartKeepsTraced(s, m, s');
      StartKeepsAccounts(s, m, s');
      StartKeepsIsolated(s, m, s');
    }
  }

  /* ---------- requests ---------- */

  // A request moves on without touching a core; it may hand the free manager an operation.
  predicate RequestDid(s: State, s': State) {
    && s' == s.(active := s'.active, operation := s'.operation, request := s'.request)
    && (s'.operation == s.operation ||
        (s.operation.Idle? && s'.operation == Stop(Signalling, ToRequest)) ||
        (s.operation.Idle? && s'.operation.Start? && s'.operation.start.Checking? && Emptied(s.request)))
  }

  lemma TakeoverHasEffect(s: State, a: Action, s': State)
    requires s.request.Takeover?
    requires TakeoverStepped(s, s.request.owner, s.request.config, s.request.takeover, a) == Some(s')
    ensures RequestDid(s, s')
  {}

  lemma RequestStepHasEffect(s: State, a: Action, s': State)
    requires RequestStep(s, a) == Some(s')
    ensures RequestDid(s, s')
  {
    hide TakeoverStepped, RunningCoreConfig;
    if s.request.Takeover? {
      hide RequestDid;
      TakeoverHasEffect(s, a, s');
    }
  }

  lemma RequestKeepsWorld(s: State, s': State)
    requires RequestDid(s, s') && Custody(s) && Coupled(s) && Traced(s)
    requires AllAccountedFor(s) && Matched(s) && PublishedOnce(s) && RecordKept(s)
    ensures Custody(s') && Traced(s') && AllAccountedFor(s') && Matched(s') && PublishedOnce(s') && RecordKept(s')
  {
    forall p: nat | SomeoneHolds(s, p)
      ensures SomeoneHolds(s', p)
    {
      if w :| w in s.watchdogs && s.watchdogs[w].phase.Holds() == Some(p) {
        assert s'.watchdogs[w].phase.Holds() == Some(p);
      }
    }
  }

  lemma RequestKeepsOwned(s: State, s': State, owner: Owner)
    requires RequestDid(s, s')
    ensures OwnedBy(s, owner) ==> OwnedBy(s', owner)
  {}

  // A quiet service holds nobody's core.
  lemma QuietIsAnyones(s: State, owner: Owner)
    requires Quiet(s)
    ensures OwnedBy(s, owner)
  {}

  lemma TakeoverKeepsRest(s: State, a: Action, s': State)
    requires Coupled(s) && Isolated(s) && s.up && s.request.Takeover? && RequestDid(s, s')
    requires TakeoverStepped(s, s.request.owner, s.request.config, s.request.takeover, a) == Some(s')
    ensures Coupled(s') && Isolated(s')
  {
    hide OwnedBy, Quiet, RequestDid;
    QuietStays(s, s');
    RequestKeepsOwned(s, s', s.request.owner);
    if s.active.Some? { RequestKeepsOwned(s, s', s.active.value); }
    if Quiet(s) { QuietIsAnyones(s, s.request.owner); }
  }

  lemma OtherRequestKeepsRest(s: State, a: Action, s': State)
    requires Coupled(s) && Isolated(s) && s.up && !s.request.Takeover? && RequestStep(s, a) == Some(s')
    requires RequestDid(s, s')
    ensures Coupled(s') && Isolated(s')
  {
    hide OwnedBy, Quiet, RequestDid, TakeoverStepped, RunningCoreConfig;
    QuietStays(s, s');
    if s.active.Some? { RequestKeepsOwned(s, s', s.active.value); }
  }

  lemma RequestKeepsRest(s: State, a: Action, s': State)
    requires Coupled(s) && Isolated(s) && s.up && RequestStep(s, a) == Some(s') && RequestDid(s, s')
    ensures Coupled(s') && Isolated(s')
  {
    hide Coupled, Isolated, RequestDid, TakeoverStepped, Arrived, StopClashStepped, StageStepped;
    if s.request.Takeover? { TakeoverKeepsRest(s, a, s'); } else { OtherRequestKeepsRest(s, a, s'); }
  }

  lemma QuietStays(s: State, s': State)
    requires RequestDid(s, s')
    ensures Quiet(s) == Quiet(s') && s'.up == s.up && s'.reconciled == s.reconciled && s'.watchdogs == s.watchdogs
  {}

  /* ---------- exits, crashes and boots ---------- */

  lemma ExitKeepsInv(s: State, a: Action, s': State)
    requires Inv(s) && a.CoreExits? && Next(s, a) == Some(s')
    ensures Inv(s')
  {}

  lemma ShutdownKeepsInv(s: State, a: Action, s': State)
    requires Inv(s) && a.ShutdownStops? && Next(s, a) == Some(s')
    ensures Inv(s')
  {}

  lemma HeldMembers(s: State, p: nat)
    ensures p in Held(s) <==> SomeoneHolds(s, p)
  {}

  lemma CrashKeepsInv(s: State, a: Action, s': State)
    requires Inv(s) && a.Crash? && Next(s, a) == Some(s')
    ensures Inv(s')
  {
    forall p | p in s'.world.alive
      ensures p in s'.world.detached || p in s'.orphans
    {
      HeldMembers(s, p);
    }
  }

  lemma BootKeepsInv(s: State, a: Action, s': State)
    requires Inv(s) && a.Boot? && Next(s, a) == Some(s')
    ensures Inv(s')
  {
    Reconcile.ReconcilingIsSafe(map p | p in s.world.alive :: p, RecordFile(s.world), a.luck);
  }

  /* ---------- every step ---------- */

  lemma FirstStateInv()
    ensures Inv(FIRST_STATE)
  {}

  lemma WatchdogKeepsInv(s: State, w: nat, m: Move, s': State)
    requires Inv(s) && WatchdogMoved(s, w, m) == Some(s')
    ensures Inv(s')
  {
    hide WatchdogMoved, WatchdogEffect;
    WatchdogMovedHasEffect(s, w, m, s');
    hide Custody, Coupled, Traced, AllAccountedFor, Isolated, Matched, PublishedOnce, RecordKept;
    WatchdogKeepsCustody(s, w, m, s');
    WatchdogKeepsCoupled(s, w, m, s');
    WatchdogKeepsTraced(s, w, m, s');
    WatchdogKeepsIsolated(s, w, m, s');
    WatchdogKeepsMatched(s, w, m, s');
    WatchdogKeepsPublished(s, w, m, s');
    WatchdogKeepsRecord(s, w, m, s');
    WatchdogKeepsAccounts(s, w, m, s');
  }

  lemma RequestKeepsInv(s: State, a: Action, s': State)
    requires Inv(s) && s.up && RequestStep(s, a) == Some(s')
    ensures Inv(s')
  {
    hide RequestStep;
    RequestStepHasEffect(s, a, s');
    hide Custody, Coupled, Traced, AllAccountedFor, Isolated, Matched, PublishedOnce, RecordKept, RequestDid;
    RequestKeepsWorld(s, s');
    RequestKeepsRest(s, a, s');
  }

  /** Whatever happens next, the invariant is kept. */
  lemma EveryStepKeepsInv(s: State, a: Action, s': State)
    requires Inv(s) && Next(s, a) == Some(s')
    ensures Inv(s')
  {
    hide RequestStep, ManagerStep, WatchdogMoved, Crashed, Booted;
    match a
    case CoreExits(_) => ExitKeepsInv(s, a, s');
    case Crash => CrashKeepsInv(s, a, s');
    case Boot(_, _) => BootKeepsInv(s, a, s');
    case ShutdownStops => ShutdownKeepsInv(s, a, s');
    case WatchdogMoves(w, m) => WatchdogKeepsInv(s, w, m, s');
    case ManagerMoves(m) =>
      ManagerActs(s, m);
      if s.operation.Stop? { StopKeepsInv(s, m, s'); } else { StartKeepsInv(s, m, s'); }
    case _ => RequestKeepsInv(s, a, s');
  }

  lemma ManagerActs(s: State, m: Move)
    ensures ManagerStep(s, m).Some? ==> !s.operation.Idle?
  {}
}
