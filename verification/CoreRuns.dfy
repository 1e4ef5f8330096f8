/**
 What becomes of a core, and of the watchdog that holds it, over whole runs: a healthy core is left alone until
 somebody asks; a watchdog leaves its loop for exactly four kinds of causes; whatever dies, is given up, or is
 entered in the runtime record has an action to thank for it.
 */
module CoreRuns {
  import opened Wrappers
  import opened Supervision
  import opened SupervisionInvariant
  import opened SupervisionRuns
  import Reconcile

  /* ---------- what a watchdog can meet ---------- */

  // Where each move has its place.
  predicate CanMeet(x: World, dog: Watchdog, m: Move) {
    var phase := dog.phase;
    match m
    case SeeShutdown(_) => dog.signalled && (phase.Waiting? || phase.Restarting?)
    case SeeExit => phase.Waiting? && phase.pid !in x.alive
    case LoseChild => phase.Waiting?
    case GiveUp => phase.Restarting?
    case FailToSpawn => phase.Restarting?
    case LoseSpawned(p) => phase.Restarting? && x.Fresh(p)
    case SpawnCore(p) => phase.Restarting? && x.Fresh(p)
    case Secure(_, _) => phase.Securing?
    case WriteRecord(_, _, _) => phase.Recording?
    case KeepRecord(_) => phase.UnsecuredRecording?
    case RemoveRecord(_) => phase.Unrecording? || phase.EndingRecord?
    case Proceed =>
      phase.Cleared? || phase.Publishing? || phase.Unsecured? || phase.Unrecorded? || phase.Failing? || phase.Ending?
    case Kill(_) => false
    case Watch(_) => false
  }

  /** Shutdown is seen only when told, an exit only when there is one; everything else comes as it may. */
  lemma WhatAWatchdogCanMeet(s: State, w: nat, m: Move)
    requires w in s.watchdogs
    ensures Next(s, WatchdogMoves(w, m)).Some? <==> CanMeet(s.world, s.watchdogs[w], m)
  {}

  /* ---------- leaving the loop ---------- */

  // In the loop that restarts the core, on the way out of it, or on the way out with a core that would not die.
  datatype Lane = Looping | Leaving | Failed

  function LaneOf(phase: Phase): Lane {
    match phase
    case Ending => Leaving
    case EndingRecord => Leaving
    case Finished(ok) => if ok then Leaving else Failed
    case Unsecured(_) => Failed
    case UnsecuredRecording(_) => Failed
    case Unrecorded(_) => Failed
    case Failing(_) => Failed
    case _ => Looping
  }

  // Where a move takes a watchdog that is in its loop. A core that cannot be recorded ends the loop, one that
  // cannot be spawned or secured does not.
  function LaneAfter(m: Move, holding: bool): Lane {
    match m
    case SeeShutdown(killed) => if killed || !holding then Leaving else Failed
    case LoseChild => Leaving
    case GiveUp => Leaving
    case Secure(ok, killed) => if ok || killed then Looping else Failed
    case WriteRecord(ok, _, killed) => if ok then Looping else if killed then Leaving else Failed
    case _ => Looping
  }

  predicate Holding(s: State, w: nat) {
    w in s.watchdogs && s.watchdogs[w].phase.Holds().Some?
  }

  // The lane a watchdog must be in, judged by what it has met since it was in its loop.
  ghost function Course(r: Run, w: nat, i: nat, j: nat): Lane
    requires IsPath(r) && i <= j < |r.states|
  {
    if i == j then Looping
    else
      var before := Course(r, w, i, j - 1);
      match r.actions[j - 1]
      case WatchdogMoves(v, m) =>
        if v == w && before.Looping? then LaneAfter(m, Holding(r.states[j - 1], w)) else before
      case _ => before
  }

  lemma WatchdogStepKeepsLane(x: World, dog: Watchdog, m: Move, x': World, phase: Phase)
    requires WatchdogStep(x, dog, m) == Some(Moved(x', phase))
    ensures LaneOf(phase) ==
            if LaneOf(dog.phase).Looping? then LaneAfter(m, dog.phase.Holds().Some?) else LaneOf(dog.phase)
  {}

  lemma StepKeepsLane(s: State, a: Action, s': State, w: nat)
    requires Next(s, a) == Some(s') && w in s.watchdogs && !a.Crash?
    ensures w in s'.watchdogs
    ensures var before := LaneOf(s.watchdogs[w].phase);
            LaneOf(s'.watchdogs[w].phase) ==
            if a.WatchdogMoves? && a.watchdog == w && before.Looping? then LaneAfter(a.move, Holding(s, w)) else before
  {
    hide WatchdogStep, StopCoreStep, StartCoreStep, Resumed, LaneOf, LaneAfter, TakeoverStepped, StopClashStepped,
         StageStepped;
    match a
    case WatchdogMoves(v, m) =>
      var moved := WatchdogStep(s.world, s.watchdogs[v], m).value;
      WatchdogStepKeepsLane(s.world, s.watchdogs[v], m, moved.world, moved.phase);
    case ManagerMoves(_) =>
    case CoreExits(_) =>
    case Boot(_, _) =>
    case ShutdownStops =>
    case _ => RequestStepHasEffect(s, a, s');
  }

  /**
   Nothing but these ends a watchdog's loop, and any of these does: it sees the shutdown it was told of; it loses its
   child; it gives up; a new core cannot be recorded, or can neither be secured nor killed. It ends badly exactly when
   a core would not die.
   */
  lemma {:induction false} LeavesForACause(r: Run, w: nat, i: nat, j: nat)
    requires IsPath(r) && i <= j < |r.states| && w in r.states[i].watchdogs
    requires LaneOf(r.states[i].watchdogs[w].phase).Looping?
    requires forall k | i <= k < j :: !r.actions[k].Crash?
    ensures w in r.states[j].watchdogs && LaneOf(r.states[j].watchdogs[w].phase) == Course(r, w, i, j)
  {
    hide Next, LaneOf, LaneAfter, Holding;
    if i < j {
      LeavesForACause(r, w, i, j - 1);
      NextOnPath(r, j - 1);
      StepKeepsLane(r.states[j - 1], r.actions[j - 1], r.states[j - 1 + 1], w);
    }
  }

  /* ---------- who dies, and of what ---------- */

  predicate EndsWhatIsHeld(m: Move) {
    match m
    case SeeShutdown(killed) => killed
    case Secure(ok, killed) => !ok && killed
    case WriteRecord(ok, _, killed) => !ok && killed
    case Kill(killed) => killed
    case _ => false
  }

  // The core exits by itself; whoever holds it kills it; or a boot finds it in the record of an earlier run.
  predicate Ends(s: State, a: Action, p: nat) {
    match a
    case CoreExits(q) => q == p
    case WatchdogMoves(w, m) => w in s.watchdogs && s.watchdogs[w].phase.Holds() == Some(p) && EndsWhatIsHeld(m)
    case ManagerMoves(m) => s.operation.Holds() == Some(p) && EndsWhatIsHeld(m)
    case Boot(luck, _) => luck.readable && luck.identified && luck.terminated && s.world.record == Some(p)
    case _ => false
  }

  predicate Bears(a: Action, p: nat) {
    (a.WatchdogMoves? || a.ManagerMoves?) && Spawns(a.move) && a.move.pid == p
  }

  // Left to a kill that nobody waits for.
  predicate GivesUp(s: State, a: Action, p: nat) {
    match a
    case WatchdogMoves(w, m) =>
      m == LoseSpawned(p) || (m.LoseChild? && w in s.watchdogs && s.watchdogs[w].phase.Holds() == Some(p))
    case ManagerMoves(m) => m == LoseSpawned(p)
    case _ => false
  }

  lemma BootEnds(s: State, luck: Reconcile.Luck, restored: Option<Config>, p: nat)
    ensures var s' := Booted(s, luck, restored);
            && s'.world.detached == s.world.detached && s'.world.spawned == s.world.spawned
            && (p in s'.world.alive <==> p in s.world.alive && !Ends(s, Boot(luck, restored), p))
            && s'.world.record == RecordAfterBoot(s.world, luck)
  {}

  // A record that can be judged is removed; one whose core cannot be stopped stays.
  function RecordAfterBoot(x: World, luck: Reconcile.Luck): Option<nat> {
    if luck.readable && luck.identified && luck.removed &&
       (x.record.Some? && x.record.value in x.alive ==> luck.terminated)
    then None else x.record
  }

  // What a move makes of the runtime record, if it is made by whoever holds `held`.
  function RecordAfter(record: Option<nat>, held: Option<nat>, m: Move): Option<nat> {
    match m
    case WriteRecord(ok, written, _) => if ok || written then held else record
    case KeepRecord(written) => if written then held else record
    case RemoveRecord(removed) => if removed then None else record
    case _ => record
  }

  function RecordedBy(s: State, a: Action): Option<nat> {
    match a
    case WatchdogMoves(w, m) =>
      if w in s.watchdogs then RecordAfter(s.world.record, s.watchdogs[w].phase.Holds(), m) else s.world.record
    case ManagerMoves(m) => RecordAfter(s.world.record, s.operation.Holds(), m)
    case Boot(luck, _) => RecordAfterBoot(s.world, luck)
    case _ => s.world.record
  }

  predicate HeldEnds(held: Option<nat>, m: Move, p: nat) {
    held == Some(p) && EndsWhatIsHeld(m)
  }

  // The same for one party at a time: `x` and `x'` are the world before and after a move made while holding `held`.
  ghost predicate WorldFollows(x: World, held: Option<nat>, m: Move, x': World) {
    && (forall p :: p in x'.alive <==>
                    (p in x.alive || (Spawns(m) && m.pid == p)) && !HeldEnds(held, m, p))
    && (forall p :: p in x'.detached <==>
                    p in x.detached || m == LoseSpawned(p) || (m.LoseChild? && held == Some(p)))
    && x'.spawned.Keys == x.spawned.Keys + (if Spawns(m) then {m.pid} else {})
    && (Spawns(m) ==> x.Fresh(m.pid))
    && x'.record == RecordAfter(x.record, held, m)
  }

  lemma PhaseFollows(x: World, dog: Watchdog, m: Move, x': World, phase: Phase)
    requires WatchdogStep(x, dog, m) == Some(Moved(x', phase))
    requires dog.phase.Waiting? || dog.phase.Restarting? || dog.phase.Securing? || dog.phase.Recording?
    ensures WorldFollows(x, dog.phase.Holds(), m, x')
  {}

  lemma WatchdogFollows(x: World, dog: Watchdog, m: Move, x': World, phase: Phase)
    requires WatchdogStep(x, dog, m) == Some(Moved(x', phase))
    requires x.fields.failedChild.None?
    ensures WorldFollows(x, dog.phase.Holds(), m, x')
  {
    hide WaitingStep, RestartingStep, SecuringStep, RecordingStep;
    if dog.phase.Waiting? || dog.phase.Restarting? || dog.phase.Securing? || dog.phase.Recording? {
      hide WatchdogStep, WorldFollows;
      PhaseFollows(x, dog, m, x', phase);
    }
  }

  lemma StopFollows(x: World, step: StopStep, next: Continuation, m: Move, o: Outcome<StopStep>)
    requires StopCoreStep(x, step, m) == Some(o)
    ensures WorldFollows(x, Stop(step, next).Holds(), m, o.world) && !m.LoseChild?
  {}

  lemma StartFollows(x: World, step: StartStep, owner: Owner, config: Config, m: Move, o: Outcome<StartStep>)
    requires StartCoreStep(x, step, owner, config, m) == Some(o)
    requires x.fields.failedChild.None?
    ensures WorldFollows(x, step.Holds(), m, o.world) && !m.LoseChild?
  {}

  lemma ManagerFollows(s: State, m: Move, s': State)
    requires Inv(s) && ManagerStep(s, m) == Some(s')
    ensures WorldFollows(s.world, s.operation.Holds(), m, s'.world) && !m.LoseChild?
  {
    hide StopCoreStep, StartCoreStep, WorldFollows, Inv, Resumed;
    if s.operation.Start? {
      StartKeepsNoChild(s);
      if s.operation.start.Checking? || s.operation.start.Watching? {
        NothingMoves(s, m, s');
      } else {
        var o := StartCoreStep(s.world, s.operation.start, s.operation.owner, s.operation.config, m).value;
        StartFollows(s.world, s.operation.start, s.operation.owner, s.operation.config, m, o);
      }
    } else if s.operation.stop.Signalling? || s.operation.stop.Joining? {
      NothingMoves(s, m, s');
    } else {
      var o := StopCoreStep(s.world, s.operation.stop, m).value;
      StopFollows(s.world, s.operation.stop, s.operation.next, m, o);
    }
  }

  lemma StartKeepsNoChild(s: State)
    requires Inv(s) && s.operation.Start?
    ensures s.world.fields.failedChild.None?
  {}

  lemma NothingMoves(s: State, m: Move, s': State)
    requires ManagerStep(s, m) == Some(s')
    requires (s.operation.Start? && (s.operation.start.Checking? || s.operation.start.Watching?)) ||
             (s.operation.Stop? && (s.operation.stop.Signalling? || s.operation.stop.Joining?))
    ensures WorldFollows(s.world, s.operation.Holds(), m, s'.world) && !m.LoseChild?
  {}

  // One step: who is alive, who has been given up, what the record says, each by the action alone.
  ghost predicate FollowsTheAction(s: State, a: Action, s': State) {
    && (forall p :: p in s'.world.alive <==> (p in s.world.alive || Bears(a, p)) && !Ends(s, a, p))
    && (forall p :: p in s'.world.detached <==> p in s.world.detached || GivesUp(s, a, p))
    && (forall p :: Bears(a, p) ==> p !in s.world.spawned)
    && s.world.spawned.Keys <= s'.world.spawned.Keys
    && s'.world.record == RecordedBy(s, a)
  }

  lemma HolderFollows(s: State, a: Action, s': State, held: Option<nat>, m: Move)
    requires WorldFollows(s.world, held, m, s'.world)
    requires (a == ManagerMoves(m) && held == s.operation.Holds() && !m.LoseChild?) ||
             (a.WatchdogMoves? && a.move == m && a.watchdog in s.watchdogs &&
              held == s.watchdogs[a.watchdog].phase.Holds())
    ensures FollowsTheAction(s, a, s')
  {
    hide EndsWhatIsHeld, RecordAfter;
    assert forall p :: HeldEnds(held, m, p) == Ends(s, a, p);
    assert forall p :: Bears(a, p) == (Spawns(m) && m.pid == p);
  }

  lemma EveryStepFollowsItsAction(s: State, a: Action, s': State)
    requires Inv(s) && Next(s, a) == Some(s')
    ensures FollowsTheAction(s, a, s')
  {
    hide WatchdogStep, ManagerStep, RequestStep, Inv, EndsWhatIsHeld, RecordAfter, Reconciling, RecordAfterBoot, Booted,
         WorldFollows;
    match a
    case WatchdogMoves(w, m) =>
      var moved := WatchdogStep(s.world, s.watchdogs[w], m).value;
      NothingKeptYet(s, w, m);
      WatchdogFollows(s.world, s.watchdogs[w], m, moved.world, moved.phase);
      HolderFollows(s, a, s', s.watchdogs[w].phase.Holds(), m);
    case ManagerMoves(m) =>
      ManagerFollows(s, m, s');
      HolderFollows(s, a, s', s.operation.Holds(), m);
    case CoreExits(_) =>
    case Crash =>
    case Boot(luck, restored) =>
      BootEnds(s, luck, restored, 0);
      forall p: nat
        ensures p in s'.world.alive <==> p in s.world.alive && !Ends(s, a, p)
      {
        BootEnds(s, luck, restored, p);
      }
    case ShutdownStops =>
    case _ => RequestStepHasEffect(s, a, s');
  }

  // While a watchdog is at work `failed_child` is empty: keeping a core never drops another.
  lemma NothingKeptYet(s: State, w: nat, m: Move)
    requires Inv(s) && w in s.watchdogs && WatchdogStep(s.world, s.watchdogs[w], m).Some?
    ensures s.world.fields.failedChild.None?
  {}

  /** A live core lives on until it exits by itself, is killed by its holder, or a boot finds it recorded. */
  lemma {:induction false} LivesUntilACause(r: Run, i: nat, j: nat, p: nat)
    requires IsRun(r) && i <= j < |r.states| && p in r.states[i].world.alive
    ensures p in r.states[j].world.alive <==> forall k | i <= k < j :: !Ends(r.states[k], r.actions[k], p)
    ensures p in r.states[j].world.spawned
  {
    hide Next, Inv, Ends, Bears, GivesUp, RecordedBy;
    RunsKeepInv(r, j);
    if i == j {
      AliveIsSpawned(r.states[i], p);
    } else {
      LivesUntilACause(r, i, j - 1, p);
      RunsKeepInv(r, j - 1);
      NextOnPath(r, j - 1);
      EveryStepFollowsItsAction(r.states[j - 1], r.actions[j - 1], r.states[j - 1 + 1]);
    }
  }

  lemma AliveIsSpawned(s: State, p: nat)
    requires Inv(s) && p in s.world.alive
    ensures p in s.world.spawned
  {}

  /** Cores are given up in two ways only: lost right after the spawn, or lost by the watchdog that waited for it. */
  lemma {:induction false} GivenUpForACause(r: Run, i: nat, j: nat, p: nat)
    requires IsRun(r) && i <= j < |r.states|
    ensures p in r.states[j].world.detached <==>
              p in r.states[i].world.detached || exists k | i <= k < j :: GivesUp(r.states[k], r.actions[k], p)
  {
    hide Next, Inv, Ends, Bears, GivesUp, RecordedBy;
    if i < j {
      GivenUpForACause(r, i, j - 1, p);
      RunsKeepInv(r, j - 1);
      NextOnPath(r, j - 1);
      EveryStepFollowsItsAction(r.states[j - 1], r.actions[j - 1], r.states[j - 1 + 1]);
    }
  }

  // What was entered in the record last, or removed.
  ghost function LastRecorded(r: Run, i: nat): Option<nat>
    requires IsPath(r) && i < |r.states|
  {
    if i == 0 then None
    else
      var before := r.states[i - 1];
      match r.actions[i - 1]
      case WatchdogMoves(w, m) =>
        if w in before.watchdogs then RecordAfter(LastRecorded(r, i - 1), before.watchdogs[w].phase.Holds(), m)
        else LastRecorded(r, i - 1)
      case ManagerMoves(m) => RecordAfter(LastRecorded(r, i - 1), before.operation.Holds(), m)
      case Boot(luck, _) => RecordAfterBoot(before.world.(record := LastRecorded(r, i - 1)), luck)
      case _ => LastRecorded(r, i - 1)
  }

  /** The runtime record is the core whose holder wrote it last, and gone when a removal has worked since. */
  lemma {:induction false} RecordIsTheLastWritten(r: Run, i: nat)
    requires IsRun(r) && i < |r.states|
    ensures r.states[i].world.record == LastRecorded(r, i)
  {
    hide Next, Inv, Ends, Bears, GivesUp, RecordAfter;
    if i > 0 {
      RecordIsTheLastWritten(r, i - 1);
      RunsKeepInv(r, i - 1);
      NextOnPath(r, i - 1);
      EveryStepFollowsItsAction(r.states[i - 1], r.actions[i - 1], r.states[i - 1 + 1]);
      assert r.states[i - 1].world.(record := LastRecorded(r, i - 1)) == r.states[i - 1].world;
    }
  }

  /* ---------- a healthy core is left alone ---------- */

  // A watchdog that nobody has told anything waits for its core, which is alive.
  predicate Watched(s: State, w: nat, p: nat) {
    && w in s.watchdogs && s.watchdogs[w].phase == Waiting(p) && !s.watchdogs[w].signalled
    && Tracked(s, p)
  }

  // A stop begins, the core exits, its handle is lost, or the service crashes.
  predicate Disturbs(s: State, a: Action, w: nat, p: nat) {
    || a.Crash? || a == CoreExits(p) || a == WatchdogMoves(w, LoseChild)
    || (a.ManagerMoves? && s.operation.Stop? && s.operation.stop.Signalling?)
  }

  // The watchdog has nothing to do, and nobody tells it anything.
  lemma UndisturbedKeepsWaiting(s: State, a: Action, s': State, w: nat, p: nat)
    requires Inv(s) && Watched(s, w, p) && Next(s, a) == Some(s') && !Disturbs(s, a, w, p)
    ensures w in s'.watchdogs && s'.watchdogs[w] == s.watchdogs[w] && s'.orphans == s.orphans
  {
    hide Coupled, Traced, AllAccountedFor, Isolated, Matched, PublishedOnce, RecordKept, Resumed, StopCoreStep,
         StartCoreStep, RequestStep;
    match a
    case WatchdogMoves(v, _) => assert Joinable(s, w) && (s.watchdogs[v].phase.Finished? || v == w);
    case ManagerMoves(_) =>
    case CoreExits(_) =>
    case ShutdownStops =>
    case Boot(_, _) =>
    case _ => RequestStepHasEffect(s, a, s');
  }

  lemma UndisturbedLivesOn(s: State, a: Action, w: nat, p: nat)
    requires Inv(s) && Watched(s, w, p) && !Disturbs(s, a, w, p) && Next(s, a).Some?
    ensures !Ends(s, a, p) && (GivesUp(s, a, p) ==> Bears(a, p))
  {
    hide Traced, AllAccountedFor, Isolated, Matched, PublishedOnce, RecordKept, ManagerStep, RequestStep;
    assert s.watchdogs[w].phase.Holds() == Some(p);
    assert Joinable(s, w);
  }

  lemma UndisturbedStaysWatched(s: State, a: Action, s': State, w: nat, p: nat)
    requires Inv(s) && Watched(s, w, p) && Next(s, a) == Some(s') && !Disturbs(s, a, w, p)
    ensures Watched(s', w, p) && s'.watchdogs[w] == s.watchdogs[w] && s'.world.record == Some(p)
  {
    UndisturbedKeepsWaiting(s, a, s', w, p);
    UndisturbedLivesOn(s, a, w, p);
    EveryStepFollowsItsAction(s, a, s');
    EveryStepKeepsInv(s, a, s');
    hide Custody, Coupled, AllAccountedFor, Isolated, Matched, PublishedOnce, Next, Ends, Bears, GivesUp, RecordedBy,
         Disturbs;
  }

  /**
   Supervision leaves a healthy core alone: as long as no stop begins, the core does not exit, its handle is not lost
   and the service does not crash, it lives, stays with its watchdog, and stays in the record.
   */
  lemma {:induction false} WatchedUntilDisturbed(r: Run, i: nat, j: nat, w: nat, p: nat)
    requires IsRun(r) && i < j < |r.states| && Watched(r.states[i], w, p)
    requires forall k | i <= k < j :: !Disturbs(r.states[k], r.actions[k], w, p)
    ensures Watched(r.states[j], w, p) && r.states[j].watchdogs[w] == r.states[i].watchdogs[w]
    ensures r.states[j].world.record == Some(p)
  {
    hide Next, Inv, Watched, Disturbs;
    if i < j - 1 { WatchedUntilDisturbed(r, i, j - 1, w, p); }
    RunsKeepInv(r, j - 1);
    NextOnPath(r, j - 1);
    UndisturbedStaysWatched(r.states[j - 1], r.actions[j - 1], r.states[j - 1 + 1], w, p);
  }
}
