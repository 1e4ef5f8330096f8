/**
 What the invariant means for whole runs of the service: one core at a time, held by somebody; a stop that
 leaves nothing; owners kept apart; a pid and a configuration that belong together; and what survives a
 crash of the service.
 */
module SupervisionRuns {
  import opened Wrappers
  import opened Supervision
  import opened SupervisionInvariant
  import Reconcile

  datatype Run = Run(states: seq<State>, actions: seq<Action>)

  predicate IsPath(r: Run) {
    && |r.states| == |r.actions| + 1
    && forall i | 0 <= i < |r.actions| :: Next(r.states[i], r.actions[i]) == Some(r.states[i + 1])
  }

  predicate IsRun(r: Run) {
    IsPath(r) && r.states[0] == FIRST_STATE
  }

  function End(r: Run): State
    requires IsPath(r)
  {
    r.states[|r.states| - 1]
  }

  lemma Then(r: Run, a: Action, s': State) returns (r': Run)
    requires IsPath(r) && Next(End(r), a) == Some(s')
    ensures IsPath(r') && r'.states[0] == r.states[0] && End(r') == s'
    ensures r' == Run(r.states + [s'], r.actions + [a])
  {
    hide Next;
    r' := Run(r.states + [s'], r.actions + [a]);
    forall i | 0 <= i < |r'.actions|
      ensures Next(r'.states[i], r'.actions[i]) == Some(r'.states[i + 1])
    {
      if i < |r.actions| { assert Next(r.states[i], r.actions[i]) == Some(r.states[i + 1]); }
    }
  }

  lemma {:induction false} RunsKeepInv(r: Run, i: nat)
    requires IsRun(r) && i < |r.states|
    ensures Inv(r.states[i])
  {
    hide Inv, Next;
    if i == 0 {
      FirstStateInv();
    } else {
      RunsKeepInv(r, i - 1);
      assert Next(r.states[i - 1], r.actions[i - 1]) == Some(r.states[i - 1 + 1]);
      EveryStepKeepsInv(r.states[i - 1], r.actions[i - 1], r.states[i]);
    }
  }

  /* ---------- unused ids ---------- */

  lemma {:induction false} UnusedId(ids: set<nat>)
    ensures exists w: nat :: w !in ids
  {
    var bound := Above(ids);
    assert bound !in ids;
  }

  lemma {:induction false} Above(ids: set<nat>) returns (bound: nat)
    ensures forall w | w in ids :: w < bound
  {
    if ids == {} {
      bound := 0;
    } else {
      var w :| w in ids;
      var rest := Above(ids - {w});
      bound := if w < rest then rest else w + 1;
      assert forall x | x in ids :: x == w || x in ids - {w};
    }
  }

  /* ---------- one core, and who holds it ---------- */

  // A live core of this run of the service that has not been given up.
  predicate Tracked(s: State, pid: nat) {
    pid in s.world.alive && pid !in s.world.detached && pid !in s.orphans
  }

  // A live core left by an earlier run of the service.
  predicate Orphan(s: State, pid: nat) {
    pid in s.orphans && pid in s.world.alive && pid !in s.world.detached
  }

  // A live core that has not been given up, whichever run of the service spawned it.
  predicate Loose(s: State, pid: nat) {
    pid in s.world.alive && pid !in s.world.detached
  }

  // The start in progress, or a stop that retries a kill.
  predicate HeldByOperation(s: State, pid: nat) {
    s.operation.Holds() == Some(pid)
  }

  predicate HeldByManager(s: State, pid: nat) {
    s.world.fields.failedChild == Some(pid)
  }

  // The watchdog the manager has, or is waiting for, at work on this very core.
  predicate HeldByWatchdog(s: State, pid: nat) {
    exists w | w in s.watchdogs :: Joinable(s, w) && s.watchdogs[w].phase.Holds() == Some(pid)
  }

  /**
   In every interleaving at most one tracked core is alive, and exactly one party holds it: the operation in
   progress, the single watchdog, or `failed_child`.
   */
  lemma AtMostOneCore(r: Run, i: nat, p: nat, q: nat)
    requires IsRun(r) && i < |r.states| && Tracked(r.states[i], p) && Tracked(r.states[i], q)
    ensures p == q
    ensures var s := r.states[i];
            var holders := [HeldByOperation(s, p), HeldByManager(s, p), HeldByWatchdog(s, p)];
            holders in {[true, false, false], [false, true, false], [false, false, true]}
  {
    RunsKeepInv(r, i);
    HolderIsUnique(r.states[i], p);
    HolderIsUnique(r.states[i], q);
  }

  lemma HolderIsUnique(s: State, p: nat)
    requires Inv(s) && Tracked(s, p)
    ensures forall q: nat | SomeoneHolds(s, q) :: q == p
    ensures SomeoneHolds(s, p)
    ensures var holders := [HeldByOperation(s, p), HeldByManager(s, p), HeldByWatchdog(s, p)];
            holders in {[true, false, false], [false, true, false], [false, false, true]}
  {
    hide Traced, Isolated, Matched, PublishedOnce, RecordKept, Coupled;
    if w :| w in s.watchdogs && s.watchdogs[w].phase.Holds() == Some(p) {
      assert Joinable(s, w);
    }
  }

  /* ---------- stopping ---------- */

  /** `stop_core` returning success leaves no tracked core, and clears pid, configuration and watchdog. */
  lemma StopLeavesNothing(r: Run, i: nat, removed: bool)
    requires IsRun(r) && i < |r.actions| && r.actions[i] == ManagerMoves(RemoveRecord(removed))
    requires r.states[i].operation.Stop?
    ensures var s := r.states[i + 1];
            && Quiet(s) && s.world.fields == NEW_MANAGER
            && (forall p :: !Tracked(s, p))
  {
    RunsKeepInv(r, i);
    RunsKeepInv(r, i + 1);
    StopReturns(r.states[i], removed, r.states[i + 1]);
  }

  lemma StopReturns(s: State, removed: bool, s': State)
    requires Inv(s) && Inv(s') && s.operation.Stop? && ManagerStep(s, RemoveRecord(removed)) == Some(s')
    ensures Quiet(s') && s'.world.fields == NEW_MANAGER && s'.operation.Idle? && forall p :: !Tracked(s', p)
  {
    hide Traced, Isolated, Matched, PublishedOnce, RecordKept;
    assert s.operation.stop.RemovingRecord?;
    forall p
      ensures !Tracked(s', p)
    {
      assert !SomeoneHolds(s', p);
    }
  }

  /** It never returns anything else: there is no way out of a stop but the last one. */
  lemma StopNeverFails(r: Run, i: nat)
    requires IsRun(r) && i < |r.actions| && r.actions[i].ManagerMoves? && r.states[i].operation.Stop?
    requires !r.states[i + 1].operation.Stop?
    ensures r.actions[i].move.RemoveRecord? && r.states[i].operation.stop.RemovingRecord?
    ensures r.states[i + 1] == Return(r.states[i].(world := r.states[i + 1].world), r.states[i].operation.next, true)
  {
    RunsKeepInv(r, i);
    OnlyWayOut(r.states[i], r.actions[i].move, r.states[i + 1]);
  }

  lemma OnlyWayOut(s: State, m: Move, s': State)
    requires Inv(s) && s.operation.Stop? && ManagerStep(s, m) == Some(s') && !s'.operation.Stop?
    ensures m.RemoveRecord? && s.operation.stop.RemovingRecord?
    ensures s' == Return(s.(world := s'.world), s.operation.next, true)
  {
    hide Traced, AllAccountedFor, Isolated, Matched, PublishedOnce, RecordKept, Resumed, OneWatchdog, FailureKept,
         Quiet;
  }

  // A stop that waits for itself: it has taken the core out of `failed_child`, and holds the lock that putting it
  // back needs.
  predicate Blocked(s: State, pid: nat) {
    s.operation.Stop? && s.operation.stop == PuttingBack(pid)
  }

  /** A stop comes to that exactly when it has taken a core out of `failed_child` and killing it fails once more. */
  lemma StopBlocksExactly(r: Run, i: nat, p: nat)
    requires IsRun(r) && i < |r.actions| && !Blocked(r.states[i], p)
    ensures Blocked(r.states[i + 1], p) <==>
              r.states[i].operation.Stop? && r.states[i].operation.stop == Retrying(p) &&
              r.actions[i] == ManagerMoves(Kill(false))
    ensures r.states[i].operation.Stop? && r.states[i].operation.stop.TakingFailed? && r.actions[i].ManagerMoves? ==>
              (r.states[i].world.fields.failedChild == Some(p) <==> r.states[i + 1].operation.Holds() == Some(p))
  {
    RunsKeepInv(r, i);
    assert Next(r.states[i], r.actions[i]) == Some(r.states[i + 1]);
    BlocksExactly(r.states[i], r.actions[i], r.states[i + 1], p);
  }

  lemma BlocksExactly(s: State, a: Action, s': State, p: nat)
    requires Inv(s) && Next(s, a) == Some(s') && !Blocked(s, p)
    ensures Blocked(s', p) <==> s.operation.Stop? && s.operation.stop == Retrying(p) && a == ManagerMoves(Kill(false))
    ensures s.operation.Stop? && s.operation.stop.TakingFailed? && a.ManagerMoves? ==>
              (s.world.fields.failedChild == Some(p) <==> s'.operation.Holds() == Some(p))
  {
    hide Custody, Traced, AllAccountedFor, Isolated, Matched, PublishedOnce, RecordKept, Resumed, RequestStep,
         StartCoreStep;
    match a
    case WatchdogMoves(w, m) =>
    case ManagerMoves(m) =>
    case CoreExits(_) =>
    case Crash =>
    case Boot(_, _) =>
    case ShutdownStops =>
    case _ => RequestStepHasEffect(s, a, s');
  }

  // What goes through the manager's lock.
  predicate NeedsManager(a: Action) {
    a.ManagerMoves? || a.CallManager? || a.ShutdownStops? || a.ReadRunning? || a.RecheckRunning?
  }

  /** Then nobody gets the manager any more: no stop, no start, no staging, no shutdown, until the service crashes. */
  lemma {:induction false} BlockedForGood(r: Run, i: nat, j: nat, p: nat)
    requires IsPath(r) && i <= j < |r.states| && r.states[i].up && Blocked(r.states[i], p)
    requires forall k | i <= k < j :: !r.actions[k].Crash?
    ensures r.states[j].up && r.states[j].operation == r.states[i].operation
    ensures forall a | NeedsManager(a) :: Next(r.states[j], a).None?
    decreases j
  {
    hide Next;
    if i < j {
      BlockedForGood(r, i, j - 1, p);
      NextOnPath(r, j - 1);
      BlockedStays(r.states[j - 1], r.actions[j - 1], r.states[j - 1 + 1]);
    }
    NothingGetsTheManager(r.states[j], p);
  }

  lemma NextOnPath(r: Run, k: nat)
    requires IsPath(r) && k < |r.actions|
    ensures Next(r.states[k], r.actions[k]) == Some(r.states[k + 1])
  {}

  lemma BlockedStays(s: State, a: Action, s': State)
    requires s.up && s.operation.Stop? && s.operation.stop.PuttingBack? && !a.Crash? && Next(s, a) == Some(s')
    ensures s'.up && s'.operation == s.operation
  {
    hide RequestStep, WatchdogStep;
    match a
    case WatchdogMoves(w, m) =>
    case ManagerMoves(m) =>
    case CoreExits(_) =>
    case Boot(_, _) =>
    case ShutdownStops =>
    case _ => RequestStepHasEffect(s, a, s');
  }

  lemma NothingGetsTheManager(s: State, p: nat)
    requires s.up && s.operation.Stop? && s.operation.stop.PuttingBack?
    ensures forall a | NeedsManager(a) :: Next(s, a).None?
  {}

  // How far a watchdog is from its end if all goes well.
  function Rank(phase: Phase): nat {
    match phase
    case Finished(_) => 0
    case EndingRecord => 1
    case Failing(_) => 1
    case Ending => 2
    case UnsecuredRecording(_) => 2
    case Unrecorded(_) => 2
    case Waiting(_) => 3
    case Restarting => 3
    case Unsecured(_) => 3
    case Recording(_) => 3
    case Unrecording => 4
    case Securing(_) => 4
    case Publishing(_) => 4
    case Cleared => 5
  }

  function WayOut(phase: Phase): Move {
    match phase
    case Waiting(_) => SeeShutdown(true)
    case Unrecording => RemoveRecord(true)
    case Restarting => SeeShutdown(true)
    case Securing(_) => Secure(false, true)
    case Recording(_) => WriteRecord(false, false, true)
    case UnsecuredRecording(_) => KeepRecord(true)
    case EndingRecord => RemoveRecord(true)
    case _ => Proceed
  }

  /** A watchdog that has been told to stop can always go on to its end. */
  lemma SignalledWatchdogCanFinish(s: State, w: nat)
    requires w in s.watchdogs && s.watchdogs[w].signalled && !s.watchdogs[w].phase.Finished?
    ensures var s' := WatchdogMoved(s, w, WayOut(s.watchdogs[w].phase));
            && s'.Some? && w in s'.value.watchdogs && s'.value.watchdogs[w].signalled
            && Rank(s'.value.watchdogs[w].phase) < Rank(s.watchdogs[w].phase)
            && s'.value.operation == s.operation
  {}

  predicate CrashFree(r: Run) {
    forall a | a in r.actions :: !a.Crash?
  }

  // How far a stop is from its return if all goes well.
  function StopRank(s: State): nat
    requires s.operation.Stop?
  {
    match s.operation.stop
    case Signalling => 20
    case TakingHandle => 19
    case Joining(w) => 10 + if w in s.watchdogs then Rank(s.watchdogs[w].phase) else 0
    case TakingFailed(_) => 9
    case Retrying(_) => 8
    case PuttingBack(_) => 7
    case ClearingPid => 2
    case ClearingConfig => 1
    case RemovingRecord => 0
  }

  function StopWayOut(s: State): Action
    requires s.operation.Stop?
  {
    match s.operation.stop
    case Joining(w) =>
      if w in s.watchdogs && !s.watchdogs[w].phase.Finished? then WatchdogMoves(w, WayOut(s.watchdogs[w].phase))
      else ManagerMoves(Proceed)
    case Retrying(_) => ManagerMoves(Kill(true))
    case RemovingRecord => ManagerMoves(RemoveRecord(true))
    case _ => ManagerMoves(Proceed)
  }

  lemma StopGoesOn(s: State) returns (s': State)
    requires Inv(s) && s.up && s.operation.Stop? && !s.operation.stop.PuttingBack?
    ensures Next(s, StopWayOut(s)) == Some(s') && s'.up
    ensures s'.active == s.active && s'.reconciled == s.reconciled
    ensures if s'.operation.Stop? then
              && !s'.operation.stop.PuttingBack? && StopRank(s') < StopRank(s)
              && s'.operation.next == s.operation.next && s'.request == s.request
            else
              && s'.operation.Idle?
              && s'.request == if s.operation.next.ToRequest? then Resumed(s.request, true) else s.request
  {
    hide Traced, AllAccountedFor, Isolated, Matched, PublishedOnce, RecordKept, Resumed, OneWatchdog, FailureKept,
         Quiet;
    if s.operation.stop.Joining? && !s.watchdogs[s.operation.stop.watchdog].phase.Finished? {
      assert Joinable(s, s.operation.stop.watchdog);
      SignalledWatchdogCanFinish(s, s.operation.stop.watchdog);
      hide WatchdogStep, Rank, WayOut;
      s' := WatchdogMoved(s, s.operation.stop.watchdog, StopWayOut(s).move).value;
    } else {
      s' := Next(s, StopWayOut(s)).value;
    }
  }

  lemma {:induction false} StopCanReturn(r: Run) returns (r': Run)
    requires IsPath(r) && CrashFree(r) && Inv(End(r)) && End(r).up
    requires End(r).operation.Stop? && !End(r).operation.stop.PuttingBack?
    ensures IsPath(r') && CrashFree(r') && r'.states[0] == r.states[0] && Inv(End(r')) && End(r').up
    ensures var s, s' := End(r), End(r');
            && s'.operation.Idle? && s'.active == s.active && s'.reconciled == s.reconciled
            && s'.request == if s.operation.next.ToRequest? then Resumed(s.request, true) else s.request
    decreases StopRank(End(r))
  {
    hide Next, Inv, IsPath, StopRank, Resumed;
    var s := End(r);
    var s' := StopGoesOn(s);
    EveryStepKeepsInv(s, StopWayOut(s), s');
    r' := Then(r, StopWayOut(s), s');
    if s'.operation.Stop? {
      r' := StopCanReturn(r');
    }
  }

  /** Left to run, every stop can still return, except exactly the one that waits for itself. */
  lemma StopReturnsUnlessBlocked(s: State)
    requires Inv(s) && s.up && s.operation.Stop?
    ensures (exists r :: IsPath(r) && CrashFree(r) && r.states[0] == s && !End(r).operation.Stop?) <==>
              !s.operation.stop.PuttingBack?
  {
    hide Next, Inv;
    if s.operation.stop.PuttingBack? {
      forall r | IsPath(r) && CrashFree(r) && r.states[0] == s
        ensures End(r).operation.Stop?
      {
        BlockedForGood(r, 0, |r.actions|, s.operation.stop.pid);
      }
    } else {
      var r := StopCanReturn(Run([s], []));
    }
  }

  /** A start never finds a core running: every way to it leads past a successful stop, or is the first. */
  lemma StartFindsNothing(r: Run, i: nat)
    requires IsRun(r) && i < |r.states| && r.states[i].operation.Start? && r.states[i].operation.start.Checking?
    ensures Quiet(r.states[i])
  {
    RunsKeepInv(r, i);
  }

  /**
   When the generation is rebuilt, and when the next start begins, no core of this run of the service is alive. One
   of an earlier run may be: exactly the orphans are.
   */
  lemma MaterializingFindsOnlyOrphans(r: Run, i: nat, p: nat)
    requires IsRun(r) && i < |r.states| && Emptied(r.states[i].request)
    ensures Quiet(r.states[i]) && !Tracked(r.states[i], p)
    ensures Loose(r.states[i], p) <==> Orphan(r.states[i], p)
  {
    RunsKeepInv(r, i);
    hide Custody, Traced, Isolated, Matched, PublishedOnce, RecordKept;
    assert !SomeoneHolds(r.states[i], p);
  }

  /* ---------- what the check in `start_core` would be worth ---------- */

  // Still in its restart loop.
  predicate InLoop(phase: Phase) {
    || phase.Waiting? || phase.Cleared? || phase.Unrecording? || phase.Restarting?
    || phase.Securing? || phase.Recording? || phase.Publishing?
  }

  // All of it while a start is in progress, up to the last step at most.
  predicate DuringStart(r: Run) {
    IsPath(r) && forall i | 0 <= i < |r.actions| :: r.states[i].operation.Start?
  }

  predicate TwoCores(s: State) {
    exists p: nat, q: nat | p in s.world.alive && q in s.world.alive && p != q :: Tracked(s, p) && Tracked(s, q)
  }

  /**
   `start_core` asks the running pid only. Left to that check, in whatever state it finds the service, a start that
   reads zero can end up beside another core exactly when a core is alive already, or some watchdog is still in its
   restart loop: one that recovers has cleared the pid.
   */
  lemma CheckingThePidIsNotEnough(s: State)
    requires s.up && s.reconciled && s.operation.Start? && s.operation.start.Checking? && s.world.fields.runningPid == 0
    ensures (exists r :: DuringStart(r) && r.states[0] == s && TwoCores(End(r))) <==>
              (exists p | p in s.world.alive :: Tracked(s, p)) ||
              (exists w | w in s.watchdogs :: InLoop(s.watchdogs[w].phase))
  {
    hide TwoCores, Next;
    if p :| p in s.world.alive && Tracked(s, p) {
      var r := StartBesideCore(s, p);
    } else if w :| w in s.watchdogs && InLoop(s.watchdogs[w].phase) {
      var r := StartBesideWatchdog(s, w);
    } else {
      forall r | DuringStart(r) && r.states[0] == s
        ensures !TwoCores(End(r))
      {
        StartStaysAlone(r, |r.actions|);
      }
    }
  }

  lemma FreshPid(s: State, others: set<nat>) returns (p: nat)
    ensures s.world.Fresh(p) && p !in s.world.detached + s.orphans + s.world.alive + others
  {
    p := Above(s.world.spawned.Keys + s.world.detached + s.orphans + s.world.alive + others + {0});
  }

  lemma StartBesideCore(s: State, p: nat) returns (r: Run)
    requires s.reconciled && s.operation.Start? && s.operation.start.Checking? && s.world.fields.runningPid == 0
    requires Tracked(s, p)
    ensures DuringStart(r) && r.states[0] == s && TwoCores(End(r))
  {
    var q := FreshPid(s, {});
    r := Run([s], []);
    r := Then(r, ManagerMoves(Proceed), s.(operation := s.operation.(start := Preparing)));
    var s2 := s.(operation := s.operation.(start := SecuringNew(q)),
                 world := s.world.Spawning(q, s.operation.owner, s.operation.config));
    r := Then(r, ManagerMoves(SpawnCore(q)), s2);
    assert Tracked(s2, p) && Tracked(s2, q);
  }

  // How many steps a watchdog still in its loop has before it tries again.
  function StepsToRestart(phase: Phase): nat {
    match phase
    case Unrecording => 1
    case Securing(_) => 1
    case Cleared => 2
    case Waiting(_) => 3
    case Publishing(_) => 4
    case Recording(_) => 5
    case _ => 0
  }

  function StepRound(phase: Phase): Move {
    match phase
    case Waiting(_) => SeeExit
    case Unrecording => RemoveRecord(true)
    case Securing(_) => Secure(false, true)
    case Recording(_) => WriteRecord(true, true, false)
    case _ => Proceed
  }

  // The start waits in `Preparing` meanwhile, and nothing that has been given up comes back.
  predicate Meanwhile(r: Run, r': Run)
    requires IsPath(r)
  {
    && DuringStart(r') && r'.states[0] == r.states[0]
    && End(r').operation == End(r).operation && End(r').world.spawned == End(r).world.spawned
    && End(r').world.detached == End(r).world.detached && End(r').orphans == End(r).orphans
    && End(r').watchdogs.Keys == End(r).watchdogs.Keys
  }

  lemma {:induction false} WatchdogComesRound(r: Run, w: nat) returns (r': Run)
    requires DuringStart(r) && End(r).operation.Start? && w in End(r).watchdogs && InLoop(End(r).watchdogs[w].phase)
    ensures Meanwhile(r, r') && End(r').watchdogs[w].phase.Restarting?
    decreases StepsToRestart(End(r).watchdogs[w].phase)
  {
    hide Next;
    r' := r;
    var phase := End(r).watchdogs[w].phase;
    if !phase.Restarting? {
      if phase.Waiting? {
        ExitIsAStep(End(r), phase.pid);
        r' := Then(r', CoreExits(phase.pid), End(r).(world := End(r).world.Killing(phase.pid)));
      }
      var s' := WatchdogStepsRound(End(r'), w);
      r' := Then(r', WatchdogMoves(w, StepRound(phase)), s');
      r' := WatchdogComesRound(r', w);
    }
  }

  lemma ExitIsAStep(s: State, p: nat)
    ensures Next(s, CoreExits(p)) == Some(s.(world := s.world.Killing(p)))
  {}

  lemma WatchdogStepsRound(s: State, w: nat) returns (s': State)
    requires w in s.watchdogs && InLoop(s.watchdogs[w].phase) && !s.watchdogs[w].phase.Restarting?
    requires s.watchdogs[w].phase.Waiting? ==> s.watchdogs[w].phase.pid !in s.world.alive
    ensures Next(s, WatchdogMoves(w, StepRound(s.watchdogs[w].phase))) == Some(s')
    ensures s'.operation == s.operation && s'.orphans == s.orphans && s'.watchdogs.Keys == s.watchdogs.Keys
    ensures s'.world.spawned == s.world.spawned && s'.world.detached == s.world.detached
    ensures InLoop(s'.watchdogs[w].phase)
    ensures StepsToRestart(s'.watchdogs[w].phase) < StepsToRestart(s.watchdogs[w].phase)
  {
    s' := Next(s, WatchdogMoves(w, StepRound(s.watchdogs[w].phase))).value;
  }

  lemma StartBesideWatchdog(s: State, w: nat) returns (r: Run)
    requires s.reconciled && s.operation.Start? && s.operation.start.Checking? && s.world.fields.runningPid == 0
    requires w in s.watchdogs && InLoop(s.watchdogs[w].phase)
    ensures DuringStart(r) && r.states[0] == s && TwoCores(End(r))
  {
    hide TwoCores;
    r := Run([s], []);
    var owner, config := s.operation.owner, s.operation.config;
    var s1 := s.(operation := Start(Preparing, owner, config));
    r := Then(r, ManagerMoves(Proceed), s1);
    r := WatchdogComesRound(r, w);
    var s2 := End(r);
    var p := FreshPid(s2, {});
    var q := FreshPid(s2, {p});
    var s3 := s2.(operation := Start(SecuringNew(p), owner, config), world := s2.world.Spawning(p, owner, config));
    r := Then(r, ManagerMoves(SpawnCore(p)), s3);
    var dog := s3.watchdogs[w];
    var s4 := s3.(watchdogs := s3.watchdogs[w := dog.(phase := Securing(q))],
                  world := s3.world.Spawning(q, dog.owner, dog.config));
    r := Then(r, WatchdogMoves(w, SpawnCore(q)), s4);
    MakesTwo(s4, p, q);
  }

  lemma MakesTwo(s: State, p: nat, q: nat)
    requires p != q && Tracked(s, p) && Tracked(s, q)
    ensures TwoCores(s)
  {}

  // No watchdog will ever spawn again, and the start holds whatever is alive.
  predicate Alone(s: State) {
    && s.up && s.operation.Start?
    && (forall w | w in s.watchdogs :: !InLoop(s.watchdogs[w].phase))
    && (forall p | p in s.world.alive :: Tracked(s, p) ==> s.operation.Holds() == Some(p))
  }

  lemma {:induction false} StartStaysAlone(r: Run, i: nat)
    requires DuringStart(r) && i <= |r.actions| && Alone(r.states[0])
    ensures i < |r.actions| ==> Alone(r.states[i])
    ensures !TwoCores(r.states[i])
  {
    hide Next, Alone, TwoCores;
    if i == 0 {
      AloneIsOne(r.states[0]);
    } else {
      StartStaysAlone(r, i - 1);
      NextOnPath(r, i - 1);
      AloneStays(r.states[i - 1], r.actions[i - 1], r.states[i - 1 + 1]);
    }
  }

  lemma AloneIsOne(s: State)
    requires Alone(s)
    ensures !TwoCores(s)
  {}

  lemma AloneStays(s: State, a: Action, s': State)
    requires Alone(s) && Next(s, a) == Some(s')
    ensures s'.operation.Start? ==> Alone(s')
    ensures !TwoCores(s')
  {
    hide RequestStep, ManagerStep, WatchdogMoved;
    match a
    case WatchdogMoves(w, m) => AloneBesideWatchdog(s, w, m, s');
    case ManagerMoves(m) => AloneInStart(s, m, s');
    case CoreExits(_) =>
    case Crash =>
    case Boot(_, _) =>
    case ShutdownStops =>
    case _ => RequestStepHasEffect(s, a, s');
  }

  lemma AloneBesideWatchdog(s: State, w: nat, m: Move, s': State)
    requires Alone(s) && WatchdogMoved(s, w, m) == Some(s')
    ensures Alone(s') && !TwoCores(s')
  {}

  lemma AloneInStart(s: State, m: Move, s': State)
    requires Alone(s) && ManagerStep(s, m) == Some(s')
    ensures s'.operation.Start? ==> Alone(s')
    ensures !TwoCores(s')
  {
    if MidStart(s) {
      StartStepHasEffect(s, m, s');
      hide ManagerStep, Resumed;
    } else {
      hide Resumed, StartCoreStep, StopCoreStep;
    }
  }

  /* ---------- owners ---------- */

  /** While an owner is active, no other owner's core of this run of the service is alive. */
  lemma TrackedCoreIsTheActiveOwners(r: Run, i: nat, p: nat)
    requires IsRun(r) && i < |r.states| && Tracked(r.states[i], p) && r.states[i].active.Some?
    ensures p in r.states[i].world.spawned && r.states[i].world.spawned[p].owner == r.states[i].active.value
  {
    RunsKeepInv(r, i);
    OwnedCores(r.states[i], r.states[i].active.value, p);
  }

  lemma OwnedCores(s: State, owner: Owner, p: nat)
    requires Inv(s) && OwnedBy(s, owner) && Tracked(s, p)
    ensures p in s.world.spawned && s.world.spawned[p].owner == owner
  {
    hide Isolated, Matched, PublishedOnce, RecordKept, Coupled;
    if w :| w in s.watchdogs && s.watchdogs[w].phase.Holds() == Some(p) {
      assert SpawnedAs(s, p, s.watchdogs[w].owner, s.watchdogs[w].config);
    }
  }

  predicate PassedGate(q: Request, owner: Owner) {
    (q.StopClash? || q.Stage?) && q.owner == owner
  }

  /** A Stop or Stage that passed its gate acts on the caller's own core, all the way to its end. */
  lemma GatedRequestsActOnTheirOwn(r: Run, i: nat, owner: Owner, p: nat)
    requires IsRun(r) && i < |r.states| && PassedGate(r.states[i].request, owner)
    ensures r.states[i].active == Some(owner)
    ensures Tracked(r.states[i], p) || p == r.states[i].world.fields.runningPid != 0 ==>
              p in r.states[i].world.spawned && r.states[i].world.spawned[p].owner == owner
  {
    RunsKeepInv(r, i);
    if Tracked(r.states[i], p) { OwnedCores(r.states[i], owner, p); }
  }

  /* ---------- pid and configuration ---------- */

  /** The pair staging reads is never torn: the pid belongs to a core spawned from that configuration. */
  lemma PidAndConfigMatch(r: Run, i: nat)
    requires IsRun(r) && i < |r.states| && RunningCoreConfig(r.states[i].world.fields).Some?
    ensures var (pid, config) := RunningCoreConfig(r.states[i].world.fields).value;
            pid in r.states[i].world.spawned && r.states[i].world.spawned[pid].config == config
  {
    RunsKeepInv(r, i);
  }

  // The running pid is only ever cleared, or replaced by one that was never published before; and nothing is
  // forgotten about a core.
  predicate PidAdvances(s: State, s': State) {
    var pid, pid' := s.world.fields.runningPid, s'.world.fields.runningPid;
    && (forall p | p in s.world.spawned :: p in s'.world.spawned && s'.world.spawned[p] == s.world.spawned[p])
    && s.world.published <= s'.world.published
    && (pid' == pid || pid' == 0 || pid' !in s.world.published)
  }

  // Within one run of the service no core comes alive that was not just spawned.
  predicate LifeGoesOn(s: State, s': State) {
    && s'.orphans == s.orphans && s'.reconciled == s.reconciled && s.world.detached <= s'.world.detached
    && forall p | p in s'.world.alive :: p in s.world.alive || p !in s.world.spawned
  }

  lemma PidsOnlyAdvance(s: State, a: Action, s': State)
    requires Inv(s) && Next(s, a) == Some(s')
    ensures PidAdvances(s, s')
    ensures !a.Crash? && !a.Boot? ==> LifeGoesOn(s, s')
  {
    hide Custody, Coupled, AllAccountedFor, Isolated, Matched, RecordKept;
    hide RequestStep, WatchdogMoved, ManagerStep, WatchdogEffect;
    match a
    case WatchdogMoves(w, m) => WatchdogPidAdvances(s, w, m, s');
    case ManagerMoves(m) => ManagerPidAdvances(s, m, s');
    case CoreExits(_) =>
    case Crash =>
    case Boot(_, _) =>
    case ShutdownStops =>
    case _ => RequestStepHasEffect(s, a, s');
  }

  lemma WatchdogPidAdvances(s: State, w: nat, m: Move, s': State)
    requires Traced(s) && PublishedOnce(s) && WatchdogMoved(s, w, m) == Some(s')
    ensures PidAdvances(s, s') && LifeGoesOn(s, s')
  {
    hide WatchdogMoved;
    WatchdogMovedHasEffect(s, w, m, s');
  }

  lemma ManagerPidAdvances(s: State, m: Move, s': State)
    requires Inv(s) && ManagerStep(s, m) == Some(s')
    ensures PidAdvances(s, s') && LifeGoesOn(s, s')
  {
    hide Custody, AllAccountedFor, Isolated, Matched, RecordKept, StopCoreStep, StartCoreStep, Resumed, OneWatchdog,
         FailureKept;
    if MidStart(s) {
      StartStepHasEffect(s, m, s');
    } else if s.operation.Stop? && !s.operation.stop.Signalling? && !s.operation.stop.Joining? {
      StopStepHasEffect(s, m, s');
    }
  }

  // From a moment on, a pid is either still the running one or will never be again.
  lemma {:induction false} PidsNeverReturn(r: Run, i: nat, k: nat, j: nat)
    requires IsRun(r) && i <= k <= j < |r.states| && r.states[i].world.fields.runningPid != 0
    ensures var pid := r.states[i].world.fields.runningPid;
            && pid in r.states[j].world.published
            && (r.states[k].world.fields.runningPid != pid ==> r.states[j].world.fields.runningPid != pid)
    decreases j
  {
    hide Next;
    RunsKeepInv(r, i);
    if i < j {
      PidsNeverReturn(r, i, if k < j then k else j - 1, j - 1);
      assert Next(r.states[j - 1], r.actions[j - 1]) == Some(r.states[j - 1 + 1]);
      RunsKeepInv(r, j - 1);
      PidsOnlyAdvance(r.states[j - 1], r.actions[j - 1], r.states[j]);
    }
  }

  lemma {:induction false} SpawnedIsForGood(r: Run, i: nat, k: nat, pid: nat)
    requires IsRun(r) && i <= k < |r.states| && pid in r.states[i].world.spawned
    ensures pid in r.states[k].world.spawned && r.states[k].world.spawned[pid] == r.states[i].world.spawned[pid]
    decreases k
  {
    hide Next;
    if i < k {
      SpawnedIsForGood(r, i, k - 1, pid);
      assert Next(r.states[k - 1], r.actions[k - 1]) == Some(r.states[k - 1 + 1]);
      RunsKeepInv(r, k - 1);
      PidsOnlyAdvance(r.states[k - 1], r.actions[k - 1], r.states[k]);
    }
  }

  /* ---------- restart safety ---------- */

  // Just spawned, and not yet in the runtime record.
  predicate BeingRecorded(s: State, pid: nat) {
    || (s.operation.Start? && s.operation.start in {SecuringNew(pid), RecordingNew(pid)})
    || exists w | w in s.watchdogs :: s.watchdogs[w].phase in {Securing(pid), Recording(pid)}
  }

  // A kill of it has failed before.
  predicate KillFailed(s: State, pid: nat) {
    || s.world.fields.failedChild == Some(pid)
    || (s.operation.Stop? && s.operation.stop in {Retrying(pid), PuttingBack(pid)})
    || (s.operation.Start? && s.operation.Holds() == Some(pid) &&
                              (s.operation.start.KeepingPid? || s.operation.start.KeepingConfig? ||
                               s.operation.start.KeepingRecord? || s.operation.start.KeepingChild?))
    || exists w | w in s.watchdogs :: s.watchdogs[w].phase in {Unsecured(pid), UnsecuredRecording(pid),
                                                               Unrecorded(pid), Failing(pid)}
  }

  /** The runtime record names the tracked core, except between spawning and recording it or after a failed kill. */
  lemma RecordedOutsideTheWindow(r: Run, i: nat, p: nat)
    requires IsRun(r) && i < |r.states| && Tracked(r.states[i], p)
    requires !BeingRecorded(r.states[i], p) && !KillFailed(r.states[i], p)
    ensures r.states[i].world.record == Some(p)
  {
    RunsKeepInv(r, i);
    RecordNamesTracked(r.states[i], p);
  }

  lemma RecordNamesTracked(s: State, p: nat)
    requires Inv(s) && Tracked(s, p) && !BeingRecorded(s, p) && !KillFailed(s, p)
    ensures s.world.record == Some(p)
  {
    hide Traced, Isolated, Matched, PublishedOnce, Coupled, Custody;
    if w :| w in s.watchdogs && s.watchdogs[w].phase.Holds() == Some(p) {
      assert s.watchdogs[w].phase !in {Securing(p), Recording(p)};
      assert s.watchdogs[w].phase !in {Unsecured(p), UnsecuredRecording(p), Unrecorded(p), Failing(p)};
    }
  }

  // Every orphan is named by the runtime record, and no core may be started while there is one.
  predicate OrphansRecorded(s: State) {
    && s.orphans <= s.world.spawned.Keys
    && forall p | p in s.orphans :: Orphan(s, p) ==> s.world.record == Some(p) && !s.reconciled
  }

  // A crash only comes when the record names the tracked core; and before reconciliation has succeeded no
  // stop completes, for it would take the record of an orphan away.
  predicate SafeStep(s: State, a: Action) {
    && (a.Crash? ==> forall p | p in s.world.alive :: Tracked(s, p) ==> s.world.record == Some(p))
    && (a == ManagerMoves(RemoveRecord(true)) && !s.reconciled ==> forall p | p in s.orphans :: !Orphan(s, p))
  }

  // Before reconciliation has succeeded only a completed stop touches the record.
  lemma UnreconciledKeepsRecord(s: State, a: Action, s': State)
    requires Inv(s) && !s.reconciled && !a.Crash? && !a.Boot? && Next(s, a) == Some(s')
    ensures s'.world.record == s.world.record || a == ManagerMoves(RemoveRecord(true))
  {
    hide Custody, Traced, AllAccountedFor, Isolated, Matched, PublishedOnce, RecordKept, StartCoreStep, RequestStep;
    match a
    case WatchdogMoves(w, m) =>
    case ManagerMoves(m) =>
    case CoreExits(_) =>
    case ShutdownStops =>
    case _ => RequestStepHasEffect(s, a, s');
  }

  lemma StepKeepsOrphansRecorded(s: State, a: Action, s': State)
    requires Inv(s) && OrphansRecorded(s) && SafeStep(s, a) && Next(s, a) == Some(s')
    ensures OrphansRecorded(s')
  {
    if a.Crash? {
      CrashKeepsOrphansRecorded(s, a, s');
    } else if a.Boot? {
      BootKeepsOrphansRecorded(s, a, s');
    } else {
      PidsOnlyAdvance(s, a, s');
      if !s.reconciled { UnreconciledKeepsRecord(s, a, s'); }
      hide Inv, Next;
    }
  }

  lemma CrashKeepsOrphansRecorded(s: State, a: Action, s': State)
    requires Inv(s) && OrphansRecorded(s) && SafeStep(s, a) && a.Crash? && Next(s, a) == Some(s')
    ensures OrphansRecorded(s')
  {
    hide Custody, Coupled, Isolated, Matched, PublishedOnce, RecordKept;
    forall p | p in Held(s)
      ensures p in s.world.spawned
    {
      HeldMembers(s, p);
      if w :| w in s.watchdogs && s.watchdogs[w].phase.Holds() == Some(p) {
        assert SpawnedAs(s, p, s.watchdogs[w].owner, s.watchdogs[w].config);
      }
    }
    forall p | p in s'.orphans && Orphan(s', p)
      ensures s'.world.record == Some(p)
    {
      assert Orphan(s, p) || Tracked(s, p);
    }
  }

  lemma BootKeepsOrphansRecorded(s: State, a: Action, s': State)
    requires OrphansRecorded(s) && a.Boot? && Next(s, a) == Some(s')
    ensures OrphansRecorded(s')
  {
    Reconcile.ReconcilingIsSafe(map p | p in s.world.alive :: p, RecordFile(s.world), a.luck);
    forall p | p in s'.orphans && Orphan(s', p)
      ensures s'.world.record == Some(p) && !s'.reconciled
    {
      assert Orphan(s, p);
    }
  }

  lemma {:induction false} OrphansStayRecorded(r: Run, i: nat)
    requires IsRun(r) && i < |r.states|
    requires forall k | 0 <= k < i :: SafeStep(r.states[k], r.actions[k])
    ensures Inv(r.states[i]) && OrphansRecorded(r.states[i])
  {
    hide Inv, Next, SafeStep;
    RunsKeepInv(r, i);
    if i > 0 {
      OrphansStayRecorded(r, i - 1);
      assert Next(r.states[i - 1], r.actions[i - 1]) == Some(r.states[i - 1 + 1]) &&
             SafeStep(r.states[i - 1], r.actions[i - 1]);
      StepKeepsOrphansRecorded(r.states[i - 1], r.actions[i - 1], r.states[i]);
    }
  }

  /** Restart safety: if every step so far was safe, there is never a second live core, of whichever run. */
  lemma NeverTwoCores(r: Run, i: nat, p: nat, q: nat)
    requires IsRun(r) && i < |r.states| && Loose(r.states[i], p) && Loose(r.states[i], q)
    requires forall k | 0 <= k < i :: SafeStep(r.states[k], r.actions[k])
    ensures p == q
  {
    OrphansStayRecorded(r, i);
    hide Next, SafeStep, IsRun;
    if Tracked(r.states[i], p) || Tracked(r.states[i], q) {
      NoOrphanBesideTracked(r.states[i], if Tracked(r.states[i], p) then p else q);
    }
    if Tracked(r.states[i], p) { HolderIsUnique(r.states[i], p); }
    if Tracked(r.states[i], q) { HolderIsUnique(r.states[i], q); }
    assert Orphan(r.states[i], p) || Tracked(r.states[i], p);
    assert Orphan(r.states[i], q) || Tracked(r.states[i], q);
  }

  lemma NoOrphanBesideTracked(s: State, p: nat)
    requires Inv(s) && OrphansRecorded(s) && Tracked(s, p)
    ensures forall q | q in s.orphans :: !Orphan(s, q)
  {
    hide Custody, Traced, Isolated, Matched, PublishedOnce, RecordKept;
    assert SomeoneHolds(s, p);
    if w :| w in s.watchdogs && s.watchdogs[w].phase.Holds() == Some(p) {
      assert !s.watchdogs[w].phase.Finished?;
    }
  }

  // A core of an earlier run belongs to the active owner as well, and before reconciliation has succeeded nobody new
  // can become active.
  predicate OrphansOwned(s: State) {
    && (s.active.Some? ==> forall p | p in s.orphans :: Orphan(s, p) ==> SpawnedFor(s, p, s.active.value))
    && (!s.reconciled ==> !(s.request.Takeover? && s.request.takeover.WillCommit?))
  }

  lemma StepKeepsOrphansOwned(s: State, a: Action, s': State)
    requires Inv(s) && OrphansRecorded(s) && OrphansOwned(s) && Next(s, a) == Some(s')
    ensures OrphansOwned(s')
  {
    hide Custody, Traced, AllAccountedFor, Isolated, Matched, PublishedOnce, RecordKept;
    hide RequestStep, WatchdogMoved, ManagerStep, Booted, Crashed;
    match a
    case Crash => CrashKeepsOrphansOwned(s, s');
    case Boot(_, _) => BootKeepsOrphansOwned(s, a, s');
    case WatchdogMoves(w, m) =>
      PidsOnlyAdvance(s, a, s');
      WatchdogLeavesRequests(s, w, m, s');
    case ManagerMoves(m) =>
      PidsOnlyAdvance(s, a, s');
      ManagerLeavesOwner(s, m, s');
    case CoreExits(_) =>
    case ShutdownStops =>
    case _ =>
      RequestStepHasEffect(s, a, s');
      OnlyCommitsActivate(s, a, s');
  }

  lemma WatchdogLeavesRequests(s: State, w: nat, m: Move, s': State)
    requires WatchdogMoved(s, w, m) == Some(s')
    ensures s'.active == s.active && s'.request == s.request && s'.reconciled == s.reconciled
  {
    hide WatchdogStep;
  }

  predicate OnlyResumed(s: State, s': State) {
    && s'.active == s.active && s'.reconciled == s.reconciled
    && (s'.request == s.request || s'.request == Resumed(s.request, true) || s'.request == Resumed(s.request, false))
  }

  lemma ReturnOnlyResumes(s: State, x: World, next: Continuation, ok: bool)
    ensures OnlyResumed(s, Return(s.(world := x), next, ok))
  {
    hide Resumed;
  }

  lemma StoppingOnlyResumes(s: State, step: StopStep, next: Continuation, m: Move, s': State)
    requires Stopping(s, step, next, m) == Some(s')
    ensures OnlyResumed(s, s')
  {
    hide Resumed, StopCoreStep, Return, Signalled;
    if !step.Signalling? && !step.Joining? {
      var o := StopCoreStep(s.world, step, m).value;
      if o.Returns? { ReturnOnlyResumes(s, o.world, next, o.ok); }
    }
  }

  lemma StartingOnlyResumes(s: State, step: StartStep, owner: Owner, config: Config, m: Move, s': State)
    requires Starting(s, step, owner, config, m) == Some(s')
    ensures OnlyResumed(s, s')
    ensures step.Checking? && !s.reconciled ==> s'.request == Resumed(s.request, false)
  {
    hide Resumed, StartCoreStep, Signalled;
    if !step.Checking? && !step.Watching? {
      var o := StartCoreStep(s.world, step, owner, config, m).value;
      if o.Returns? { ReturnOnlyResumes(s, o.world, ToRequest, o.ok); }
    }
  }

  lemma ManagerResumes(s: State, m: Move, s': State)
    requires ManagerStep(s, m) == Some(s')
    ensures OnlyResumed(s, s')
    ensures s.operation.Start? && s.operation.start.Checking? && !s.reconciled ==>
              s'.request == Resumed(s.request, false)
  {
    hide Stopping, Starting, OnlyResumed;
    match s.operation
    case Idle =>
    case Stop(step, next) => StoppingOnlyResumes(s, step, next, m, s');
    case Start(step, owner, config) => StartingOnlyResumes(s, step, owner, config, m, s');
  }

  lemma ManagerLeavesOwner(s: State, m: Move, s': State)
    requires Coupled(s) && OrphansOwned(s) && ManagerStep(s, m) == Some(s')
    ensures s'.active == s.active && s'.reconciled == s.reconciled
    ensures !s.reconciled ==> !(s'.request.Takeover? && s'.request.takeover.WillCommit?)
  {
    ManagerActs(s, m);
    ManagerResumes(s, m, s');
    hide ManagerStep, Orphan, Quiet;
  }

  lemma OnlyCommitsActivate(s: State, a: Action, s': State)
    requires s.up && RequestStep(s, a) == Some(s')
    ensures s'.active == s.active || s'.active.None? || (s.request.Takeover? && s.request.takeover.WillCommit?)
    ensures s'.request.Takeover? && s'.request.takeover.WillCommit? ==> s'.request == s.request
  {
    hide RunningCoreConfig;
  }

  lemma CrashKeepsOrphansOwned(s: State, s': State)
    requires Inv(s) && OrphansOwned(s) && Next(s, Crash) == Some(s')
    ensures OrphansOwned(s')
  {
    hide Custody, Coupled, Matched, PublishedOnce, RecordKept, AllAccountedFor;
    if s.active.Some? {
      forall p | p in s'.orphans && Orphan(s', p)
        ensures SpawnedFor(s, p, s.active.value)
      {
        if p !in s.orphans {
          HeldMembers(s, p);
          HeldIsOwned(s, s.active.value, p);
        } else {
          assert Orphan(s, p);
        }
      }
    }
  }

  lemma HeldIsOwned(s: State, owner: Owner, p: nat)
    requires Traced(s) && OwnedBy(s, owner) && SomeoneHolds(s, p)
    ensures SpawnedFor(s, p, owner)
  {
    if w :| w in s.watchdogs && s.watchdogs[w].phase.Holds() == Some(p) {
      assert SpawnedAs(s, p, s.watchdogs[w].owner, s.watchdogs[w].config);
    }
  }

  lemma BootKeepsOrphansOwned(s: State, a: Action, s': State)
    requires OrphansOwned(s) && a.Boot? && Next(s, a) == Some(s')
    requires !s.up ==> s.request.NoRequest?
    ensures OrphansOwned(s')
  {
    Reconcile.ReconcilingIsSafe(map p | p in s.world.alive :: p, RecordFile(s.world), a.luck);
    forall p | p in s'.orphans && Orphan(s', p)
      ensures Orphan(s, p)
    {}
  }

  lemma {:induction false} OrphansStayOwned(r: Run, i: nat)
    requires IsRun(r) && i < |r.states|
    requires forall k | 0 <= k < i :: SafeStep(r.states[k], r.actions[k])
    ensures OrphansOwned(r.states[i])
  {
    hide Inv, Next, SafeStep, OrphansRecorded;
    if i > 0 {
      OrphansStayOwned(r, i - 1);
      OrphansStayRecorded(r, i - 1);
      NextOnPath(r, i - 1);
      StepKeepsOrphansOwned(r.states[i - 1], r.actions[i - 1], r.states[i - 1 + 1]);
    }
  }

  /** Owner isolation: while an owner is active and every step so far was safe, no core of another owner is alive. */
  lemma OnlyTheActiveOwnersCore(r: Run, i: nat, p: nat)
    requires IsRun(r) && i < |r.states| && Loose(r.states[i], p) && r.states[i].active.Some?
    requires forall k | 0 <= k < i :: SafeStep(r.states[k], r.actions[k])
    ensures p in r.states[i].world.spawned && r.states[i].world.spawned[p].owner == r.states[i].active.value
  {
    hide Next, SafeStep;
    if Tracked(r.states[i], p) {
      TrackedCoreIsTheActiveOwners(r, i, p);
    } else {
      OrphansStayOwned(r, i);
      assert Orphan(r.states[i], p);
    }
  }

  /** After a successful reconciliation, if every step was safe, the generation is rebuilt with no core alive at all. */
  lemma MaterializingIsSafe(r: Run, i: nat, p: nat)
    requires IsRun(r) && i < |r.states| && Emptied(r.states[i].request) && r.states[i].reconciled
    requires forall k | 0 <= k < i :: SafeStep(r.states[k], r.actions[k])
    ensures !Loose(r.states[i], p)
  {
    hide Next, SafeStep;
    MaterializingFindsOnlyOrphans(r, i, p);
    OrphansStayRecorded(r, i);
  }

  /* ---------- why the steps have to be safe ---------- */

  // What a stop does to a service that holds nothing: it removes the runtime record.
  lemma StopOnNothing(r: Run, next: Continuation) returns (r': Run)
    requires IsPath(r) && !next.ThenStart?
    requires End(r).operation == Stop(Signalling, next) && End(r).watchdogs == map[]
    requires End(r).world.fields == NEW_MANAGER
    ensures IsPath(r') && r'.states[0] == r.states[0]
    ensures End(r') == Return(End(r).(world := End(r).world.(record := None)), next, true)
  {
    hide TakeoverStepped, IsPath, Resumed;
    var b := End(r);
    r' := Then(r, ManagerMoves(Proceed), b.(operation := Stop(TakingHandle, next)));
    r' := Then(r', ManagerMoves(Proceed), b.(operation := Stop(TakingFailed(true), next)));
    r' := Then(r', ManagerMoves(Proceed), b.(operation := Stop(ClearingPid, next)));
    r' := Then(r', ManagerMoves(Proceed), b.(operation := Stop(ClearingConfig, next)));
    r' := Then(r', ManagerMoves(Proceed), b.(operation := Stop(RemovingRecord, next)));
    r' := Then(r', ManagerMoves(RemoveRecord(true)), Return(b.(world := b.world.(record := None)), next, true));
  }

  // A service that believes nothing is running lets anyone take over, and spawns a core.
  lemma TakeoverSpawns(r: Run, owner: Owner, config: Config, q: nat) returns (r': Run)
    requires IsPath(r) && End(r).world.Fresh(q)
    requires var b := End(r);
             && b.up && b.reconciled && b.operation.Idle? && b.request.NoRequest?
             && b.watchdogs == map[] && b.world.fields == NEW_MANAGER
    ensures IsPath(r') && r'.states[0] == r.states[0]
    ensures var b := End(r);
            End(r') == b.(active := None, request := Takeover(owner, config, InStart),
                          operation := Start(SecuringNew(q), owner, config),
                          world := b.world.(record := None).Spawning(q, owner, config))
  {
    hide StopCoreStep, IsPath;
    var b := End(r);
    r' := Then(r, TakeoverArrives(owner, config), b.(request := Takeover(owner, config, WillStop)));
    r' := Then(r', CallManager,
               b.(request := Takeover(owner, config, InStop), operation := Stop(Signalling, ToRequest)));
    r' := StopOnNothing(r', ToRequest);
    var c := End(r').(active := None);
    r' := Then(r', ClearActive(true), c.(request := Takeover(owner, config, WillMaterialize)));
    r' := Then(r', Materialize, c.(request := Takeover(owner, config, WillStart)));
    var d := c.(request := Takeover(owner, config, InStart));
    r' := Then(r', CallManager, d.(operation := Start(Checking, owner, config)));
    r' := Then(r', ManagerMoves(Proceed), d.(operation := Start(Preparing, owner, config)));
    r' := Then(r', ManagerMoves(SpawnCore(q)),
               d.(operation := Start(SecuringNew(q), owner, config), world := d.world.Spawning(q, owner, config)));
  }

  const LUCKY := Reconcile.Luck(true, true, true, true)

  // A boot that finds no word of a live core in the record takes the service for empty.
  lemma BootMissesUnrecorded(d: State, p: nat, b: State)
    requires Inv(d) && !d.up && Loose(d, p) && d.world.record != Some(p)
    requires Next(d, Boot(LUCKY, None)) == Some(b)
    ensures b.up && b.reconciled && b.operation.Idle? && b.request.NoRequest?
    ensures b.watchdogs == map[] && b.world.fields == NEW_MANAGER
    ensures Loose(b, p) && b.world.spawned == d.world.spawned && b.world.detached == d.world.detached
  {
    hide Custody, Traced, AllAccountedFor, Isolated, Matched, PublishedOnce, RecordKept;
  }

  lemma LostCoreGetsCompany(d: State, p: nat, owner: Owner, config: Config, q: nat) returns (r: Run)
    requires Inv(d) && !d.up && Loose(d, p) && d.world.record != Some(p)
    requires d.world.Fresh(q) && q !in d.world.detached
    ensures IsPath(r) && r.states[0] == d && p != q && Loose(End(r), p) && Loose(End(r), q)
  {
    hide Next, Isolated, Custody, Matched, PublishedOnce, RecordKept, AllAccountedFor, Coupled;
    r := Run([d], []);
    var b := BootAlways(d);
    BootMissesUnrecorded(d, p, b);
    r := Then(r, Boot(LUCKY, None), b);
    r := TakeoverSpawns(r, owner, config, q);
  }

  lemma BootAlways(d: State) returns (b: State)
    requires !d.up
    ensures Next(d, Boot(LUCKY, None)) == Some(b)
  {
    b := Booted(d, LUCKY, None);
  }

  lemma BootIsUnlucky(d: State, p: nat, b: State)
    requires !d.up && !d.reconciled && p in d.world.alive && d.world.record == Some(p) && b == d.(up := true)
    ensures Next(d, Boot(LUCKY.(identified := false), None)) == Some(b)
  {
    var o := Reconciling(d.world, LUCKY.(identified := false));
    assert !o.reconciled && o.record == RecordFile(d.world) && o.processes.Keys == d.world.alive;
  }

  /**
   It takes no rare accident: when reconciliation fails, because the recorded core cannot be inspected, an
   orderly shutdown of the service removes the record of the core that is still alive.
   */
  lemma ShutdownForgetsOrphan(d: State, p: nat) returns (r: Run)
    requires Inv(d) && !d.up && Loose(d, p) && d.world.record == Some(p)
    ensures IsPath(r) && r.states[0] == d && !End(r).up && Loose(End(r), p) && End(r).world.record.None?
  {
    hide Traced, AllAccountedFor, Isolated, Matched, PublishedOnce, RecordKept, Custody;
    var unlucky := Boot(LUCKY.(identified := false), None);
    var b := d.(up := true);
    BootIsUnlucky(d, p, b);
    r := Run([d], []);
    r := Then(r, unlucky, b);
    r := Then(r, ShutdownStops, b.(operation := Stop(Signalling, ToShutdown)));
    r := StopOnNothing(r, ToShutdown);
    r := Then(r, Crash, Crashed(End(r)));
  }

  /**
   The condition is exact: after a step that is not safe, the service can be brought to run two cores at once,
   by a crash, a boot that reconciles successfully and the next takeover.
   */
  lemma UnsafeStepCanMakeTwo(s: State, a: Action, s': State, owner: Owner, config: Config, q: nat)
    returns (p: nat, r: Run)
    requires Inv(s) && Next(s, a) == Some(s') && !SafeStep(s, a)
    requires s.world.Fresh(q) && q !in s.world.detached
    ensures IsPath(r) && r.states[0] == s' && p != q && Loose(End(r), p) && Loose(End(r), q)
  {
    EveryStepKeepsInv(s, a, s');
    if a.Crash? {
      p :| p in s.world.alive && Tracked(s, p) && s.world.record != Some(p);
      r := LostCoreGetsCompany(s', p, owner, config, q);
    } else {
      p :| p in s.orphans && Orphan(s, p);
      RecordRemoved(s, s', p);
      var d := Crashed(s');
      EveryStepKeepsInv(s', Crash, d);
      var rest := LostCoreGetsCompany(d, p, owner, config, q);
      r := Prepended(s', Crash, rest);
    }
  }

  lemma RecordRemoved(s: State, s': State, p: nat)
    requires Inv(s) && ManagerStep(s, RemoveRecord(true)) == Some(s') && Orphan(s, p)
    ensures s'.up && s'.world == s.world.(record := None) && Loose(Crashed(s'), p)
  {
    hide Custody, Traced, AllAccountedFor, Isolated, Matched, PublishedOnce, RecordKept;
  }

  lemma Prepended(s: State, a: Action, rest: Run) returns (r: Run)
    requires IsPath(rest) && Next(s, a) == Some(rest.states[0])
    ensures IsPath(r) && r.states[0] == s && End(r) == End(rest)
  {
    hide Next;
    r := Run([s] + rest.states, [a] + rest.actions);
    forall i | 0 <= i < |r.actions|
      ensures Next(r.states[i], r.actions[i]) == Some(r.states[i + 1])
    {
      if i > 0 { assert Next(rest.states[i - 1], rest.actions[i - 1]) == Some(rest.states[i - 1 + 1]); }
    }
  }

  /* ---------- a takeover that succeeds ---------- */

  // From a spawned core to one that is recorded, published and watched.
  lemma StartFinishes(r: Run, p: nat, owner: Owner, config: Config, w: nat) returns (r': Run)
    requires IsPath(r) && w !in End(r).watchdogs && End(r).world.fields == NEW_MANAGER
    requires End(r).operation == Start(SecuringNew(p), owner, config)
    ensures IsPath(r') && r'.states[0] == r.states[0] && (CrashFree(r) ==> CrashFree(r'))
    ensures var b := End(r);
            End(r') == Return(b.(watchdogs := b.watchdogs[w := Watchdog(owner, config, false, Waiting(p))],
                                 world := b.world.(record := Some(p), published := b.world.published + {p},
                                                   fields := Fields(p, Some(config), None, Some(w), Some(w)))),
                             ToRequest, true)
  {
    hide TakeoverStepped, IsPath, Resumed;
    var b := End(r);
    r' := Then(r, ManagerMoves(Secure(true, false)), b.(operation := Start(RecordingNew(p), owner, config)));
    var x := b.world.(record := Some(p));
    r' := Then(r', ManagerMoves(WriteRecord(true, true, false)),
               b.(world := x, operation := Start(PublishingPid(p), owner, config)));
    x := x.Publishing(p);
    r' := Then(r', ManagerMoves(Proceed), b.(world := x, operation := Start(PublishingConfig(p), owner, config)));
    x := x.(fields := x.fields.(runningConfig := Some(config)));
    r' := Then(r', ManagerMoves(Proceed), b.(world := x, operation := Start(Watching(p), owner, config)));
    x := x.(fields := Fields(p, Some(config), None, Some(w), Some(w)));
    r' := Then(r', ManagerMoves(Watch(w)),
               Return(b.(watchdogs := b.watchdogs[w := Watchdog(owner, config, false, Waiting(p))], world := x),
                      ToRequest, true));
  }

  /** Nothing above is empty: any owner can take over an idle service and end up with a supervised core. */
  lemma TakeoverCanSucceed(owner: Owner, config: Config, p: nat, w: nat) returns (r: Run)
    requires p != 0
    ensures IsRun(r) && End(r).active == Some(owner) && End(r).request.NoRequest? && End(r).operation.Idle?
    ensures Tracked(End(r), p) && HeldByWatchdog(End(r), p)
    ensures RunningCoreConfig(End(r).world.fields) == Some((p, config))
    ensures End(r).up && End(r).world.record == Some(p) && End(r).world.detached == {}
    ensures SpawnedAs(End(r), p, owner, config)
  {
    hide IsPath, Next, TakeoverStepped;
    r := FirstBoot();
    r := TakeoverSpawns(r, owner, config, p);
    r := StartFinishes(r, p, owner, config, w);
    var s := End(r).(active := Some(owner), request := NoRequest);
    CommitSucceeds(End(r), owner, config, s);
    r := Then(r, CommitOwner(true, true), s);
    assert s.watchdogs[w].phase.Holds() == Some(p) && Joinable(s, w);
  }

  lemma FirstBoot() returns (r: Run)
    ensures IsPath(r) && r.states[0] == FIRST_STATE && End(r) == FIRST_STATE.(up := true, reconciled := true)
  {
    r := Run([FIRST_STATE], []);
    assert Reconciling(FIRST_STATE.world, LUCKY).processes.Keys == {};
    r := Then(r, Boot(LUCKY, None), FIRST_STATE.(up := true, reconciled := true));
  }

  lemma CommitSucceeds(s: State, owner: Owner, config: Config, s': State)
    requires s.up && s.request == Takeover(owner, config, WillCommit)
    requires s' == s.(active := Some(owner), request := NoRequest)
    ensures Next(s, CommitOwner(true, true)) == Some(s')
  {}

  /* ---------- runs in which it goes wrong ---------- */

  /**
   A stop that never returns: a core that can be neither secured nor killed is kept, and the stop with which the
   rejected takeover cleans up after itself tries again.
   */
  lemma RejectedStartCanBlock(owner: Owner, config: Config, p: nat) returns (r: Run)
    requires p != 0
    ensures IsRun(r) && End(r).up && End(r).request == Takeover(owner, config, InAbort)
    ensures Blocked(End(r), p) && Tracked(End(r), p)
  {
    hide IsPath, TakeoverStepped, StopCoreStep, StartCoreStep;
    r := FirstBoot();
    r := TakeoverSpawns(r, owner, config, p);
    var s := End(r);
    r := KeepsUnsecured(r, owner, config, p);
    s := End(r);
    CleanupBegins(s, owner, config);
    var c := s.(request := Takeover(owner, config, InAbort));
    r := Then(r, CallManager, c.(operation := Stop(Signalling, ToRequest)));
    r := RetryBlocks(r, ToRequest, p);
  }

  lemma CleanupBegins(s: State, owner: Owner, config: Config)
    requires s.up && s.operation.Idle? && s.request == Takeover(owner, config, WillAbort)
    ensures Next(s, CallManager) ==
              Some(s.(request := Takeover(owner, config, InAbort), operation := Stop(Signalling, ToRequest)))
  {}

  // A new core that cannot be secured, nor killed.
  lemma KeepsUnsecured(r: Run, owner: Owner, config: Config, p: nat) returns (r': Run)
    requires IsPath(r) && End(r).operation == Start(SecuringNew(p), owner, config)
    requires End(r).world.fields == NEW_MANAGER && End(r).request == Takeover(owner, config, InStart)
    ensures IsPath(r') && r'.states[0] == r.states[0]
    ensures var b := End(r);
            End(r') == b.(operation := Idle, request := Takeover(owner, config, WillAbort),
                          world := b.world.(record := Some(p), published := b.world.published + {p},
                                            fields := Fields(p, Some(config), Some(p), None, None)))
  {
    hide IsPath, TakeoverStepped;
    var b := End(r);
    r' := Then(r, ManagerMoves(Secure(false, false)), b.(operation := Start(KeepingPid(p, true), owner, config)));
    var x := b.world.Publishing(p);
    r' := Then(r', ManagerMoves(Proceed), b.(world := x, operation := Start(KeepingConfig(p, true), owner, config)));
    x := x.(fields := x.fields.(runningConfig := Some(config)));
    r' := Then(r', ManagerMoves(Proceed), b.(world := x, operation := Start(KeepingRecord(p), owner, config)));
    x := x.(record := Some(p));
    r' := Then(r', ManagerMoves(KeepRecord(true)), b.(world := x, operation := Start(KeepingChild(p), owner, config)));
    x := x.(fields := Fields(p, Some(config), Some(p), None, None));
    r' := Then(r', ManagerMoves(Proceed),
               b.(world := x, operation := Idle, request := Takeover(owner, config, WillAbort)));
  }

  lemma RetryBlocks(r: Run, next: Continuation, p: nat) returns (r': Run)
    requires IsPath(r) && End(r).operation == Stop(Signalling, next) && !next.ThenStart?
    requires End(r).watchdogs == map[] && End(r).world.fields.watchdogShutdown.None?
    requires End(r).world.fields.watchdogHandle.None? && End(r).world.fields.failedChild == Some(p)
    ensures IsPath(r') && r'.states[0] == r.states[0]
    ensures var b := End(r);
            End(r') == b.(operation := Stop(PuttingBack(p), next),
                          world := b.world.(fields := b.world.fields.(failedChild := None)))
  {
    hide IsPath, TakeoverStepped;
    var b := End(r);
    r' := Then(r, ManagerMoves(Proceed), b.(operation := Stop(TakingHandle, next)));
    r' := Then(r', ManagerMoves(Proceed), b.(operation := Stop(TakingFailed(true), next)));
    var c := b.(world := b.world.(fields := b.world.fields.(failedChild := None)));
    r' := Then(r', ManagerMoves(Proceed), c.(operation := Stop(Retrying(p), next)));
    r' := Then(r', ManagerMoves(Kill(false)), c.(operation := Stop(PuttingBack(p), next)));
  }

  /**
   A generation rebuilt beside the core of an earlier run. The service crashes, and the reconciliation at the next
   boot cannot identify the recorded core. A takeover is let in all the same: its stop finds nothing and removes the
   record, and it materializes before any start asks whether reconciliation has succeeded.
   */
  lemma MaterializesBesideOldCore(owner: Owner, config: Config, p: nat, w: nat, newOwner: Owner, newConfig: Config)
    returns (r: Run)
    requires p != 0
    ensures IsRun(r) && End(r).request == Takeover(newOwner, newConfig, WillMaterialize)
    ensures Next(End(r), Materialize).Some?
    ensures !End(r).reconciled && Loose(End(r), p) && SpawnedAs(End(r), p, owner, config)
    ensures End(r).world.record.None?
  {
    hide IsPath, TakeoverStepped, StopCoreStep, Inv;
    r := TakeoverCanSucceed(owner, config, p, w);
    var s := End(r);
    r := Then(r, Crash, Crashed(s));
    CrashLeavesOrphan(s, p);
    var b := Crashed(s).(up := true);
    BootIsUnlucky(Crashed(s), p, b);
    r := Then(r, Boot(LUCKY.(identified := false), None), b);
    r := Then(r, TakeoverArrives(newOwner, newConfig), b.(request := Takeover(newOwner, newConfig, WillStop)));
    var c := b.(request := Takeover(newOwner, newConfig, InStop), operation := Stop(Signalling, ToRequest));
    TakeoverStops(End(r), newOwner, newConfig, c);
    r := Then(r, CallManager, c);
    r := StopOnNothing(r, ToRequest);
    var d := End(r).(active := None, request := Takeover(newOwner, newConfig, WillMaterialize));
    TakeoverClears(End(r), newOwner, newConfig, d);
    r := Then(r, ClearActive(true), d);
    MaterializeIsNext(d, newOwner, newConfig);
  }

  lemma CrashLeavesOrphan(s: State, p: nat)
    requires Tracked(s, p) && HeldByWatchdog(s, p)
    ensures p in Crashed(s).orphans && Loose(Crashed(s), p)
  {
    HeldMembers(s, p);
  }

  lemma TakeoverStops(s: State, owner: Owner, config: Config, s': State)
    requires s.up && s.operation.Idle? && s.request == Takeover(owner, config, WillStop)
    requires s' == s.(request := Takeover(owner, config, InStop), operation := Stop(Signalling, ToRequest))
    ensures Next(s, CallManager) == Some(s')
  {}

  lemma TakeoverClears(s: State, owner: Owner, config: Config, s': State)
    requires s.up && s.request == Takeover(owner, config, WillClear)
    requires s' == s.(active := None, request := Takeover(owner, config, WillMaterialize))
    ensures Next(s, ClearActive(true)) == Some(s')
  {}

  lemma MaterializeIsNext(s: State, owner: Owner, config: Config)
    requires s.up && s.request == Takeover(owner, config, WillMaterialize)
    ensures Next(s, Materialize).Some?
  {}
}
