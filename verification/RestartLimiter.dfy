/**
 The sliding-window restart limiter and the two loops that use it: the core watchdog, which respawns a core
 that exits, and the IPC supervisor, which rebuilds its listener. Times and durations are milliseconds.
 */
module RestartLimiter {
  import opened Wrappers
  import opened StagePlan

  datatype Limits = Limits(maxRestarts: nat, window: nat, maxBackoff: nat)

  const WATCHDOG_LIMITS := Limits(10, 600_000, 30_000)
  const IPC_LIMITS := Limits(10, 10_000, 500)

  /* ---------- backoff ---------- */

  function Min(a: nat, b: nat): nat {
    if a <= b then a else b
  }

  function Pow2(n: nat): nat {
    if n == 0 then 1 else 2 * Pow2(n - 1)
  }

  /** `backoff_delay`. */
  function BackoffDelay(attempt: nat, max: nat): nat {
    if attempt == 0 then 0 else Min(1000 * Pow2(Min(attempt - 1, 5)), max)
  }

  /** `ipc_backoff_delay`. */
  function IpcBackoffDelay(attempt: nat): nat {
    if attempt == 0 then 0 else Min(100 * Pow2(Min(attempt - 1, 3)), IPC_LIMITS.maxBackoff)
  }

  lemma {:induction false} Pow2Grows(a: nat, b: nat)
    requires a <= b
    ensures Pow2(a) <= Pow2(b)
  {
    if a < b { Pow2Grows(a, b - 1); }
  }

  // Later attempts never wait less, and nobody waits longer than the maximum.
  lemma BackoffGrows(a: nat, b: nat, max: nat)
    requires a <= b
    ensures BackoffDelay(a, max) <= BackoffDelay(b, max) <= max
    ensures IpcBackoffDelay(a) <= IpcBackoffDelay(b) <= IPC_LIMITS.maxBackoff
  {
    if a > 0 {
      Pow2Grows(Min(a - 1, 5), Min(b - 1, 5));
      Pow2Grows(Min(a - 1, 3), Min(b - 1, 3));
    }
  }

  /**
   The first attempt is made at once, the second after the base delay, and from there the delay doubles, to the
   maximum or for as many attempts as the exponent allows.
   */
  lemma BackoffDoubles(attempt: nat, max: nat)
    ensures BackoffDelay(0, max) == 0 && BackoffDelay(1, max) == Min(1000, max)
    ensures BackoffDelay(attempt + 1, max) ==
            if attempt == 0 then Min(1000, max)
            else if attempt < 6 then Min(2 * BackoffDelay(attempt, max), max) else BackoffDelay(attempt, max)
    ensures IpcBackoffDelay(0) == 0
    ensures IpcBackoffDelay(attempt + 1) ==
            if attempt == 0 then 100 else if attempt < 4 then Min(2 * IpcBackoffDelay(attempt), 500) else 500
  {
    if attempt > 0 {
      assert attempt < 6 ==> Pow2(attempt) == 2 * Pow2(attempt - 1);
    }
    FirstPowers();
  }

  lemma FirstPowers()
    ensures Pow2(0) == 1 && Pow2(1) == 2 && Pow2(2) == 4 && Pow2(3) == 8 && Pow2(4) == 16 && Pow2(5) == 32
  {
    assert Pow2(1) == 2 && Pow2(2) == 4 && Pow2(3) == 8;
  }

  lemma ShippedDelays()
    ensures var max := WATCHDOG_LIMITS.maxBackoff;
            [BackoffDelay(0, max), BackoffDelay(1, max), BackoffDelay(2, max), BackoffDelay(3, max),
             BackoffDelay(4, max), BackoffDelay(5, max), BackoffDelay(6, max)] ==
            [0, 1000, 2000, 4000, 8000, 16000, 30000]
  {
    FirstPowers();
  }

  /* ---------- the window ---------- */

  predicate Ascending(stamps: seq<nat>) {
    forall i, j | 0 <= i <= j < |stamps| :: stamps[i] <= stamps[j]
  }

  /** The stamps less than a window old at `now`. */
  function Recent(stamps: seq<nat>, now: nat, window: nat): seq<nat> {
    if stamps == [] then []
    else Recent(Front(stamps), now, window) + (if now - Last(stamps) < window then [Last(stamps)] else [])
  }

  // Forgetting early forgets nothing that would have been kept.
  lemma {:induction false} RetainingAgain(stamps: seq<nat>, earlier: nat, now: nat, window: nat)
    requires earlier <= now
    ensures Recent(Recent(stamps, earlier, window), now, window) == Recent(stamps, now, window)
  {
    if stamps != [] {
      var kept := Recent(Front(stamps), earlier, window);
      RetainingAgain(Front(stamps), earlier, now, window);
      if earlier - Last(stamps) < window {
        assert Front(kept + [Last(stamps)]) == kept && Last(kept + [Last(stamps)]) == Last(stamps);
      } else {
        assert kept + [] == kept;
      }
    }
  }

  // Stamps pushed in order are forgotten in order: exactly a suffix is left.
  lemma {:induction false} RecentIsSuffix(stamps: seq<nat>, now: nat, window: nat) returns (k: nat)
    requires Ascending(stamps)
    ensures k <= |stamps| && Recent(stamps, now, window) == stamps[k..]
    ensures forall i | 0 <= i < |stamps| :: now - stamps[i] < window <==> k <= i
  {
    if stamps == [] {
      k := 0;
    } else {
      k := RecentIsSuffix(Front(stamps), now, window);
      if now - Last(stamps) < window {
        assert stamps[k..] == Front(stamps)[k..] + [Last(stamps)];
      } else {
        assert forall i | 0 <= i < |stamps| - 1 :: stamps[i] <= Last(stamps);
        k := |stamps|;
      }
    }
  }

  /* ---------- the limiter ---------- */

  class Limiter {
    const limits: Limits
    var restartTimestamps: seq<nat>
    var consecutiveAttempt: nat
    // Every stamp ever pushed.
    ghost var pushed: seq<nat>

    constructor (limits: Limits)
      ensures Valid() && this.limits == limits && pushed == [] && consecutiveAttempt == 0
    {
      this.limits, restartTimestamps, consecutiveAttempt, pushed := limits, [], 0, [];
    }

    /** The list holds exactly the stamps pushed less than a window before the last one. */
    ghost predicate Valid()
      reads this
    {
      && Ascending(pushed)
      && restartTimestamps == if pushed == [] then [] else Recent(pushed, Last(pushed), limits.window)
    }

    method RetainAndPush(now: nat) returns (wasEmpty: bool)
      requires Valid() && limits.window > 0 && (pushed != [] ==> Last(pushed) <= now)
      modifies this`restartTimestamps, this`pushed
      ensures Valid() && pushed == old(pushed) + [now]
      ensures wasEmpty <==> (old(pushed) == [] || now - Last(old(pushed)) >= limits.window)
    {
      restartTimestamps := Recent(restartTimestamps, now, limits.window);
      wasEmpty := restartTimestamps == [];
      if pushed != [] {
        RetainingAgain(pushed, Last(pushed), now, limits.window);
        var k := RecentIsSuffix(pushed, now, limits.window);
      }
      restartTimestamps := restartTimestamps + [now];
      pushed := pushed + [now];
      assert Front(pushed) == old(pushed) && Last(pushed) == now;
    }

    /** What both loops do when what they watch has ended. */
    method NoteExit(now: nat)
      requires Valid() && limits.window > 0 && (pushed != [] ==> Last(pushed) <= now)
      modifies this
      ensures Valid() && pushed == old(pushed) + [now]
      ensures consecutiveAttempt ==
              if old(pushed) == [] || now - Last(old(pushed)) >= limits.window then 0 else old(consecutiveAttempt)
    {
      var wasEmpty := RetainAndPush(now);
      if wasEmpty {
        consecutiveAttempt := 0;
      }
    }

    /** What the watchdog does when a restart has failed. */
    method NoteFailedRestart(now: nat)
      requires Valid() && limits.window > 0 && (pushed != [] ==> Last(pushed) <= now)
      modifies this
      ensures Valid() && pushed == old(pushed) + [now] && consecutiveAttempt == old(consecutiveAttempt) + 1
    {
      consecutiveAttempt := consecutiveAttempt + 1;
      var _ := RetainAndPush(now);
    }

    predicate Exhausted()
      reads this
    {
      |restartTimestamps| > limits.maxRestarts
    }
  }

  /* ---------- the core watchdog ---------- */

  // How watching a running core ends.
  datatype Life = Exits(lasted: nat) | WaitFails | IsToldToStop

  // What comes of an attempt to restart the core.
  datatype Fate =
    | Fails(lasted: nat)          // after some time, and with nothing left behind
    | Runs(life: Life)
    | Unrecorded(killed: bool)    // it came up but could not be recorded
    | Unkillable                  // it could be neither secured nor killed

  // One restart, as the environment decides it: how much longer than its backoff it waits, whether shutdown comes
  // first, and what comes of it.
  datatype Turn = Turn(pause: nat, told: bool, fate: Fate)

  datatype WatchEnd = TooOften | ToldToStop | WaitFailed | NotRecorded(killed: bool) | NotKilled

  // Attempt `k` is over at `exits[k]`: it had failed, or what it started had exited in turn; only the last may end the
  // loop in another way. `attempts[0]` is the start before the loop. An attempt is only made when the limiter lets it.
  predicate Paced(attempts: seq<nat>, exits: seq<nat>, limits: Limits) {
    && attempts != [] && |exits| <= |attempts| <= |exits| + 1
    && (exits != [] ==> attempts[0] <= exits[0])
    && forall k | 0 <= k < |attempts| - 1 :: Spaced(attempts, exits, k, limits)
  }

  predicate Spaced(attempts: seq<nat>, exits: seq<nat>, k: nat, limits: Limits)
    requires k + 1 < |attempts| <= |exits| + 1
  {
    && Passed(exits, k, limits) && exits[k] <= attempts[k + 1]
    && (k + 1 < |exits| ==> attempts[k + 1] <= exits[k + 1])
  }

  // The check after stamp `k` was pushed.
  predicate Passed(exits: seq<nat>, k: nat, limits: Limits)
    requires k < |exits|
  {
    |Recent(exits[..k + 1], exits[k], limits.window)| <= limits.maxRestarts
  }

  // One watchdog's history; `numbers[k]` is the value of `consecutive_attempt` that the backoff of attempt
  // `k + 1` is computed from.
  datatype Lineage = Lineage(attempts: seq<nat>, exits: seq<nat>, numbers: seq<nat>)

  predicate Shaped(l: Lineage, turns: nat) {
    0 < |l.attempts| <= turns + 1 && |l.exits| <= |l.attempts| <= |l.exits| + 1 && |l.numbers| == |l.exits|
  }

  // Attempt `k + 1`, once attempt `k` is over.
  predicate Tried(l: Lineage, k: nat, limits: Limits, turn: Turn)
    requires k + 1 < |l.attempts| && k < |l.exits| == |l.numbers|
  {
    && Passed(l.exits, k, limits)
    && (turn.told ==> BackoffDelay(l.numbers[k], limits.maxBackoff) == 0)
    && l.attempts[k + 1] == l.exits[k] + BackoffDelay(l.numbers[k], limits.maxBackoff) + turn.pause
  }

  // How attempt `k + 1` is over and the loop goes on.
  predicate Ended(l: Lineage, k: nat, limits: Limits, fate: Fate)
    requires k + 1 < |l.exits| == |l.numbers| <= |l.attempts|
  {
    match fate
    case Fails(lasted) => l.exits[k + 1] == l.attempts[k + 1] + lasted && l.numbers[k + 1] == l.numbers[k] + 1
    case Runs(Exits(lasted)) =>
      && l.exits[k + 1] == l.attempts[k + 1] + lasted
      && l.numbers[k + 1] == if l.exits[k + 1] - l.exits[k] >= limits.window then 0 else l.numbers[k] + 1
    case _ => false
  }

  predicate Follows(l: Lineage, limits: Limits, first: Life, turns: seq<Turn>) {
    && Shaped(l, |turns|)
    && (l.exits != [] ==> first.Exits? && l.exits[0] == l.attempts[0] + first.lasted && l.numbers[0] == 0)
    && (forall k | 0 <= k < |l.attempts| - 1 :: Tried(l, k, limits, turns[k]))
    && (forall k | 0 <= k < |l.exits| - 1 :: Ended(l, k, limits, turns[k].fate))
  }

  lemma FollowsIsPaced(l: Lineage, limits: Limits, first: Life, turns: seq<Turn>)
    requires Follows(l, limits, first, turns)
    ensures Paced(l.attempts, l.exits, limits)
  {
    hide BackoffDelay, Passed;
    forall k | 0 <= k < |l.attempts| - 1
      ensures Spaced(l.attempts, l.exits, k, limits)
    {
      assert Tried(l, k, limits, turns[k]);
      if k < |l.exits| - 1 { assert Ended(l, k, limits, turns[k].fate); }
    }
  }

  lemma TriedAgain(l: Lineage, attempt: nat, limits: Limits, first: Life, turns: seq<Turn>)
    requires Follows(l, limits, first, turns) && |l.attempts| == |l.exits| <= |turns|
    requires Tried(l.(attempts := l.attempts + [attempt]), |l.exits| - 1, limits, turns[|l.exits| - 1])
    ensures Follows(l.(attempts := l.attempts + [attempt]), limits, first, turns)
  {
    hide BackoffDelay, Recent;
    var l' := l.(attempts := l.attempts + [attempt]);
    forall k | 0 <= k < |l'.attempts| - 1
      ensures Tried(l', k, limits, turns[k])
    {
      if k < |l.attempts| - 1 { assert Tried(l, k, limits, turns[k]); }
    }
    forall k | 0 <= k < |l'.exits| - 1
      ensures Ended(l', k, limits, turns[k].fate)
    {
      assert Ended(l, k, limits, turns[k].fate);
    }
  }

  lemma EndedAgain(l: Lineage, exit: nat, number: nat, limits: Limits, first: Life, turns: seq<Turn>)
    requires Follows(l, limits, first, turns) && |l.attempts| == |l.exits| + 1
    requires var l' := Lineage(l.attempts, l.exits + [exit], l.numbers + [number]);
             if l.exits == [] then first.Exits? && exit == l.attempts[0] + first.lasted && number == 0
             else Ended(l', |l.exits| - 1, limits, turns[|l.exits| - 1].fate)
    ensures Follows(Lineage(l.attempts, l.exits + [exit], l.numbers + [number]), limits, first, turns)
  {
    hide BackoffDelay, Recent;
    var l' := Lineage(l.attempts, l.exits + [exit], l.numbers + [number]);
    forall k | 0 <= k < |l'.attempts| - 1
      ensures Tried(l', k, limits, turns[k])
    {
      assert Tried(l, k, limits, turns[k]) && l'.exits[..k + 1] == l.exits[..k + 1];
    }
    forall k | 0 <= k < |l'.exits| - 1
      ensures Ended(l', k, limits, turns[k].fate)
    {
      if k < |l.exits| - 1 { assert Ended(l, k, limits, turns[k].fate); }
    }
  }

  lemma StampsInOrder(l: Lineage, limits: Limits, first: Life, turns: seq<Turn>)
    requires Follows(l, limits, first, turns) && |l.attempts| == |l.exits| + 1
    ensures l.exits != [] ==> Last(l.exits) <= Last(l.attempts)
  {
    hide BackoffDelay, Passed;
    if l.exits != [] { assert Tried(l, |l.exits| - 1, limits, turns[|l.exits| - 1]); }
  }

  // A core that ran has exited.
  lemma AfterExit(l: Lineage, exit: nat, number: nat, life: Life, limits: Limits, first: Life, turns: seq<Turn>)
    requires Follows(l, limits, first, turns) && |l.attempts| == |l.exits| + 1
    requires life.Exits? && exit == Last(l.attempts) + life.lasted
    requires if l.exits == [] then life == first && number == 0
             else && turns[|l.exits| - 1].fate == Runs(life)
                  && number == if exit - Last(l.exits) >= limits.window then 0 else Last(l.numbers) + 1
    ensures Follows(Lineage(l.attempts, l.exits + [exit], l.numbers + [number]), limits, first, turns)
  {
    hide BackoffDelay, Passed, Tried;
    EndedAgain(l, exit, number, limits, first, turns);
  }

  lemma AfterFailure(l: Lineage, exit: nat, limits: Limits, first: Life, turns: seq<Turn>)
    requires Follows(l, limits, first, turns) && |l.attempts| == |l.exits| + 1 && l.exits != []
    requires turns[|l.exits| - 1].fate.Fails? && exit == Last(l.attempts) + turns[|l.exits| - 1].fate.lasted
    ensures Follows(Lineage(l.attempts, l.exits + [exit], l.numbers + [Last(l.numbers) + 1]), limits, first, turns)
  {
    hide BackoffDelay, Passed, Tried;
    EndedAgain(l, exit, Last(l.numbers) + 1, limits, first, turns);
  }

  lemma AfterBackoff(l: Lineage, limits: Limits, first: Life, turns: seq<Turn>)
    requires Follows(l, limits, first, turns) && 0 < |l.attempts| == |l.exits| <= |turns|
    requires Passed(l.exits, |l.exits| - 1, limits)
    requires turns[|l.exits| - 1].told ==> BackoffDelay(Last(l.numbers), limits.maxBackoff) == 0
    ensures var attempt :=
              Last(l.exits) + BackoffDelay(Last(l.numbers), limits.maxBackoff) + turns[|l.exits| - 1].pause;
            Follows(l.(attempts := l.attempts + [attempt]), limits, first, turns)
  {
    hide BackoffDelay, Passed, Ended;
    TriedAgain(l, Last(l.exits) + BackoffDelay(Last(l.numbers), limits.maxBackoff) + turns[|l.exits| - 1].pause,
               limits, first, turns);
  }

  // The last attempt brought up a core that was watched to the end of `life`; `first` is that of the first core.
  predicate LastRan(l: Lineage, life: Life, first: Life, turns: seq<Turn>)
    requires Shaped(l, |turns|)
  {
    && |l.attempts| == |l.exits| + 1
    && if l.exits == [] then first == life else turns[|l.exits| - 1].fate == Runs(life)
  }

  // The last attempt came to `fate`.
  predicate LastCameTo(l: Lineage, fate: Fate, turns: seq<Turn>)
    requires Shaped(l, |turns|)
  {
    |l.attempts| == |l.exits| + 1 && l.exits != [] && turns[|l.exits| - 1].fate == fate
  }

  // Every attempt is over, and the check after the last one has come out as `passed`.
  predicate Checked(l: Lineage, limits: Limits, passed: bool) {
    |l.attempts| == |l.exits| > 0 && (Passed(l.exits, |l.exits| - 1, limits) <==> passed)
  }

  // Why the loop may end as it does. Only a backoff that takes time listens for shutdown; `turns` used up stands for
  // a shutdown that comes after all of them.
  predicate EndsFor(end: WatchEnd, l: Lineage, limits: Limits, first: Life, turns: seq<Turn>)
    requires Shaped(l, |turns|)
  {
    match end
    case TooOften => Checked(l, limits, false)
    case WaitFailed => LastRan(l, WaitFails, first, turns)
    case NotRecorded(killed) => LastCameTo(l, Unrecorded(killed), turns)
    case NotKilled => LastCameTo(l, Unkillable, turns)
    case ToldToStop =>
      || LastRan(l, IsToldToStop, first, turns)
      || (Checked(l, limits, true) &&
          (|l.exits| == |turns| + 1 ||
           (turns[|l.exits| - 1].told && BackoffDelay(Last(l.numbers), limits.maxBackoff) > 0)))
  }

  /**
   No exit and no failure within the limit stays unanswered: if the last attempt is still open, it did not end in a way
   the loop goes on from.
   */
  lemma NothingUnanswered(end: WatchEnd, l: Lineage, limits: Limits, first: Life, turns: seq<Turn>)
    requires Shaped(l, |turns|) && EndsFor(end, l, limits, first, turns)
    ensures |l.attempts| == |l.exits| + 1 && l.exits == [] ==> !first.Exits?
    ensures |l.attempts| == |l.exits| + 1 && l.exits != [] ==>
              !turns[|l.exits| - 1].fate.Fails? &&
              (turns[|l.exits| - 1].fate.Runs? ==> !turns[|l.exits| - 1].fate.life.Exits?)
    ensures |l.attempts| == |l.exits| && Passed(l.exits, |l.exits| - 1, limits) ==>
              |l.exits| == |turns| + 1 ||
              (turns[|l.exits| - 1].told && BackoffDelay(Last(l.numbers), limits.maxBackoff) > 0)
  {}

  // Two histories of the same turns agree as far as both go.
  lemma {:induction false} SameSoFar(l: Lineage, l': Lineage, limits: Limits, first: Life, turns: seq<Turn>, k: nat)
    requires Follows(l, limits, first, turns) && Follows(l', limits, first, turns) && l.attempts[0] == l'.attempts[0]
    requires k < |l.attempts| && k < |l'.attempts|
    ensures l.attempts[k] == l'.attempts[k]
    ensures k < |l.exits| && k < |l'.exits| ==> l.exits[k] == l'.exits[k] && l.numbers[k] == l'.numbers[k]
  {
    hide BackoffDelay, Passed;
    if k > 0 {
      SameSoFar(l, l', limits, first, turns, k - 1);
      assert Tried(l, k - 1, limits, turns[k - 1]) && Tried(l', k - 1, limits, turns[k - 1]);
      if k < |l.exits| && k < |l'.exits| {
        assert Ended(l, k - 1, limits, turns[k - 1].fate) && Ended(l', k - 1, limits, turns[k - 1].fate);
      }
    }
  }

  // A history that has ended for a reason goes no further than any other.
  lemma GoesNoFurther(end: WatchEnd, l: Lineage, l': Lineage, limits: Limits, first: Life, turns: seq<Turn>)
    requires Follows(l, limits, first, turns) && Follows(l', limits, first, turns) && l.attempts[0] == l'.attempts[0]
    requires EndsFor(end, l, limits, first, turns)
    ensures |l'.attempts| <= |l.attempts| && |l'.exits| <= |l.exits|
  {
    hide BackoffDelay, Recent;
    var n := |l.exits|;
    forall k | 0 <= k < n && k < |l'.exits|
      ensures l.exits[k] == l'.exits[k] && l.numbers[k] == l'.numbers[k]
    {
      SameSoFar(l, l', limits, first, turns, k);
    }
    assert n <= |l'.exits| ==> l.exits[..n] == l'.exits[..n];
    assert 0 < n < |l'.attempts| ==> Tried(l', n - 1, limits, turns[n - 1]);
  }

  /** So what a watchdog does, and how it ends, is determined by what the environment does: there is one answer. */
  lemma OneAnswer(end: WatchEnd, l: Lineage, end': WatchEnd, l': Lineage, limits: Limits, first: Life, turns: seq<Turn>)
    requires Follows(l, limits, first, turns) && Follows(l', limits, first, turns) && l.attempts[0] == l'.attempts[0]
    requires EndsFor(end, l, limits, first, turns) && EndsFor(end', l', limits, first, turns)
    ensures l == l' && end == end'
  {
    hide BackoffDelay, Recent, Tried, Ended;
    GoesNoFurther(end, l, l', limits, first, turns);
    GoesNoFurther(end', l', l, limits, first, turns);
    forall k | 0 <= k < |l.attempts|
      ensures l.attempts[k] == l'.attempts[k]
      ensures k < |l.exits| ==> l.exits[k] == l'.exits[k] && l.numbers[k] == l'.numbers[k]
    {
      SameSoFar(l, l', limits, first, turns, k);
    }
    assert l.attempts == l'.attempts && l.exits == l'.exits && l.numbers == l'.numbers;
  }

  // The inner loop: until a core runs again, or the watchdog ends.
  method Recover(limiter: Limiter, l0: Lineage, first: Life, turns: seq<Turn>)
    returns (end: Option<WatchEnd>, life: Life, l: Lineage)
    requires limiter.Valid() && limiter.limits.window > 0 && limiter.pushed == l0.exits
    requires Follows(l0, limiter.limits, first, turns) && |l0.attempts| == |l0.exits|
    requires limiter.consecutiveAttempt == Last(l0.numbers)
    modifies limiter
    ensures limiter.Valid() && limiter.pushed == l.exits
    ensures Follows(l, limiter.limits, first, turns) && |l0.attempts| <= |l.attempts| && l.attempts[0] == l0.attempts[0]
    ensures end.Some? ==> EndsFor(end.value, l, limiter.limits, first, turns)
    ensures end.None? ==>
              && |l0.attempts| < |l.attempts| == |l.exits| + 1 && turns[|l.exits| - 1].fate == Runs(life)
              && limiter.consecutiveAttempt == Last(l.numbers) + 1
  {
    hide Recent, BackoffDelay, Spaced, Ascending, Pow2, Tried, Ended;
    var limits := limiter.limits;
    life, l := first, l0;
    var i := |l.exits| - 1;
    while true
      invariant limiter.Valid() && limiter.pushed == l.exits && i <= |turns| && Follows(l, limits, first, turns)
      invariant |l.attempts| == |l.exits| == i + 1 >= |l0.attempts| && l.attempts[0] == l0.attempts[0]
      invariant limiter.consecutiveAttempt == Last(l.numbers)
      decreases |turns| - i
    {
      assert l.exits[..|l.exits|] == l.exits;
      if limiter.Exhausted() {
        return Some(TooOften), life, l;
      }
      if i == |turns| {
        return Some(ToldToStop), life, l;
      }
      var delay := BackoffDelay(limiter.consecutiveAttempt, limits.maxBackoff);
      if delay != 0 && turns[i].told {
        return Some(ToldToStop), life, l;
      }
      AfterBackoff(l, limits, first, turns);
      l := l.(attempts := l.attempts + [Last(l.exits) + delay + turns[i].pause]);
      match turns[i].fate {
        case Fails(lasted) =>
          var now := Last(l.attempts) + lasted;
          limiter.NoteFailedRestart(now);
          AfterFailure(l, now, limits, first, turns);
          l := Lineage(l.attempts, l.exits + [now], l.numbers + [limiter.consecutiveAttempt]);
        case Runs(next) =>
          limiter.consecutiveAttempt := limiter.consecutiveAttempt + 1;
          return None, next, l;
        case Unrecorded(killed) =>
          return Some(NotRecorded(killed)), life, l;
        case Unkillable =>
          return Some(NotKilled), life, l;
      }
      i := i + 1;
    }
  }

  /**
   The watchdog, from the start of its core at `start` until it gives up, is told to stop (at the latest when `turns` is
   used up), or loses its core for good.
   */
  method Watch(limiter: Limiter, start: nat, first: Life, turns: seq<Turn>) returns (end: WatchEnd, l: Lineage)
    requires limiter.Valid() && limiter.limits.window > 0 && limiter.pushed == [] && limiter.consecutiveAttempt == 0
    modifies limiter
    ensures Follows(l, limiter.limits, first, turns) && l.attempts[0] == start
    ensures limiter.Valid() && limiter.pushed == l.exits
    ensures EndsFor(end, l, limiter.limits, first, turns)
  {
    hide Recent, BackoffDelay, Spaced, Ascending, Pow2, Tried, Ended;
    var life := first;
    l := Lineage([start], [], []);
    while true
      invariant limiter.Valid() && limiter.pushed == l.exits && Follows(l, limiter.limits, first, turns)
      invariant |l.attempts| == |l.exits| + 1 && l.attempts[0] == start
      invariant if l.exits == [] then life == first else turns[|l.exits| - 1].fate == Runs(life)
      invariant limiter.consecutiveAttempt == if l.exits == [] then 0 else Last(l.numbers) + 1
      decreases |turns| - |l.exits|
    {
      if !life.Exits? {
        return if life.WaitFails? then WaitFailed else ToldToStop, l;
      }
      var now := Last(l.attempts) + life.lasted;
      StampsInOrder(l, limiter.limits, first, turns);
      limiter.NoteExit(now);
      AfterExit(l, now, limiter.consecutiveAttempt, life, limiter.limits, first, turns);
      l := Lineage(l.attempts, l.exits + [now], l.numbers + [limiter.consecutiveAttempt]);
      var over, next, l' := Recover(limiter, l, first, turns);
      life, l := next, l';
      if over.Some? {
        return over.value, l;
      }
    }
  }

  /* ---------- the IPC supervisor ---------- */

  // One rebuild of the listener: how late it is, whether it works, and how long the new listener lasts.
  datatype Rebuild = Rebuild(pause: nat, works: bool, lasted: nat)

  datatype IpcEnd = ShutDown | RestartedTooOften | RebuildFailed

  lemma OneMorePaced(attempts: seq<nat>, exits: seq<nat>, attempt: nat, exit: nat, limits: Limits)
    requires Paced(attempts, exits, limits) && |attempts| == |exits| && Passed(exits, |exits| - 1, limits)
    requires Last(exits) <= attempt <= exit
    ensures Paced(attempts + [attempt], exits + [exit], limits)
  {
    hide Recent;
    forall k | 0 <= k < |attempts|
      ensures Spaced(attempts + [attempt], exits + [exit], k, limits)
    {
      assert (exits + [exit])[..k + 1] == exits[..k + 1];
      if k < |attempts| - 1 { assert Spaced(attempts, exits, k, limits); }
    }
  }

  // From listener `k` to listener `k + 1`.
  predicate Rebuilt(l: Lineage, k: nat, rebuild: Rebuild)
    requires k + 1 < |l.attempts| == |l.exits| == |l.numbers|
  {
    && rebuild.works
    && l.attempts[k + 1] == l.exits[k] + IpcBackoffDelay(l.numbers[k]) + rebuild.pause
    && l.exits[k + 1] == l.attempts[k + 1] + rebuild.lasted
    && l.numbers[k + 1] == if l.exits[k + 1] - l.exits[k] >= IPC_LIMITS.window then 0 else l.numbers[k] + 1
  }

  /** The loop of `run_ipc_supervisor_until_shutdown`: the same limiter, checked once for every exit. */
  method SuperviseIpc(limiter: Limiter, start: nat, uptime: nat, rebuilds: seq<Rebuild>)
    returns (end: IpcEnd, l: Lineage)
    requires limiter.Valid() && limiter.limits == IPC_LIMITS && limiter.pushed == [] && limiter.consecutiveAttempt == 0
    modifies limiter
    ensures Paced(l.attempts, l.exits, IPC_LIMITS) && limiter.Valid() && limiter.pushed == l.exits
    ensures |l.numbers| == |l.exits| == |l.attempts| <= |rebuilds| + 1
    ensures l.attempts[0] == start && l.exits[0] == start + uptime && l.numbers[0] == 0
    ensures forall k | 0 <= k < |l.attempts| - 1 :: Rebuilt(l, k, rebuilds[k])
    ensures end.RestartedTooOften? <==> !Passed(l.exits, |l.exits| - 1, IPC_LIMITS)
    ensures end.ShutDown? ==> |l.attempts| == |rebuilds| + 1
    ensures end.RebuildFailed? ==> |l.attempts| <= |rebuilds| && !rebuilds[|l.attempts| - 1].works
  {
    hide Recent, BackoffDelay, IpcBackoffDelay, Spaced, Ascending, Pow2;
    var now, i := start + uptime, 0;
    limiter.NoteExit(now);
    l := Lineage([start], [now], [0]);
    while true
      invariant i <= |rebuilds| && |l.attempts| == |l.exits| == |l.numbers| == i + 1
      invariant limiter.Valid() && limiter.pushed == l.exits && Paced(l.attempts, l.exits, IPC_LIMITS)
      invariant l.attempts[0] == start && l.exits[0] == start + uptime
      invariant l.numbers[0] == 0 && limiter.consecutiveAttempt == Last(l.numbers)
      invariant forall k | 0 <= k < i :: Rebuilt(l, k, rebuilds[k])
      decreases |rebuilds| - i
    {
      assert l.exits[..|l.exits|] == l.exits;
      if limiter.Exhausted() {
        return RestartedTooOften, l;
      }
      if i == |rebuilds| {
        return ShutDown, l;
      }
      var delay := IpcBackoffDelay(limiter.consecutiveAttempt);
      limiter.consecutiveAttempt := limiter.consecutiveAttempt + 1;
      if !rebuilds[i].works {
        return RebuildFailed, l;
      }
      var attempt := Last(l.exits) + delay + rebuilds[i].pause;
      now := attempt + rebuilds[i].lasted;
      limiter.NoteExit(now);
      OneMorePaced(l.attempts, l.exits, attempt, now, IPC_LIMITS);
      var l' := Lineage(l.attempts + [attempt], l.exits + [now], l.numbers + [limiter.consecutiveAttempt]);
      OneMoreRebuild(l, l', i, rebuilds);
      l, i := l', i + 1;
    }
  }

  lemma OneMoreRebuild(l: Lineage, l': Lineage, i: nat, rebuilds: seq<Rebuild>)
    requires |l.attempts| == |l.exits| == |l.numbers| == i + 1
    requires |l'.attempts| == |l'.exits| == |l'.numbers| == i + 2 && i < |rebuilds|
    requires l.attempts <= l'.attempts && l.exits <= l'.exits && l.numbers <= l'.numbers
    requires Rebuilt(l', i, rebuilds[i]) && forall k | 0 <= k < i :: Rebuilt(l, k, rebuilds[k])
    ensures forall k | 0 <= k < i + 1 :: Rebuilt(l', k, rebuilds[k])
  {
    hide IpcBackoffDelay;
    forall k | 0 <= k < i
      ensures Rebuilt(l', k, rebuilds[k])
    {
      assert Rebuilt(l, k, rebuilds[k]);
    }
  }

  /* ---------- what the limiter is for ---------- */

  lemma {:induction false} PacedIsOrdered(attempts: seq<nat>, exits: seq<nat>, limits: Limits, i: nat, j: nat)
    requires Paced(attempts, exits, limits) && i <= j < |attempts|
    ensures attempts[i] <= attempts[j]
    ensures j < |exits| ==> attempts[j] <= exits[j] && exits[i] <= exits[j]
    ensures i < j ==> exits[i] <= attempts[j]
    decreases j
  {
    hide Passed;
    if j > 0 {
      assert Spaced(attempts, exits, j - 1, limits);
      if i < j { PacedIsOrdered(attempts, exits, limits, i, j - 1); }
      PacedIsOrdered(attempts, exits, limits, 0, j - 1);
    }
  }

  lemma ExitsAscend(attempts: seq<nat>, exits: seq<nat>, limits: Limits)
    requires Paced(attempts, exits, limits)
    ensures Ascending(exits)
  {
    forall i, j | 0 <= i <= j < |exits|
      ensures exits[i] <= exits[j]
    {
      PacedIsOrdered(attempts, exits, limits, i, j);
    }
  }

  /**
   In any window, at most `maxRestarts + 1` attempts are made, the first start included; so no more cores
   are spawned, and no more listeners built, than that.
   */
  lemma AttemptsPerWindow(attempts: seq<nat>, exits: seq<nat>, limits: Limits, i: nat, j: nat)
    requires Paced(attempts, exits, limits) && i <= j < |attempts|
    requires attempts[j] - attempts[i] < limits.window
    ensures j - i + 1 <= limits.maxRestarts + 1
  {
    if i < j {
      // The stamps of attempts `i` to `j - 1` were all recent when attempt `j` passed its check.
      var seen := exits[..j];
      ExitsAscend(attempts, exits, limits);
      var k := RecentIsSuffix(seen, exits[j - 1], limits.window);
      PacedIsOrdered(attempts, exits, limits, j - 1, j);
      PacedIsOrdered(attempts, exits, limits, i, i);
      assert seen[i] == exits[i];
      assert Spaced(attempts, exits, j - 1, limits) && exits[..j - 1 + 1] == seen;
    }
  }

  predicate ShortCycle(exits: seq<nat>, i: nat, max: nat, window: nat)
    requires i + 1 < |exits|
  {
    (exits[i + 1] - exits[i]) * max < window
  }

  predicate ShortCycles(exits: seq<nat>, max: nat, window: nat) {
    forall i | 0 <= i < |exits| - 1 :: ShortCycle(exits, i, max, window)
  }

  // `k` short cycles add up to less than a window.
  lemma {:induction false} ShortCyclesAddUp(exits: seq<nat>, max: nat, window: nat, k: nat)
    requires window > 0 && k < |exits|
    requires Ascending(exits) && ShortCycles(exits, max, window)
    ensures exits[0] <= exits[k] && (exits[k] - exits[0]) * max <= k * (window - 1)
  {
    if k > 0 {
      ShortCyclesAddUp(exits, max, window, k - 1);
      var gap := exits[k] - exits[k - 1];
      assert ShortCycle(exits, k - 1, max, window);
      assert (exits[k] - exits[0]) * max == (exits[k - 1] - exits[0]) * max + gap * max;
      assert k * (window - 1) == (k - 1) * (window - 1) + (window - 1);
    }
  }

  lemma Monotone(a: nat, b: nat, c: nat)
    requires a <= b
    ensures a * c <= b * c
  {}

  lemma WithinWindow(span: nat, max: nat, window: nat, k: nat)
    requires window > 0 && 0 < max && k <= max && span * max <= k * (window - 1)
    ensures span < window
  {
    Monotone(k, max, window - 1);
    assert window * max == max * (window - 1) + max;
    if span >= window {
      Monotone(window, span, max);
    }
  }

  // While the cycles are short no stamp of the first `maxRestarts + 1` is forgotten.
  lemma NothingForgotten(attempts: seq<nat>, exits: seq<nat>, limits: Limits, k: nat)
    requires Paced(attempts, exits, limits) && limits.window > 0 && k < |exits| && k <= limits.maxRestarts
    requires ShortCycles(exits, limits.maxRestarts, limits.window)
    ensures exits[k] - exits[0] < limits.window
    ensures |Recent(exits[..k + 1], exits[k], limits.window)| == k + 1
  {
    ExitsAscend(attempts, exits, limits);
    if k > 0 {
      ShortCyclesAddUp(exits, limits.maxRestarts, limits.window, k);
      WithinWindow(exits[k] - exits[0], limits.maxRestarts, limits.window, k);
    }
    var first := RecentIsSuffix(exits[..k + 1], exits[k], limits.window);
  }

  /**
   A bad restart loop ends: if every cycle of backoff and attempt takes less than `window / maxRestarts`, at
   most `maxRestarts` restarts are made, and the check has failed exactly when all of them have been used up.
   */
  lemma BadLoopEnds(attempts: seq<nat>, exits: seq<nat>, limits: Limits)
    requires Paced(attempts, exits, limits) && limits.window > 0
    requires ShortCycles(exits, limits.maxRestarts, limits.window)
    ensures |attempts| - 1 <= limits.maxRestarts
    ensures exits != [] ==> (!Passed(exits, |exits| - 1, limits) <==> |exits| - 1 == limits.maxRestarts)
  {
    if |attempts| - 1 > limits.maxRestarts {
      assert Spaced(attempts, exits, limits.maxRestarts, limits);
      NothingForgotten(attempts, exits, limits, limits.maxRestarts);
    } else if exits != [] {
      NothingForgotten(attempts, exits, limits, |exits| - 1);
    }
  }

  /** Throughout a bad loop the watchdog's backoff is the one of its restart number: it never falls back. */
  lemma {:induction false} BadLoopKeepsBackingOff(l: Lineage, limits: Limits, first: Life, turns: seq<Turn>, k: nat)
    requires Follows(l, limits, first, turns) && limits.window > 0 && k < |l.numbers|
    requires ShortCycles(l.exits, limits.maxRestarts, limits.window)
    ensures l.numbers[k] == k
    ensures k > 0 ==> BackoffDelay(l.numbers[k - 1], limits.maxBackoff) <= BackoffDelay(l.numbers[k], limits.maxBackoff)
    ensures BackoffDelay(l.numbers[k], limits.maxBackoff) <= limits.maxBackoff
  {
    if k > 0 {
      BadLoopKeepsBackingOff(l, limits, first, turns, k - 1);
      FollowsIsPaced(l, limits, first, turns);
      BadLoopEnds(l.attempts, l.exits, limits);
      NothingForgotten(l.attempts, l.exits, limits, k);
      PacedIsOrdered(l.attempts, l.exits, limits, 0, k - 1);
      assert Ended(l, k - 1, limits, turns[k - 1].fate);
      BackoffGrows(k - 1, k, limits.maxBackoff);
    }
  }

  // Between resets a later attempt never waits less, and no attempt waits longer than the maximum.
  lemma {:induction false} BackoffBetweenResets(l: Lineage, limits: Limits, first: Life, turns: seq<Turn>, i: nat,
                                                j: nat)
    requires Follows(l, limits, first, turns) && i <= j < |l.numbers|
    requires forall k | i < k <= j :: l.numbers[k] != 0
    ensures l.numbers[j] == l.numbers[i] + (j - i)
    ensures BackoffDelay(l.numbers[i], limits.maxBackoff) <= BackoffDelay(l.numbers[j], limits.maxBackoff)
    ensures BackoffDelay(l.numbers[j], limits.maxBackoff) <= limits.maxBackoff
    decreases j - i
  {
    if i < j {
      BackoffBetweenResets(l, limits, first, turns, i, j - 1);
      assert Ended(l, j - 1, limits, turns[j - 1].fate);
    }
    BackoffGrows(l.numbers[i], l.numbers[j], limits.maxBackoff);
  }

  /** With the shipped limits: a core none of whose restarts lasts a minute is restarted at most ten times. */
  lemma WatchdogByDefault(attempts: seq<nat>, exits: seq<nat>)
    requires Paced(attempts, exits, WATCHDOG_LIMITS)
    requires forall i | 0 <= i < |exits| - 1 :: exits[i + 1] < exits[i] + 60_000
    ensures |attempts| <= 11
    ensures exits != [] ==> (|exits| == 11 <==> !Passed(exits, |exits| - 1, WATCHDOG_LIMITS))
  {
    forall i | 0 <= i < |exits| - 1
      ensures ShortCycle(exits, i, 10, 600_000)
    {
      assert exits[i + 1] < exits[i] + 60_000;
    }
    BadLoopEnds(attempts, exits, WATCHDOG_LIMITS);
  }

  /** The same for the IPC supervisor: a listener none of which lasts a second is rebuilt at most ten times. */
  lemma IpcByDefault(attempts: seq<nat>, exits: seq<nat>)
    requires Paced(attempts, exits, IPC_LIMITS)
    requires forall i | 0 <= i < |exits| - 1 :: exits[i + 1] < exits[i] + 1_000
    ensures |attempts| <= 11
    ensures exits != [] ==> (|exits| == 11 <==> !Passed(exits, |exits| - 1, IPC_LIMITS))
  {
    forall i | 0 <= i < |exits| - 1
      ensures ShortCycle(exits, i, 10, 10_000)
    {
      assert exits[i + 1] < exits[i] + 1_000;
    }
    BadLoopEnds(attempts, exits, IPC_LIMITS);
  }

  // One exit every `period`, from the first one on.
  predicate Steady(exits: seq<nat>, period: nat) {
    forall i | 0 <= i < |exits| :: exits[i] == (i + 1) * period
  }

  lemma SteadyIsAscending(exits: seq<nat>, period: nat)
    requires Steady(exits, period)
    ensures Ascending(exits)
  {
    forall i, j | 0 <= i <= j < |exits|
      ensures exits[i] <= exits[j]
    {
      Monotone(i + 1, j + 1, period);
    }
  }

  // If `maxRestarts` periods fill a window, no check ever fails.
  lemma SteadyPasses(exits: seq<nat>, limits: Limits, period: nat, k: nat)
    requires Steady(exits, period) && limits.window <= limits.maxRestarts * period && k < |exits|
    ensures Passed(exits, k, limits)
  {
    var seen := exits[..k + 1];
    SteadyIsAscending(seen, period);
    var first := RecentIsSuffix(seen, exits[k], limits.window);
    if k + 1 - first > limits.maxRestarts {
      assert exits[k] - seen[first] == (k - first) * period by {
        assert (k + 1) * period - (first + 1) * period == (k - first) * period;
      }
      Monotone(limits.maxRestarts, k - first, period);
    }
  }

  /**
   The bound is exact: if every cycle takes as much as `window / maxRestarts`, the watchdog goes on restarting for as
   long as one likes. Here is the history of `n` restarts, `period` apart, backoff included.
   */
  lemma SteadyLoopGoesOn(limits: Limits, period: nat, n: nat) returns (l: Lineage, turns: seq<Turn>)
    requires limits.maxBackoff <= period < limits.window <= limits.maxRestarts * period
    ensures Follows(l, limits, Exits(period), turns)
    ensures |turns| == n && |l.attempts| == |l.exits| == n + 1 && l.attempts[0] == 0 && Steady(l.exits, period)
  {
    hide Recent, Pow2;
    DelaysFit(limits.maxBackoff, period);
    var delay := (k: nat) => BackoffDelay(k, limits.maxBackoff);
    var exits := seq(n + 1, k requires 0 <= k => (k + 1) * period);
    var attempts :=
      seq(n + 1, k requires 0 <= k => if k == 0 then 0 else k * period + BackoffDelay(k - 1, limits.maxBackoff));
    turns := seq(n, k requires 0 <= k =>
                 Turn(0, false, Runs(Exits(if delay(k) <= period then period - delay(k) else 0))));
    l := Lineage(attempts, exits, seq(n + 1, k requires 0 <= k => k));
    hide BackoffDelay;
    forall k | 0 <= k < n
      ensures Tried(l, k, limits, turns[k]) && Ended(l, k, limits, turns[k].fate)
    {
      SteadyPasses(exits, limits, period, k);
      assert (k + 2) * period == (k + 1) * period + period;
    }
  }

  lemma DelaysFit(max: nat, period: nat)
    requires max <= period
    ensures forall k: nat :: BackoffDelay(k, max) <= period
  {}

  // With the shipped limits: one restart a minute, or one rebuild a second, goes on for ever.
  lemma ShippedBoundsAreExact(n: nat) returns (l: Lineage, turns: seq<Turn>, rebuilt: seq<nat>)
    ensures Follows(l, WATCHDOG_LIMITS, Exits(60_000), turns)
    ensures |l.attempts| == |l.exits| == n + 1 && Steady(l.exits, 60_000)
    ensures Paced(rebuilt, rebuilt, IPC_LIMITS) && |rebuilt| == n + 1 && Steady(rebuilt, 1_000)
  {
    hide Recent, BackoffDelay;
    l, turns := SteadyLoopGoesOn(WATCHDOG_LIMITS, 60_000, n);
    rebuilt := seq(n + 1, k requires 0 <= k => (k + 1) * 1_000);
    forall k | 0 <= k < n
      ensures Spaced(rebuilt, rebuilt, k, IPC_LIMITS)
    {
      SteadyPasses(rebuilt, IPC_LIMITS, 1_000, k);
    }
  }
}
