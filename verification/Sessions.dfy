/**
 Owner sessions: the two state files behind them, the commit and the clear that change those files, and the
 gate that compares a request's proof with them. A write may fail and keep the old file, or fail after it
 has replaced it; a crash of the service between two writes is a commit that stops there.
 */
module Sessions {
  import opened Wrappers

  type byte = bv8
  type bytes = seq<byte>

  const MAX_GENERATION: nat := 0xFFFF_FFFF_FFFF_FFFF
  const SESSION_TOKEN_HEX_LEN := 64
  const TOKEN_HASH_LEN := 64

  /** What is assumed of the token hash: it prints as 64 bytes. */
  type TokenHash = f: bytes -> bytes | forall token :: |f(token)| == TOKEN_HASH_LEN witness _ => seq(64, _ => 0)

  datatype Stored<T> = Missing | Unparsable | Holds(value: T)

  datatype ActiveOwner = ActiveOwner(ownerKey: string, generation: nat, tokenHash: bytes)

  datatype Disk = Disk(counter: Stored<nat>, active: Stored<ActiveOwner>)

  datatype Proof = Proof(generation: nat, token: bytes)

  datatype SessionError = InvalidToken | StateFailure | StaleSession

  /* ---------- the comparison ---------- */

  // The fold of `constant_time_eq`.
  function Difference(left: bytes, right: bytes): byte
    requires |left| == |right|
  {
    if left == [] then 0
    else Difference(left[..|left| - 1], right[..|right| - 1]) | (left[|left| - 1] ^ right[|right| - 1])
  }

  function ConstantTimeEq(left: bytes, right: bytes): bool {
    |left| == |right| && Difference(left, right) == 0
  }

  lemma XorIsZero(a: byte, b: byte)
    ensures a ^ b == 0 <==> a == b
  {}

  lemma OrIsZero(a: byte, b: byte)
    ensures a | b == 0 <==> a == 0 && b == 0
  {}

  /** Comparing without branching on the contents is plain equality. */
  lemma {:induction false} ConstantTimeEqIsEquality(left: bytes, right: bytes)
    ensures ConstantTimeEq(left, right) <==> left == right
  {
    if |left| == |right| && left != [] {
      var n := |left| - 1;
      ConstantTimeEqIsEquality(left[..n], right[..n]);
      XorIsZero(left[n], right[n]);
      OrIsZero(Difference(left[..n], right[..n]), left[n] ^ right[n]);
      assert left == left[..n] + [left[n]] && right == right[..n] + [right[n]];
    }
  }

  /* ---------- the gate ---------- */

  // The bytes of "0123456789abcdef".
  const HEX_DIGITS: bytes := [48, 49, 50, 51, 52, 53, 54, 55, 56, 57, 97, 98, 99, 100, 101, 102]

  predicate IsLowerHex(b: byte)
    ensures IsLowerHex(b) <==> b in HEX_DIGITS
  {
    0x30 <= b <= 0x39 || 0x61 <= b <= 0x66
  }

  predicate WellFormedToken(token: bytes)
    ensures WellFormedToken(token) <==> |token| == 64 && forall b | b in token :: b in HEX_DIGITS
  {
    |token| == SESSION_TOKEN_HEX_LEN && forall b | b in token :: IsLowerHex(b)
  }

  /** `hash_session_token`. */
  function HashSessionToken(hash: TokenHash, token: bytes): (r: Result<bytes, SessionError>)
    ensures r.Ok? <==> WellFormedToken(token)
    ensures r.Ok? ==> |r.value| == TOKEN_HASH_LEN
  {
    if WellFormedToken(token) then Ok(hash(token)) else Err(InvalidToken)
  }

  // What the gate stands for: a proof names the active owner, its generation, and a token with its hash.
  predicate Accepts(hash: TokenHash, disk: Disk, ownerKey: string, proof: Proof) {
    && disk.active.Holds?
    && disk.active.value.ownerKey == ownerKey
    && disk.active.value.generation == proof.generation
    && WellFormedToken(proof.token)
    && disk.active.value.tokenHash == hash(proof.token)
  }

  // At most one session is accepted at a time: all accepted proofs agree, up to collisions of the hash.
  lemma OneSessionAtATime(hash: TokenHash, disk: Disk, k: string, p: Proof, k': string, p': Proof)
    requires Accepts(hash, disk, k, p) && Accepts(hash, disk, k', p')
    ensures k == k' && p.generation == p'.generation && hash(p.token) == hash(p'.token)
  {}

  /** State written before sessions existed has an empty hash, which no proof can match. */
  lemma LegacyStateIsRefused(hash: TokenHash, disk: Disk, ownerKey: string, proof: Proof)
    requires disk.active.Holds? && |disk.active.value.tokenHash| != TOKEN_HASH_LEN
    ensures !Accepts(hash, disk, ownerKey, proof)
  {
    assert |hash(proof.token)| == TOKEN_HASH_LEN;
  }

  /* ---------- what a commit and a clear may do ---------- */

  function NextGeneration(counter: nat): nat {
    if counter < MAX_GENERATION then counter + 1 else MAX_GENERATION
  }

  function Counter(disk: Disk): nat {
    if disk.counter.Holds? then disk.counter.value else 0
  }

  // How far a commit got.
  datatype Reach = Nowhere | CounterWritten | ActiveWritten

  // What becomes of an atomic write: nothing, or a file replaced by a write that then fails, or success.
  datatype Write = Kept | Replaced | Secured

  // How far a commit gets, when its token and its counter are in order if and only if `begun`.
  function ReachOf(begun: bool, first: Write, second: Write): Reach {
    if !begun || first.Kept? then Nowhere
    else if first.Replaced? || second.Kept? then CounterWritten
    else ActiveWritten
  }

  // What a commit that got this far leaves. Whether it then reported success is another matter: only one
  // that got all the way can have, but one that did may still report a failure.
  ghost predicate Commits(hash: TokenHash, disk: Disk, ownerKey: string, token: bytes, reach: Reach, disk': Disk) {
    match reach
    case Nowhere => disk' == disk
    case CounterWritten =>
      WellFormedToken(token) && !disk.counter.Unparsable? &&
      disk' == disk.(counter := Holds(NextGeneration(Counter(disk))))
    case ActiveWritten =>
      WellFormedToken(token) && !disk.counter.Unparsable? &&
      var generation := NextGeneration(Counter(disk));
      disk' == Disk(Holds(generation), Holds(ActiveOwner(ownerKey, generation, hash(token))))
  }

  // The state files never claim a generation the counter has not reached, and the counter fits its width.
  predicate Consistent(disk: Disk) {
    && Counter(disk) <= MAX_GENERATION
    && (disk.active.Holds? && !disk.counter.Unparsable? ==> disk.active.value.generation <= Counter(disk))
  }

  /* ---------- the state files ---------- */

  class OwnerStore {
    const hash: TokenHash
    var disk: Disk

    constructor (hash: TokenHash, disk: Disk)
      ensures this.hash == hash && this.disk == disk
    {
      this.hash, this.disk := hash, disk;
    }

    /** `read_json_or_default` on the counter; whether the file can be read at all is the environment's choice. */
    method ReadCounter(readable: bool) returns (r: Result<nat, SessionError>)
      ensures r.Ok? <==> readable && !disk.counter.Unparsable?
      ensures r.Ok? ==> r.value == Counter(disk)
    {
      if !readable {
        return Err(StateFailure);
      }
      match disk.counter
      case Missing => r := Ok(0);
      case Unparsable => r := Err(StateFailure);
      case Holds(generation) => r := Ok(generation);
    }

    /** `write_json_atomic`: the last step may fail when the file has already been replaced. */
    method WriteCounter(generation: nat, write: Write) returns (ok: bool)
      modifies this
      ensures disk == if write.Kept? then old(disk) else old(disk).(counter := Holds(generation))
      ensures ok <==> write.Secured?
    {
      if !write.Kept? {
        disk := disk.(counter := Holds(generation));
      }
      ok := write.Secured?;
    }

    method WriteActive(active: ActiveOwner, write: Write) returns (ok: bool)
      modifies this
      ensures disk == if write.Kept? then old(disk) else old(disk).(active := Holds(active))
      ensures ok <==> write.Secured?
    {
      if !write.Kept? {
        disk := disk.(active := Holds(active));
      }
      ok := write.Secured?;
    }

    /**
     `commit_active_owner_session`: it succeeds exactly on a well-formed token, a counter that can be read, and
     two writes that work; where it stops otherwise is settled by the first of these that fails.
     */
    method CommitActiveOwnerSession(ownerKey: string, token: bytes, readable: bool, first: Write, second: Write)
      returns (r: Result<ActiveOwner, SessionError>)
      modifies this
      ensures r.Ok? <==> WellFormedToken(token) && readable && !old(disk).counter.Unparsable? &&
                         first.Secured? && second.Secured?
      ensures var begun := WellFormedToken(token) && readable && !old(disk).counter.Unparsable?;
              Commits(hash, old(disk), ownerKey, token, ReachOf(begun, first, second), disk)
      ensures r.Ok? ==> disk.active == Holds(r.value)
      ensures r.Err? ==> r.error == if WellFormedToken(token) then StateFailure else InvalidToken
    {
      var tokenHash := HashSessionToken(hash, token);
      if tokenHash.Err? {
        return Err(InvalidToken);
      }
      var counter := ReadCounter(readable);
      if counter.Err? {
        return Err(StateFailure);
      }
      var generation := NextGeneration(counter.value);
      var counted := WriteCounter(generation, first);
      if !counted {
        return Err(StateFailure);
      }
      var active := ActiveOwner(ownerKey, generation, tokenHash.value);
      var written := WriteActive(active, second);
      r := if written then Ok(active) else Err(StateFailure);
    }

    /** `clear_active_owner`: a missing file counts as removed; any other error keeps the file. */
    method ClearActiveOwner(removable: bool) returns (ok: bool)
      modifies this
      ensures ok <==> removable
      ensures disk == if ok then old(disk).(active := Missing) else old(disk)
    {
      if !removable {
        return false;
      }
      if !disk.active.Missing? {
        disk := disk.(active := Missing);
      }
      ok := true;
    }

    /** `load_active_owner`; whether the file can be read at all is the environment's choice. */
    method LoadActiveOwner(readable: bool) returns (r: Result<Option<ActiveOwner>, SessionError>)
      ensures r.Ok? <==> readable && !disk.active.Unparsable?
      ensures r.Ok? ==> disk.active == match r.value case None => Missing case Some(active) => Holds(active)
    {
      if !readable {
        return Err(StateFailure);
      }
      match disk.active
      case Missing => r := Ok(None);
      case Unparsable => r := Err(StateFailure);
      case Holds(active) => r := Ok(Some(active));
    }

    /** `require_active_session`: whatever cannot be read or does not match is stale. */
    method RequireActiveSession(readable: bool, ownerKey: string, proof: Proof)
      returns (r: Result<ActiveOwner, SessionError>)
      ensures r.Ok? <==> readable && Accepts(hash, disk, ownerKey, proof)
      ensures r.Ok? ==> disk.active == Holds(r.value)
      ensures r.Err? ==> r.error == StaleSession
    {
      var loaded := LoadActiveOwner(readable);
      if loaded.Err? || loaded.value.None? {
        return Err(StaleSession);
      }
      var active := loaded.value.value;
      var supplied := HashSessionToken(hash, proof.token);
      if supplied.Err? {
        return Err(StaleSession);
      }
      ConstantTimeEqIsEquality(active.tokenHash, supplied.value);
      if active.ownerKey != ownerKey || active.generation != proof.generation ||
         !ConstantTimeEq(active.tokenHash, supplied.value) {
        return Err(StaleSession);
      }
      r := Ok(active);
    }
  }

  /* ---------- whole runs ---------- */

  datatype Event = Committed(ownerKey: string, token: bytes, reach: Reach) | Cleared(ok: bool)

  datatype Run = Run(disks: seq<Disk>, events: seq<Event>)

  ghost predicate Step(hash: TokenHash, e: Event, disk: Disk, disk': Disk) {
    match e
    case Committed(ownerKey, token, reach) => Commits(hash, disk, ownerKey, token, reach, disk')
    case Cleared(ok) => disk' == if ok then disk.(active := Missing) else disk
  }

  ghost predicate IsRun(hash: TokenHash, r: Run) {
    && |r.disks| == |r.events| + 1 && Consistent(r.disks[0])
    && forall i | 0 <= i < |r.events| :: Step(hash, r.events[i], r.disks[i], r.disks[i + 1])
  }

  // Another session took over, or the session was cleared.
  predicate EndsSessions(e: Event) {
    match e
    case Committed(_, _, reach) => reach.ActiveWritten?
    case Cleared(ok) => ok
  }

  lemma {:induction false} CounterNeverFalls(hash: TokenHash, r: Run, i: nat, j: nat)
    requires IsRun(hash, r) && i <= j < |r.disks|
    ensures Consistent(r.disks[i]) && Consistent(r.disks[j])
    ensures Counter(r.disks[i]) <= Counter(r.disks[j])
    ensures r.disks[i].counter.Unparsable? == r.disks[j].counter.Unparsable?
    decreases j
  {
    if j > 0 {
      assert Step(hash, r.events[j - 1], r.disks[j - 1], r.disks[j - 1 + 1]);
      if i < j {
        CounterNeverFalls(hash, r, i, j - 1);
      } else {
        CounterNeverFalls(hash, r, i - 1, i - 1);
      }
    }
  }

  // The commits before the j-th event that got as far as the counter.
  ghost function Counted(events: seq<Event>, j: nat): nat
    requires j <= |events|
  {
    if j == 0 then 0
    else Counted(events, j - 1) +
         if events[j - 1].Committed? && !events[j - 1].reach.Nowhere? then 1 else 0
  }

  /** Generations count: every commit that gets as far as the counter uses up exactly one, until the maximum. */
  lemma {:induction false} CounterCountsCommits(hash: TokenHash, r: Run, j: nat)
    requires IsRun(hash, r) && j < |r.disks|
    ensures var reached := Counter(r.disks[0]) + Counted(r.events, j);
            Counter(r.disks[j]) == if reached < MAX_GENERATION then reached else MAX_GENERATION
    decreases j
  {
    CounterNeverFalls(hash, r, 0, 0);
    if j > 0 {
      CounterCountsCommits(hash, r, j - 1);
      assert Step(hash, r.events[j - 1], r.disks[j - 1], r.disks[j - 1 + 1]);
    }
  }

  /** What a commit that gets all the way is for: afterwards exactly its owner, its generation and its token pass. */
  lemma CommittedSessionIsAccepted(hash: TokenHash, disk: Disk, ownerKey: string, token: bytes, disk': Disk,
                                   k: string, proof: Proof)
    requires Commits(hash, disk, ownerKey, token, ActiveWritten, disk')
    ensures Accepts(hash, disk', k, proof) <==>
              && k == ownerKey && proof.generation == Counter(disk')
              && WellFormedToken(proof.token) && hash(proof.token) == hash(token)
    ensures Accepts(hash, disk', ownerKey, Proof(Counter(disk'), token))
  {}

  /** The generations of later sessions are greater, until the counter has reached its maximum. */
  lemma GenerationsIncrease(hash: TokenHash, r: Run, i: nat, j: nat)
    requires IsRun(hash, r) && i < j < |r.events|
    requires r.events[i].Committed? && r.events[i].reach.ActiveWritten?
    requires r.events[j].Committed? && r.events[j].reach.ActiveWritten?
    ensures r.disks[i + 1].active.Holds? && r.disks[j + 1].active.Holds?
    ensures var first, second := r.disks[i + 1].active.value.generation, r.disks[j + 1].active.value.generation;
            first < second || first == second == MAX_GENERATION
  {
    assert Step(hash, r.events[i], r.disks[i], r.disks[i + 1]) && Step(hash, r.events[j], r.disks[j], r.disks[j + 1]);
    CounterNeverFalls(hash, r, i + 1, j);
  }

  // A generation that was issued and is not the active one. While the counter cannot be read nothing is committed.
  predicate Retired(disk: Disk, generation: nat) {
    if disk.counter.Unparsable? then !disk.active.Holds?
    else generation <= Counter(disk) && (disk.active.Holds? ==> disk.active.value.generation != generation)
  }

  lemma StepKeepsRetired(hash: TokenHash, e: Event, disk: Disk, disk': Disk, generation: nat)
    requires Step(hash, e, disk, disk') && Retired(disk, generation) && generation < MAX_GENERATION
    ensures Retired(disk', generation)
  {}

  lemma {:induction false} RetiredForGood(hash: TokenHash, r: Run, k: nat, j: nat, generation: nat)
    requires IsRun(hash, r) && k <= j < |r.disks| && generation < MAX_GENERATION && Retired(r.disks[k], generation)
    ensures Retired(r.disks[j], generation)
    decreases j - k
  {
    hide Retired, Step;
    if k < j {
      RetiredForGood(hash, r, k, j - 1, generation);
      assert Step(hash, r.events[j - 1], r.disks[j - 1], r.disks[j - 1 + 1]);
      StepKeepsRetired(hash, r.events[j - 1], r.disks[j - 1], r.disks[j], generation);
    }
  }

  /**
   Sessions never come back: a proof that was accepted is rejected at every moment after another session took
   over or the session was cleared. This needs its generation to be below the maximum.
   */
  lemma SessionsNeverComeBack(hash: TokenHash, r: Run, i: nat, k: nat, j: nat, ownerKey: string, proof: Proof)
    requires IsRun(hash, r) && i <= k < j < |r.disks| && EndsSessions(r.events[k])
    requires Accepts(hash, r.disks[i], ownerKey, proof) && proof.generation < MAX_GENERATION
    ensures !Accepts(hash, r.disks[j], ownerKey, proof)
  {
    CounterNeverFalls(hash, r, 0, i);
    CounterNeverFalls(hash, r, i, k);
    assert Step(hash, r.events[k], r.disks[k], r.disks[k + 1]);
    RetiredForGood(hash, r, k + 1, j, proof.generation);
  }

  /** When exactly a commit revives a proof issued before: the counter is stuck, and owner and token are the same. */
  lemma RevivedExactlyAtTheMaximum(hash: TokenHash, disk: Disk, ownerKey: string, token: bytes, disk': Disk,
                                   k: string, proof: Proof)
    requires Consistent(disk) && Commits(hash, disk, ownerKey, token, ActiveWritten, disk')
    requires proof.generation <= Counter(disk)
    ensures Accepts(hash, disk', k, proof) <==>
              && Counter(disk) == MAX_GENERATION && proof.generation == MAX_GENERATION
              && k == ownerKey && WellFormedToken(proof.token) && hash(proof.token) == hash(token)
  {}

  /** So at the maximum a session does come back: commit, clear, commit again. */
  lemma SessionComesBackAtTheMaximum(hash: TokenHash, ownerKey: string, token: bytes) returns (r: Run, proof: Proof)
    requires WellFormedToken(token)
    ensures IsRun(hash, r) && |r.events| == 3 && EndsSessions(r.events[1])
    ensures Accepts(hash, r.disks[1], ownerKey, proof) && !Accepts(hash, r.disks[2], ownerKey, proof)
    ensures Accepts(hash, r.disks[3], ownerKey, proof)
  {
    var active := Holds(ActiveOwner(ownerKey, MAX_GENERATION, hash(token)));
    var commit := Committed(ownerKey, token, ActiveWritten);
    var full := Holds(MAX_GENERATION);
    proof := Proof(MAX_GENERATION, token);
    r := Run([Disk(full, Missing), Disk(full, active), Disk(full, Missing), Disk(full, active)],
             [commit, Cleared(true), commit]);
  }
}
