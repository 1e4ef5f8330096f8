/**
 The staging plan (`plan_stage`): what to delete, copy, keep and sweep, given the manifest of the
 previous generation and the metadata of the sources a bundle declares.
 */
module StagePlan {
  import opened Wrappers
  import opened StringOrder

  datatype SourceIdentity = SourceIdentity(source: string, len: nat, mtime: Option<nat>) {
    // An unknown modification time never matches.
    predicate StillMatches(current: SourceIdentity) {
      mtime.Some? && this == current
    }
  }

  datatype Manifest = Manifest(assets: map<string, SourceIdentity>, remote: map<string, string>)

  const EMPTY_MANIFEST := Manifest(map[], map[])

  datatype AssetSource = AssetSource(source: string, destination: string, len: nat, mtime: Option<nat>) {
    function Identity(): SourceIdentity {
      SourceIdentity(source, len, mtime)
    }
  }

  datatype RemoteProvider = RemoteProvider(destination: string, url: string)

  datatype PlannedCopy = PlannedCopy(source: string, destination: string, identity: SourceIdentity)

  datatype Plan = Plan(
    requiredDeletes: seq<string>,
    copies: seq<PlannedCopy>,
    skipped: seq<string>,
    hygieneDeletes: seq<string>,
    manifest: Manifest)

  predicate Matches(previous: Manifest, source: AssetSource) {
    source.destination in previous.assets && previous.assets[source.destination].StillMatches(source.Identity())
  }

  predicate SameProvider(previous: Manifest, provider: RemoteProvider) {
    provider.destination in previous.remote && previous.remote[provider.destination] == provider.url
  }

  /* ---------- the specification, part by part ---------- */

  function Front<T>(s: seq<T>): seq<T>
    requires s != []
  {
    s[..|s| - 1]
  }

  function Last<T>(s: seq<T>): T
    requires s != []
  {
    s[|s| - 1]
  }

  function CopyOf(source: AssetSource): PlannedCopy {
    PlannedCopy(source.source, source.destination, source.Identity())
  }

  function CopiesOf(previous: Manifest, sources: seq<AssetSource>): seq<PlannedCopy> {
    if sources == [] then []
    else CopiesOf(previous, Front(sources)) +
         (if Matches(previous, Last(sources)) then [] else [CopyOf(Last(sources))])
  }

  function SkippedOf(previous: Manifest, sources: seq<AssetSource>): seq<string> {
    if sources == [] then []
    else SkippedOf(previous, Front(sources)) +
         (if Matches(previous, Last(sources)) then [Last(sources).destination] else [])
  }

  function AssetsOf(sources: seq<AssetSource>): map<string, SourceIdentity> {
    if sources == [] then map[]
    else AssetsOf(Front(sources))[Last(sources).destination := Last(sources).Identity()]
  }

  function DeletesOf(previous: Manifest, remote: seq<RemoteProvider>): seq<string> {
    if remote == [] then []
    else DeletesOf(previous, Front(remote)) +
         (if SameProvider(previous, Last(remote)) then [] else [Last(remote).destination])
  }

  function RemoteOf(remote: seq<RemoteProvider>): map<string, string> {
    if remote == [] then map[]
    else RemoteOf(Front(remote))[Last(remote).destination := Last(remote).url]
  }

  function Declared(manifest: Manifest): set<string> {
    manifest.assets.Keys + manifest.remote.Keys
  }

  function PlanOf(previous: Manifest, sources: seq<AssetSource>, remote: seq<RemoteProvider>): Plan {
    var manifest := Manifest(AssetsOf(sources), RemoteOf(remote));
    Plan(DeletesOf(previous, remote), CopiesOf(previous, sources), SkippedOf(previous, sources),
         KeysInOrder(Declared(previous) - Declared(manifest)), manifest)
  }

  /* ---------- the planner ---------- */

  lemma PrefixStep<T>(s: seq<T>, i: nat)
    requires i < |s|
    ensures s[..i + 1] != [] && Front(s[..i + 1]) == s[..i] && Last(s[..i + 1]) == s[i]
  {}

  /** `plan_stage`. */
  method PlanStage(previous: Manifest, sources: seq<AssetSource>, remote: seq<RemoteProvider>)
    returns (plan: Plan)
    ensures plan == PlanOf(previous, sources, remote)
  {
    var copies: seq<PlannedCopy>, skipped: seq<string>, assets: map<string, SourceIdentity> := [], [], map[];
    for i := 0 to |sources|
      invariant copies == CopiesOf(previous, sources[..i]) && skipped == SkippedOf(previous, sources[..i])
      invariant assets == AssetsOf(sources[..i])
    {
      PrefixStep(sources, i);
      var source := sources[i];
      var identity := source.Identity();
      if source.destination in previous.assets && previous.assets[source.destination].StillMatches(identity) {
        skipped := skipped + [source.destination];
      } else {
        copies := copies + [PlannedCopy(source.source, source.destination, identity)];
      }
      assets := assets[source.destination := identity];
    }
    assert sources[..|sources|] == sources;

    var requiredDeletes: seq<string>, providers: map<string, string> := [], map[];
    for i := 0 to |remote|
      invariant requiredDeletes == DeletesOf(previous, remote[..i]) && providers == RemoteOf(remote[..i])
    {
      PrefixStep(remote, i);
      var provider := remote[i];
      // Missing provenance is treated like a changed URL.
      if provider.destination !in previous.remote || previous.remote[provider.destination] != provider.url {
        requiredDeletes := requiredDeletes + [provider.destination];
      }
      providers := providers[provider.destination := provider.url];
    }
    assert remote[..|remote|] == remote;

    var manifest := Manifest(assets, providers);
    var obsolete := ObsoletePaths(RecordedPaths(previous), manifest);
    SweepIsKeyOrder(previous, manifest);
    plan := Plan(requiredDeletes, copies, skipped, SortedWithoutRepeats(obsolete), manifest);
  }

  function Undeclared(recorded: seq<string>, manifest: Manifest): seq<string> {
    if recorded == [] then []
    else Undeclared(Front(recorded), manifest) +
         (if Last(recorded) in manifest.assets || Last(recorded) in manifest.remote then [] else [Last(recorded)])
  }

  lemma {:induction false} UndeclaredMembers(recorded: seq<string>, manifest: Manifest)
    ensures forall k :: k in Undeclared(recorded, manifest) <==> k in recorded && k !in Declared(manifest)
  {
    if recorded != [] {
      UndeclaredMembers(Front(recorded), manifest);
      assert recorded == Front(recorded) + [Last(recorded)];
    }
  }

  function SortedWithoutRepeats(s: seq<string>): seq<string> {
    Dedup(Sort(s))
  }

  function RecordedPaths(previous: Manifest): seq<string> {
    KeysInOrder(previous.assets.Keys) + KeysInOrder(previous.remote.Keys)
  }

  lemma SweepIsKeyOrder(previous: Manifest, manifest: Manifest)
    ensures SortedWithoutRepeats(Undeclared(RecordedPaths(previous), manifest)) ==
            KeysInOrder(Declared(previous) - Declared(manifest))
  {
    UndeclaredMembers(RecordedPaths(previous), manifest);
    SortDedupIsKeyOrder(Undeclared(RecordedPaths(previous), manifest), Declared(previous) - Declared(manifest));
  }

  // The last loop of `plan_stage`.
  method ObsoletePaths(recorded: seq<string>, manifest: Manifest) returns (obsolete: seq<string>)
    ensures obsolete == Undeclared(recorded, manifest)
  {
    obsolete := [];
    for i := 0 to |recorded|
      invariant obsolete == Undeclared(recorded[..i], manifest)
    {
      PrefixStep(recorded, i);
      if recorded[i] !in manifest.assets && recorded[i] !in manifest.remote {
        obsolete := obsolete + [recorded[i]];
      }
    }
    assert recorded[..|recorded|] == recorded;
  }

  /* ---------- what a plan is ---------- */

  predicate DistinctAssets(sources: seq<AssetSource>) {
    forall i, j | 0 <= i < j < |sources| :: sources[i].destination != sources[j].destination
  }

  predicate DistinctProviders(remote: seq<RemoteProvider>) {
    forall i, j | 0 <= i < j < |remote| :: remote[i].destination != remote[j].destination
  }

  /** What bundle gathering guarantees: no destination is declared twice, in either role. */
  predicate WellDeclared(sources: seq<AssetSource>, remote: seq<RemoteProvider>) {
    && DistinctAssets(sources)
    && DistinctProviders(remote)
    && forall s, p | s in sources && p in remote :: s.destination != p.destination
  }

  function CopyDestinations(copies: seq<PlannedCopy>): (r: seq<string>)
    ensures |r| == |copies| && forall i | 0 <= i < |r| :: r[i] == copies[i].destination
  {
    seq(|copies|, i requires 0 <= i < |copies| => copies[i].destination)
  }

  // The members of each list, without any assumption on the declarations.
  lemma {:induction false} PlanMembers(previous: Manifest, sources: seq<AssetSource>)
    ensures forall c :: c in CopiesOf(previous, sources) <==>
                        exists s | s in sources :: !Matches(previous, s) && c == CopyOf(s)
    ensures forall d :: d in SkippedOf(previous, sources) <==>
                        exists s | s in sources :: Matches(previous, s) && d == s.destination
    ensures forall d :: d in AssetsOf(sources) <==> exists s | s in sources :: d == s.destination
  {
    if sources != [] {
      PlanMembers(previous, Front(sources));
      assert sources == Front(sources) + [Last(sources)];
    }
  }

  lemma {:induction false} RemoteMembers(previous: Manifest, remote: seq<RemoteProvider>)
    ensures forall d :: d in DeletesOf(previous, remote) <==>
                        exists p | p in remote :: !SameProvider(previous, p) && d == p.destination
    ensures forall d :: d in RemoteOf(remote) <==> exists p | p in remote :: d == p.destination
  {
    if remote != [] {
      RemoteMembers(previous, Front(remote));
      assert remote == Front(remote) + [Last(remote)];
    }
  }

  lemma {:induction false} ManifestOfDistinct(sources: seq<AssetSource>)
    requires DistinctAssets(sources)
    ensures forall s | s in sources ::
              s.destination in AssetsOf(sources) && AssetsOf(sources)[s.destination] == s.Identity()
  {
    if sources != [] {
      ManifestOfDistinct(Front(sources));
    }
  }

  lemma {:induction false} RemoteOfDistinct(remote: seq<RemoteProvider>)
    requires DistinctProviders(remote)
    ensures forall p | p in remote :: p.destination in RemoteOf(remote) && RemoteOf(remote)[p.destination] == p.url
  {
    if remote != [] {
      RemoteOfDistinct(Front(remote));
    }
  }

  lemma {:induction false} CopiesAreDistinct(previous: Manifest, sources: seq<AssetSource>)
    requires DistinctAssets(sources)
    ensures NoDuplicates(CopyDestinations(CopiesOf(previous, sources)))
    ensures NoDuplicates(SkippedOf(previous, sources))
  {
    if sources != [] {
      CopiesAreDistinct(previous, Front(sources));
      PlanMembers(previous, Front(sources));
      var copies := CopiesOf(previous, Front(sources));
      assert forall i | 0 <= i < |copies| :: copies[i] in copies;
      var skipped := SkippedOf(previous, Front(sources));
      assert forall i | 0 <= i < |skipped| :: skipped[i] in skipped;
      assert forall s | s in Front(sources) :: s.destination != Last(sources).destination;
    }
  }

  lemma {:induction false} DeletesAreDistinct(previous: Manifest, remote: seq<RemoteProvider>)
    requires DistinctProviders(remote)
    ensures NoDuplicates(DeletesOf(previous, remote))
  {
    if remote != [] {
      DeletesAreDistinct(previous, Front(remote));
      RemoteMembers(previous, Front(remote));
      var deletes := DeletesOf(previous, Front(remote));
      assert forall i | 0 <= i < |deletes| :: deletes[i] in deletes;
      assert forall p | p in Front(remote) :: p.destination != Last(remote).destination;
    }
  }

  ghost predicate Disjoint(a: seq<string>, b: seq<string>) {
    forall d :: !(d in a && d in b)
  }

  // A plan is a partition: every declared asset is copied or kept and never both, every list is free
  // of repeats, no path is in two lists, and the sweep list is, in key order, exactly the recorded
  // paths the bundle no longer declares.
  lemma PlanIsPartition(previous: Manifest, sources: seq<AssetSource>, remote: seq<RemoteProvider>)
    requires WellDeclared(sources, remote)
    ensures var plan := PlanOf(previous, sources, remote);
            var copied := CopyDestinations(plan.copies);
            && (forall s | s in sources :: (s.destination in copied) != (s.destination in plan.skipped))
            && (forall s | s in sources :: s.destination in plan.skipped <==> Matches(previous, s))
            && (forall p | p in remote :: p.destination in plan.requiredDeletes <==> !SameProvider(previous, p))
            && NoDuplicates(copied) && NoDuplicates(plan.skipped)
            && NoDuplicates(plan.requiredDeletes) && NoDuplicates(plan.hygieneDeletes)
            && Disjoint(copied, plan.skipped) && Disjoint(copied, plan.requiredDeletes)
            && Disjoint(copied, plan.hygieneDeletes) && Disjoint(plan.skipped, plan.requiredDeletes)
            && Disjoint(plan.skipped, plan.hygieneDeletes) && Disjoint(plan.requiredDeletes, plan.hygieneDeletes)
            && Sorted(plan.hygieneDeletes)
            && (forall d :: d in plan.hygieneDeletes <==>
                            (d in previous.assets || d in previous.remote) &&
                            (forall s | s in sources :: s.destination != d) &&
                            (forall p | p in remote :: p.destination != d))
  {
    var plan := PlanOf(previous, sources, remote);
    PlanMembers(previous, sources);
    RemoteMembers(previous, remote);
    CopiesAreDistinct(previous, sources);
    DeletesAreDistinct(previous, remote);
    StrictlySortedHasNoDuplicates(plan.hygieneDeletes);
    CopiedDestinations(previous, sources);
    UniqueDeclarations(sources, remote);
  }

  lemma CopiedDestinations(previous: Manifest, sources: seq<AssetSource>)
    ensures forall d :: d in CopyDestinations(CopiesOf(previous, sources)) <==>
                        exists s | s in sources :: !Matches(previous, s) && d == s.destination
  {
    PlanMembers(previous, sources);
    var copies := CopiesOf(previous, sources);
    forall d
      ensures d in CopyDestinations(copies) <==> exists s | s in sources :: !Matches(previous, s) && d == s.destination
    {
      if d in CopyDestinations(copies) {
        var i :| 0 <= i < |copies| && CopyDestinations(copies)[i] == d;
        assert copies[i] in copies;
      }
      if exists s | s in sources :: !Matches(previous, s) && d == s.destination {
        var s :| s in sources && !Matches(previous, s) && d == s.destination;
        assert CopyOf(s) in copies;
        var i :| 0 <= i < |copies| && copies[i] == CopyOf(s);
        assert CopyDestinations(copies)[i] == d;
      }
    }
  }

  lemma UniqueDeclarations(sources: seq<AssetSource>, remote: seq<RemoteProvider>)
    requires WellDeclared(sources, remote)
    ensures forall s, t | s in sources && t in sources && s.destination == t.destination :: s == t
    ensures forall p, q | p in remote && q in remote && p.destination == q.destination :: p == q
  {}

  // Planning again from the manifest a plan produces, with the same inputs, deletes and sweeps nothing
  // and copies again exactly the sources whose modification time is unknown.
  lemma ReplanIsFixpoint(previous: Manifest, sources: seq<AssetSource>, remote: seq<RemoteProvider>)
    requires WellDeclared(sources, remote)
    ensures var plan := PlanOf(previous, sources, remote);
            var again := PlanOf(plan.manifest, sources, remote);
            && again.requiredDeletes == [] && again.hygieneDeletes == []
            && again.manifest == plan.manifest
            && (forall c :: c in again.copies <==> exists s | s in sources :: s.mtime.None? && c == CopyOf(s))
            && (again.copies == [] <==> forall s | s in sources :: s.mtime.Some?)
  {
    var plan := PlanOf(previous, sources, remote);
    var again := PlanOf(plan.manifest, sources, remote);
    ManifestOfDistinct(sources);
    RemoteOfDistinct(remote);
    PlanMembers(plan.manifest, sources);
    RemoteMembers(plan.manifest, remote);
    EmptyWhenNoMembers(again.requiredDeletes);
    EmptyWhenNoMembers(again.hygieneDeletes);
    EmptyWhenNoMembers(again.copies);
    forall s | s in sources && s.mtime.None?
      ensures again.copies != []
    {
      assert CopyOf(s) in again.copies;
    }
  }

  lemma EmptyWhenNoMembers<T>(s: seq<T>)
    ensures s == [] <==> forall x :: x !in s
  {
    if s != [] { assert s[0] in s; }
  }
}
