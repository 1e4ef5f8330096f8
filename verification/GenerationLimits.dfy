/**
 What a generation is not promised, and exactly when it is. An attempt that ends early may leave a manifest that
 vouches for the wrong file; a core that is alive while a manifest it does not run under stands, or is about to,
 may fill it with the wrong ones. For both: the exact condition, what the damage costs, and a run that does it.
 */
module GenerationLimits {
  import opened Wrappers
  import opened Names
  import opened StagePlan
  import opened Bundle
  import opened GenerationDisk
  import opened GenerationFiles
  import opened RefreshRules
  import opened GenerationRuns

  /* ---------- attempts that end early ---------- */

  predicate Vouched(m: Manifest, d: string) {
    d in m.assets && m.assets[d].mtime.Some?
  }

  // What is known once a plan, for whatever bundle, has got as far as deleting `deleted` and making the first
  // `done` copies: under the manifest `m` from `f0` to `f`, under the sources from `h0` to `h`.
  ghost predicate GotAsFar(m: Manifest, core: Core, deleted: set<string>, copies: seq<PlannedCopy>, done: nat,
                           f0: Files, h0: History, f1: Files, h1: History, f: Files, h: History) {
    && ValidHistory(h0) && ValidHistory(h1) && Extends(h0, h1) && Tame(core, m)
    && deleted !! Destinations(copies) && Changed(core, deleted, f0, f1)
    && (forall p | p in deleted :: GoneOrRefilled(core, f1, p))
    && Progress(copies, done, core, f1, h1, f, h)
  }

  // A copy that says what it said before is the only way for an entry to stay true.
  lemma VouchedAfterEarlyExit(m: Manifest, core: Core, deleted: set<string>, copies: seq<PlannedCopy>, done: nat,
                              f0: Files, h0: History, f1: Files, h1: History, f: Files, h: History, d: string)
    requires GotAsFar(m, core, deleted, copies, done, f0, h0, f1, h1, f, h)
    requires Vouched(m, d) && IsKey(d) && MadeFrom(f0, d, m.assets[d], h0)
    ensures MadeFrom(f, d, m.assets[d], h) <==> Same(f0, f, d)
    ensures d in deleted ==> !Same(f0, f, d)
    ensures d !in deleted && d !in Destinations(copies[..done]) ==> Same(f0, f, d)
  {
    hide Resolve, IsTempPath;
    KeysAreNotOwnFiles(d);
    var id := m.assets[d];
    assert Spares(core, {d});
    ExtendsTransitive(h0, h1, h);
    MadeFromLater(f0, f0, d, id, h0, h);
    if MadeFrom(f, d, id, h) {
      OneFilePerEntry(f0, f, d, id, h);
    }
    if Same(f0, f, d) {
      MadeFromLater(f0, f, d, id, h0, h);
    }
    if d !in Destinations(copies[..done]) {
      assert CoreMayChange(core, f1, f, d);
      if d !in deleted { assert CoreMayChange(core, f0, f1, d); }
    }
    if d in deleted {
      forall c | c in copies[..done]
        ensures c.destination != d
      {
        assert c in copies;
      }
    }
  }

  lemma OneFilePerEntry(f: Files, f': Files, d: string, id: SourceIdentity, h: History)
    requires ValidHistory(h) && id.mtime.Some? && MadeFrom(f, d, id, h) && MadeFrom(f', d, id, h)
    ensures Same(f, f', d)
  {
    var versions := Of(h, id.source);
    var v :| 0 <= v < |versions| && Stamped(versions[v], id) && HoldsBytes(f, d, versions[v].bytes);
    var w :| 0 <= w < |versions| && Stamped(versions[w], id) && HoldsBytes(f', d, versions[w].bytes);
    OneVersionPerStamp(h, id.source, if v <= w then v else w, if v <= w then w else v);
  }

  /**
   The exact condition under which an attempt that ends early leaves an honest manifest, whatever the sources do
   meanwhile: nothing it deleted is a recorded asset, and every recorded asset it copied over reads as before. For
   a source that held still, that is to say it already read as the source. Provider caches: it copied over none,
   unless the core has filled it again since.
   */
  lemma EarlyExitHonesty(m: Manifest, core: Core, deleted: set<string>, copies: seq<PlannedCopy>, done: nat,
                         f0: Files, h0: History, f1: Files, h1: History, f: Files, h: History)
    requires GotAsFar(m, core, deleted, copies, done, f0, h0, f1, h1, f, h)
    requires (forall d | d in Declared(m) :: IsKey(d)) && Honest(m, f0, h0) && ProvidersHonest(m, f0)
    ensures Honest(m, f, h) <==>
              && (forall d | d in deleted :: !Vouched(m, d))
              && (forall j | 0 <= j < done && Vouched(m, copies[j].destination) :: Same(f0, f, copies[j].destination))
    ensures forall j | 0 <= j < done && Vouched(m, copies[j].destination) &&
                       Of(h, copies[j].source) == Of(h1, copies[j].source) ::
              Current(h, copies[j].source).Present? &&
              (Same(f0, f, copies[j].destination) <==>
               HoldsBytes(f0, copies[j].destination, Current(h, copies[j].source).bytes))
    ensures Spares(core, Destinations(copies[..done])) ==>
              (ProvidersHonest(m, f) <==> forall j | 0 <= j < done :: copies[j].destination !in m.remote)
  {
    hide Resolve, IsTempPath, MadeFrom, Changed, Spares, Tame, GotAsFar;
    DoneWithin(m, core, deleted, copies, done, f0, h0, f1, h1, f, h);
    forall d | Vouched(m, d)
      ensures MadeFrom(f, d, m.assets[d], h) <==> Same(f0, f, d)
      ensures d in deleted ==> !Same(f0, f, d)
      ensures d !in deleted && d !in Destinations(copies[..done]) ==> Same(f0, f, d)
    {
      VouchedAfterEarlyExit(m, core, deleted, copies, done, f0, h0, f1, h1, f, h, d);
    }
    forall j | 0 <= j < done && Vouched(m, copies[j].destination) && Of(h, copies[j].source) == Of(h1, copies[j].source)
      ensures Current(h, copies[j].source).Present?
      ensures Same(f0, f, copies[j].destination) <==>
              HoldsBytes(f0, copies[j].destination, Current(h, copies[j].source).bytes)
    {
      HeldStillCopy(m, core, deleted, copies, done, f0, h0, f1, h1, f, h, j);
    }
    if Spares(core, Destinations(copies[..done])) {
      forall p | p in m.remote
        ensures AbsentOrFrom(f, p, m.remote[p]) <==> p !in Destinations(copies[..done])
      {
        ProviderAfterEarlyExit(m, core, deleted, copies, done, f0, h0, f1, h1, f, h, p);
      }
    }
  }

  lemma DoneWithin(m: Manifest, core: Core, deleted: set<string>, copies: seq<PlannedCopy>, done: nat,
                   f0: Files, h0: History, f1: Files, h1: History, f: Files, h: History)
    requires GotAsFar(m, core, deleted, copies, done, f0, h0, f1, h1, f, h)
    ensures done <= |copies| && ValidHistory(h)
    ensures forall j | 0 <= j < done :: copies[j].destination in Destinations(copies[..done])
    ensures forall d | d in Destinations(copies[..done]) :: exists j :: 0 <= j < done && copies[j].destination == d
  {
    forall j | 0 <= j < done
      ensures copies[j].destination in Destinations(copies[..done])
    {
      assert copies[..done][j] == copies[j];
    }
    forall d | d in Destinations(copies[..done])
      ensures exists j :: 0 <= j < done && copies[j].destination == d
    {
      var c :| c in copies[..done] && c.destination == d;
      var j :| 0 <= j < done && copies[..done][j] == c;
      assert copies[j].destination == d;
    }
  }

  lemma HeldStillCopy(m: Manifest, core: Core, deleted: set<string>, copies: seq<PlannedCopy>, done: nat,
                      f0: Files, h0: History, f1: Files, h1: History, f: Files, h: History, j: nat)
    requires GotAsFar(m, core, deleted, copies, done, f0, h0, f1, h1, f, h) && j < done
    requires Vouched(m, copies[j].destination) && Of(h, copies[j].source) == Of(h1, copies[j].source)
    ensures Current(h, copies[j].source).Present?
    ensures Same(f0, f, copies[j].destination) <==>
            HoldsBytes(f0, copies[j].destination, Current(h, copies[j].source).bytes)
  {
    assert Spares(core, {copies[j].destination});
    assert CopiedIfSpared(core, copies[j], f, h1, h);
  }

  lemma ProviderAfterEarlyExit(m: Manifest, core: Core, deleted: set<string>, copies: seq<PlannedCopy>, done: nat,
                               f0: Files, h0: History, f1: Files, h1: History, f: Files, h: History, p: string)
    requires GotAsFar(m, core, deleted, copies, done, f0, h0, f1, h1, f, h)
    requires Spares(core, Destinations(copies[..done]))
    requires p in m.remote && IsKey(p) && AbsentOrFrom(f0, p, m.remote[p])
    ensures AbsentOrFrom(f, p, m.remote[p]) <==> p !in Destinations(copies[..done])
  {
    hide Resolve, IsTempPath;
    KeysAreNotOwnFiles(p);
    DoneWithin(m, core, deleted, copies, done, f0, h0, f1, h1, f, h);
    assert DownloadsFrom(core, p, m.remote[p]);
    if p in Destinations(copies[..done]) {
      var j :| 0 <= j < done && copies[j].destination == p;
      assert CopiedIfSpared(core, copies[j], f, h1, h);
    } else {
      assert CoreMayChange(core, f1, f, p);
      if p !in deleted { assert CoreMayChange(core, f0, f1, p); }
    }
  }

  /* ---------- what a lying manifest costs ---------- */

  lemma SkippedIsNotPlanned(prep: Prepared, s: AssetSource)
    requires prep.plan == PlanOf(prep.previous, prep.sources, prep.remote) && WellDeclared(prep.sources, prep.remote)
    requires s in prep.sources && Matches(prep.previous, s) && IsKey(s.destination)
    ensures s.destination !in PlannedPaths(prep.plan)
  {
    hide Resolve, IsTempPath;
    PlanIsPartition(prep.previous, prep.sources, prep.remote);
    DestinationMembers(prep.plan.copies);
    KeysAreNotOwnFiles(s.destination);
  }

  /**
   A destination whose recorded source has not changed is kept as it is by every attempt that rests on the record,
   the committed ones included, whatever it holds.
   */
  lemma WrongFileSurvives(t: Trial, before: Snapshot, after: Snapshot, s: AssetSource)
    requires Attempt(t, before, after) && !t.outcome.Refused?
    requires s in t.prep.sources && Matches(t.prep.previous, s) && IsKey(s.destination)
    requires Spares(t.outgoing, {s.destination}) && Spares(t.during, {s.destination})
    ensures Same(before.files, after.files, s.destination)
    ensures Of(after.history, s.source) == Of(before.history, s.source) && LikeFromScratch(t.bundle, before, after) ==>
              Current(after.history, s.source).Present? &&
              HoldsBytes(before.files, s.destination, Current(after.history, s.source).bytes)
  {
    hide Resolve, IsTempPath, Leaves, PlanOf, PlannedPaths, WellDeclared, BundleDeclaration, Extends, LikeFromScratch;
    SkippedIsNotPlanned(t.prep, s);
    KeysAreNotOwnFiles(s.destination);
    assert CoreMayChange(t.outgoing, before.files, t.planned, s.destination);
    assert CoreMayChange(t.during, t.planned, after.files, s.destination);
    assert (s.destination, s.source) in BundleDeclaration(t.bundle).assets;
    if Of(after.history, s.source) == Of(before.history, s.source) && LikeFromScratch(t.bundle, before, after) {
      DeclaredAssetReadsAsSource(t.bundle, before, after, s.destination, s.source);
    }
  }

  lemma DeclaredAssetReadsAsSource(bundle: RuntimeBundle, before: Snapshot, after: Snapshot, d: string, source: string)
    requires ValidHistory(after.history) && LikeFromScratch(bundle, before, after)
    requires (d, source) in BundleDeclaration(bundle).assets && Of(after.history, source) == Of(before.history, source)
    ensures Current(after.history, source).Present? && HoldsBytes(after.files, d, Current(after.history, source).bytes)
  {
    hide BundleDeclaration;
    var a := (d, source);
    assert a in BundleDeclaration(bundle).assets && Of(after.history, a.1) == Of(before.history, a.1);
  }

  lemma TrustedProviderIsNotPlanned(prep: Prepared, p: RemoteProvider)
    requires prep.plan == PlanOf(prep.previous, prep.sources, prep.remote) && WellDeclared(prep.sources, prep.remote)
    requires p in prep.remote && SameProvider(prep.previous, p) && IsKey(p.destination)
    ensures p.destination !in PlannedPaths(prep.plan)
  {
    hide Resolve, IsTempPath;
    PlanIsPartition(prep.previous, prep.sources, prep.remote);
    PlanMembers(prep.previous, prep.sources);
    KeysAreNotOwnFiles(p.destination);
  }

  /** The same for a cache under its recorded URL, while the cores fill it from another or not at all. */
  lemma WrongCacheSurvives(t: Trial, before: Snapshot, after: Snapshot, p: RemoteProvider, url: string)
    requires Attempt(t, before, after) && !t.outcome.Refused?
    requires p in BundleDeclaration(t.bundle).remote && SameProvider(t.prep.previous, p) && url != p.url
    requires DownloadsFrom(t.outgoing, p.destination, url) && DownloadsFrom(t.during, p.destination, url)
    requires p.destination in before.files && before.files[p.destination].origin == Download(url)
    ensures p.destination in after.files && after.files[p.destination].origin == Download(url)
    ensures !LikeFromScratch(t.bundle, before, after)
  {
    hide Resolve, IsTempPath, Leaves, PlanOf, PlannedPaths, WellDeclared, BundleDeclaration, Extends;
    BundleIsKeyed(t.bundle);
    TrustedProviderIsNotPlanned(t.prep, p);
    KeysAreNotOwnFiles(p.destination);
    assert CoreMayChange(t.outgoing, before.files, t.planned, p.destination);
    assert CoreMayChange(t.during, t.planned, after.files, p.destination);
  }

  lemma PlanForOne(m: Manifest, s: AssetSource)
    ensures var plan := PlanOf(m, [s], []);
            plan.requiredDeletes == [] && plan.copies == if Matches(m, s) then [] else [CopyOf(s)]
  {
    assert Front([s]) == [];
    assert CopiesOf(m, [s]) == CopiesOf(m, []) + (if Matches(m, s) then [] else [CopyOf(s)]);
  }

  // One copy done, under the sources of `h`.
  lemma OneCopyDone(c: PlannedCopy, core: Core, f0: Files, h: History)
    requires ValidHistory(h) && Current(h, c.source).Present?
    ensures var f := f0[c.destination := File(Data(Current(h, c.source).bytes), FromService)];
            Progress([c], 1, core, f0, h, f, h)
  {
    hide IsTempPath;
    assert [c][..1] == [c] && c in [c] && c.destination in Destinations([c]);
  }

  /**
   Such a state is reached from an honest one: another bundle's copy succeeds, its commit does not. The manifest
   then still vouches for the first source, and planning for the first bundle copies nothing.
   */
  lemma AnotherBundlesCopyLies(d: string) returns (m: Manifest, h: History, first: AssetSource, second: AssetSource,
                                                   f0: Files, f: Files)
    requires IsKey(d)
    ensures ValidHistory(h) && Honest(m, f0, h)
    ensures var plan := PlanOf(m, [second], []);
            plan.requiredDeletes == [] && |plan.copies| == 1 && Progress(plan.copies, 1, Stopped, f0, h, f, h)
    ensures IsCurrent(h, first.Identity()) && first.destination == d
    ensures PlanOf(m, [first], []).copies == [] && PlanOf(m, [first], []).requiredDeletes == []
    ensures !HoldsBytes(f, d, Current(h, first.source).bytes)
  {
    hide Resolve, IsTempPath, IsKey, PlanOf, Progress;
    h := map["first" := [Present([1], Some(1))], "second" := [Present([2], Some(1))]];
    assert "first"[0] != "second"[0];
    first, second := AssetSource("first", d, 1, Some(1)), AssetSource("second", d, 1, Some(1));
    m := Manifest(map[d := first.Identity()], map[]);
    f0, f := map[d := File(Data([1]), FromService)], map[d := File(Data([2]), FromService)];
    assert Stamped(Of(h, "first")[0], first.Identity()) && HoldsBytes(f0, d, Of(h, "first")[0].bytes);
    PlanForOne(m, first);
    PlanForOne(m, second);
    OneCopyDone(CopyOf(second), Stopped, f0, h);
    assert f == f0[d := File(Data(Current(h, "second").bytes), FromService)];
  }

  /* ---------- cores that run under another configuration ---------- */

  /** Every file `m` records is what it says: assets come from the service, caches from the recorded URL. */
  predicate Provenance(m: Manifest, f: Files) {
    (forall d | d in m.assets :: d in f && f[d].origin == FromService) && ProvidersHonest(m, f)
  }

  // What a running core can make of a path it does not spare.
  lemma Spoil(core: Core, s: Snapshot, p: string) returns (s': Snapshot)
    requires ValidHistory(s.history) && core.Running? && p !in core.shielded
    ensures Step(Elapsed(core), s, s') && p in s'.files
    ensures s'.files[p].origin == if p in core.downloads then Download(core.downloads[p]) else Other
    ensures forall q | q != p :: Same(s.files, s'.files, q)
  {
    hide IsTempPath;
    ExtendsReflexive(s.history);
    var origin := if p in core.downloads then Download(core.downloads[p]) else Other;
    s' := s.(files := s.files[p := File(Data([]), origin)]);
  }

  /** Left to itself, a core keeps what a manifest says about its files true exactly when it is tame. */
  lemma ProvenanceUnderCore(m: Manifest, core: Core, s: Snapshot)
    requires ValidHistory(s.history) && Spares(core, OwnFiles()) && forall d | d in Declared(m) :: IsKey(d)
    ensures (forall s' | Step(Elapsed(core), s, s') :: Provenance(m, s'.files)) <==>
              Provenance(m, s.files) && Tame(core, m)
  {
    hide Resolve, IsTempPath, IsKey;
    if Provenance(m, s.files) && Tame(core, m) {
      forall s' | Step(Elapsed(core), s, s')
        ensures Provenance(m, s'.files)
      {
        TameKeepsProvenance(m, core, s.files, s'.files);
      }
    } else if Provenance(m, s.files) {
      if d :| d in m.assets && !Spares(core, {d}) {
        var s' := Spoil(core, s, d);
      } else {
        var p :| p in m.remote && !DownloadsFrom(core, p, m.remote[p]);
        var s' := Spoil(core, s, p);
        assert !AbsentOrFrom(s'.files, p, m.remote[p]);
      }
    } else {
      ExtendsReflexive(s.history);
      ChangedReflexive(core, s.files);
      assert Step(Elapsed(core), s, s);
    }
  }

  lemma TameKeepsProvenance(m: Manifest, core: Core, f: Files, f': Files)
    requires Provenance(m, f) && Tame(core, m) && Changed(core, {}, f, f') && forall d | d in Declared(m) :: IsKey(d)
    ensures Provenance(m, f')
  {
    hide Resolve, IsTempPath, IsKey;
    forall d | d in m.assets
      ensures Same(f, f', d)
    {
      KeysAreNotOwnFiles(d);
      TameSpares(core, m, d);
      assert CoreMayChange(core, f, f', d);
    }
    forall p | p in m.remote
      ensures AbsentOrFrom(f', p, m.remote[p])
    {
      KeysAreNotOwnFiles(p);
      assert DownloadsFrom(core, p, m.remote[p]) && CoreMayChange(core, f, f', p);
    }
  }

  lemma SuccessHasProvenance(t: Trial, before: Snapshot, after: Snapshot)
    requires Attempt(t, before, after) && t.outcome.Committed? && Undisturbed(t, before)
    ensures Provenance(t.prep.plan.manifest, after.files)
  {
    hide Resolve, IsTempPath, Trusted, Warranted, Tame, Honest, Changed, BundleDeclaration, PlanOf;
    PlanManifestFacts(t.prep);
    SuccessIsLikeFromScratch(t, before, after);
    var m, decl := t.prep.plan.manifest, BundleDeclaration(t.bundle);
    forall d | d in m.assets
      ensures d in after.files && after.files[d].origin == FromService
    {
      var a :| a in decl.assets && a.0 == d;
    }
    forall p | p in m.remote
      ensures AbsentOrFrom(after.files, p, m.remote[p])
    {
      assert RemoteProvider(p, m.remote[p]) in decl.remote;
    }
  }

  lemma PlanManifestIsKeyed(t: Trial, before: Snapshot, after: Snapshot)
    requires Attempt(t, before, after) && !t.outcome.Refused?
    ensures forall d | d in Declared(t.prep.plan.manifest) :: IsKey(d)
  {
    hide Resolve, IsTempPath, Leaves, Changed, BundleDeclaration, PlanOf;
    PlanManifestFacts(t.prep);
    BundleIsKeyed(t.bundle);
    var m, decl := t.prep.plan.manifest, BundleDeclaration(t.bundle);
    forall d | d in Declared(m)
      ensures IsKey(d)
    {
      if d in m.assets {
        var a :| a in decl.assets && a.0 == d;
      } else {
        assert RemoteProvider(d, m.remote[d]) in decl.remote;
      }
    }
  }

  /**
   A bundle committed while a core is alive that still runs with the caches `urls`: one that is being staged under, or
   one of an earlier run that a start did not know of. Everything the bundle is to have is what it says, and stays so
   until the core is told to reload, exactly when the bundle agrees with those caches: it makes none of them an asset,
   and gives none another URL.
   */
  lemma LiveCoreUnderNewManifest(t: Trial, before: Snapshot, after: Snapshot, urls: map<string, string>)
    requires Attempt(t, before, after) && t.outcome.Committed? && Warranted(t, before)
    requires t.during.Running? && Serves(t.during, urls, OwnFiles() + Declared(t.prep.plan.manifest))
    requires urls.Keys !! OwnFiles()
    ensures (forall s' | Step(Elapsed(t.during), after, s') :: Provenance(t.prep.plan.manifest, s'.files)) <==>
            Agrees(t.prep.plan.manifest, urls)
    ensures Agrees(t.prep.plan.manifest, urls) ==> LikeFromScratch(t.bundle, before, after)
  {
    hide Resolve, IsTempPath, Attempt, Provenance, Tame, Agrees, Serves, Step, LikeFromScratch, Warranted;
    var m := t.prep.plan.manifest;
    TameExactlyWhenAgreeing(t.during, urls, m);
    PlanManifestIsKeyed(t, before, after);
    AttemptIsValid(t, before, after);
    WarrantedSparesOwnFiles(t, before);
    ProvenanceUnderCore(m, t.during, after);
    if Agrees(m, urls) {
      SuccessHasProvenance(t, before, after);
      SuccessIsLikeFromScratch(t, before, after);
    }
  }

  lemma AttemptIsValid(t: Trial, before: Snapshot, after: Snapshot)
    requires Attempt(t, before, after)
    ensures ValidHistory(before.history) && ValidHistory(after.history)
  {}

  lemma WarrantedSparesOwnFiles(t: Trial, before: Snapshot)
    requires ValidHistory(before.history) && Warranted(t, before)
    ensures Spares(t.during, OwnFiles())
  {}

  /**
   The same condition, read off the plan. When the core runs with the caches the manifest on disk records, the bundle
   agrees with them exactly when no copy is planned to, and no stale cache discarded from, a path that is one of them.
   */
  lemma AgreementReadOffThePlan(prep: Prepared)
    requires prep.plan == PlanOf(prep.previous, prep.sources, prep.remote) && WellDeclared(prep.sources, prep.remote)
    requires prep.previous.assets.Keys !! prep.previous.remote.Keys
    ensures Agrees(prep.plan.manifest, prep.previous.remote) <==>
              && (forall c | c in prep.plan.copies :: c.destination !in prep.previous.remote)
              && (forall d | d in prep.plan.requiredDeletes :: d !in prep.previous.remote)
  {
    hide Resolve, IsTempPath;
    var m, urls := prep.plan.manifest, prep.previous.remote;
    PlanMembers(prep.previous, prep.sources);
    RemoteMembers(prep.previous, prep.remote);
    RemoteOfDistinct(prep.remote);
    if Agrees(m, urls) {
      forall c | c in prep.plan.copies
        ensures c.destination !in urls
      {
        var s :| s in prep.sources && c == CopyOf(s);
        assert s.destination in m.assets;
      }
      forall d | d in prep.plan.requiredDeletes
        ensures d !in urls
      {
        var p :| p in prep.remote && !SameProvider(prep.previous, p) && d == p.destination;
        assert d in m.remote && m.remote[d] == p.url;
      }
    } else {
      var p :| p in urls && (p in m.assets || (p in m.remote && m.remote[p] != urls[p]));
      if p in m.assets {
        var s :| s in prep.sources && p == s.destination;
        assert !Matches(prep.previous, s) && CopyOf(s) in prep.plan.copies;
      } else {
        var q :| q in prep.remote && p == q.destination;
        assert !SameProvider(prep.previous, q) && p in prep.plan.requiredDeletes;
      }
    }
  }

  /**
   A failed commit whose manifest could not be discarded leaves the last committed configuration beside a manifest
   that may describe another bundle. What that manifest says stays true under the core that runs the configuration
   exactly when the two agree.
   */
  lemma LeftBehindManifest(r: Run, initial: map<string, string>, core: Core)
    requires IsRun(r) && r.events != [] && Last(r.events).Attempted?
    requires Last(r.events).trial.outcome == CommitFailed(false)
    requires OnDisk(Last(r.moments).files).Some?
    requires forall d | d in Declared(OnDisk(Last(r.moments).files).value) :: IsKey(d)
    requires core.Running? && ConfiguredUrls(r.events, initial).Keys !! OwnFiles()
    requires Serves(core, ConfiguredUrls(r.events, initial), OwnFiles() + Declared(OnDisk(Last(r.moments).files).value))
    ensures var left, m := Last(r.moments), OnDisk(Last(r.moments).files).value;
            (forall s' | Step(Elapsed(core), left, s') :: Provenance(m, s'.files)) <==>
            Provenance(m, left.files) && Agrees(m, ConfiguredUrls(r.events, initial))
    ensures match LastCommitted(r.events)
            case None => ConfiguredUrls(r.events, initial) == initial
            case Some(bundle) =>
              exists t :: Attempted(t) in r.events && t.bundle == bundle && t.outcome.Committed? &&
                          ConfiguredUrls(r.events, initial) == t.prep.plan.manifest.remote
  {
    hide Resolve, IsTempPath, Provenance, Tame, Agrees, CanonicalOnDisk, Attempt, Changed, IsKey;
    var left, m := Last(r.moments), OnDisk(Last(r.moments).files).value;
    var e := Last(r.events);
    assert Step(r.events[|r.events| - 1], r.moments[|r.events| - 1], r.moments[|r.events| - 1 + 1]);
    AttemptIsValid(e.trial, r.moments[|r.events| - 1], left);
    TameExactlyWhenAgreeing(core, ConfiguredUrls(r.events, initial), m);
    ServesSparesOwnFiles(core, ConfiguredUrls(r.events, initial), Declared(m));
    ProvenanceUnderCore(m, core, left);
    UrlsOfTheLastCommitted(r.events, initial);
  }

  lemma ServesSparesOwnFiles(core: Core, urls: map<string, string>, paths: set<string>)
    requires Serves(core, urls, OwnFiles() + paths) && urls.Keys !! OwnFiles()
    ensures Spares(core, OwnFiles())
  {}

  // The configured caches are those of the configuration on disk.
  lemma {:induction false} UrlsOfTheLastCommitted(events: seq<Event>, initial: map<string, string>)
    ensures match LastCommitted(events)
            case None => ConfiguredUrls(events, initial) == initial
            case Some(bundle) =>
              exists t :: Attempted(t) in events && t.bundle == bundle && t.outcome.Committed? &&
                          ConfiguredUrls(events, initial) == t.prep.plan.manifest.remote
  {
    if events != [] {
      UrlsOfTheLastCommitted(Front(events), initial);
      assert forall e | e in Front(events) :: e in events;
      if Commits(Last(events)) { assert Attempted(Last(events).trial) in events; }
    }
  }

  /**
   And where they disagree about a URL, the core can leave behind a cache that every later attempt at a bundle with the
   recorded URL keeps, as long as it rests on that manifest.
   */
  lemma DisagreementSurvives(s: Snapshot, core: Core, urls: map<string, string>, p: string) returns (s': Snapshot)
    requires ValidHistory(s.history) && OnDisk(s.files).Some? && p in OnDisk(s.files).value.remote && IsKey(p)
    requires p in urls && urls[p] != OnDisk(s.files).value.remote[p]
    requires core.Running? && Serves(core, urls, {p})
    ensures Step(Elapsed(core), s, s') && OnDisk(s'.files) == OnDisk(s.files)
    ensures forall t, after | Attempt(t, s', after) && t.outcome.Committed? &&
                              t.prep.previous == OnDisk(s.files).value &&
                              RemoteProvider(p, t.prep.previous.remote[p]) in BundleDeclaration(t.bundle).remote &&
                              DownloadsFrom(t.outgoing, p, urls[p]) && DownloadsFrom(t.during, p, urls[p]) ::
              !LikeFromScratch(t.bundle, s', after)
  {
    hide Resolve, IsTempPath, Leaves, LikeFromScratch, BundleDeclaration, DownloadsFrom, PlanOf, WellDeclared, Changed;
    KeysAreNotOwnFiles(p);
    assert p in {p};
    s' := Spoil(core, s, p);
    assert Same(s.files, s'.files, MANIFEST_FILE_NAME);
    forall t, after | Attempt(t, s', after) && t.outcome.Committed? && t.prep.previous == OnDisk(s.files).value &&
                      RemoteProvider(p, t.prep.previous.remote[p]) in BundleDeclaration(t.bundle).remote &&
                      DownloadsFrom(t.outgoing, p, urls[p]) && DownloadsFrom(t.during, p, urls[p])
      ensures !LikeFromScratch(t.bundle, s', after)
    {
      WrongCacheSurvives(t, s', after, RemoteProvider(p, t.prep.previous.remote[p]), urls[p]);
    }
  }

  /* ---------- runs in which it goes wrong ---------- */

  /**
   Staging that makes a cache an asset. The service copies the new asset; the running core, whose cache that path
   still is, refreshes it; the check after the copy looked at the source only, so the commit goes through, and the
   manifest vouches for what the core downloaded.
   */
  lemma CacheBecomesAsset(d: string, data: seq<int>, url: string, yaml: string)
    returns (t: Trial, before: Snapshot, copied: Files, refilled: Files, after: Snapshot)
    requires IsKey(d)
    ensures ValidHistory(before.history) && HonestOnDisk(before) && Tamed(Elapsed(t.during), before)
    ensures t.prep.plan == PlanOf(t.prep.previous, t.prep.sources, t.prep.remote)
    ensures OnDisk(before.files) == Some(t.prep.previous) && t.prep.plan.requiredDeletes == []
    ensures Progress(t.prep.plan.copies, |t.prep.plan.copies|, t.during, before.files, before.history, copied,
                     before.history)
    ensures HoldsBytes(copied, d, data) && Changed(t.during, {}, copied, refilled)
    ensures Changed(t.during, OwnFiles(), refilled, after.files)
    ensures Attempt(t, before, after) && t.outcome.Committed? && t.outgoing == t.during
    ensures AllHeldStill(t.prep.sources, before.history, after.history, {})
    ensures !LikeFromScratch(t.bundle, before, after) && !HonestOnDisk(after)
  {
    hide Resolve, IsTempPath, IsKey, PlanOf, LikeFromScratch, HonestOnDisk, Attempt;
    var h := map["source" := [Present(data, Some(1))]];
    var s := AssetSource("source", d, |data|, Some(1));
    var bundle := RuntimeBundle([DeclaredAsset("source", d)], [], yaml);
    var m0, m := Manifest(map[], map[d := url]), Manifest(map[d := s.Identity()], map[]);
    var core := Running(OwnFiles(), map[d := url]);
    KeysAreNotOwnFiles(d);
    assert MANIFEST_FILE_NAME[0] != CONFIG_FILE_NAME[0];
    before := Snapshot(map[MANIFEST_FILE_NAME := File(ManifestText(m0), FromService),
                           d := File(Data([]), Download(url))], h);
    copied := before.files[d := File(Data(data), FromService)];
    refilled := before.files;
    after := Snapshot(before.files[MANIFEST_FILE_NAME := File(ManifestText(m), FromService)]
                                  [CONFIG_FILE_NAME := File(Yaml(yaml), FromService)], h);
    var prep := Prepared(m0, [s], [], PlanOf(m0, [s], []));
    t := Trial(bundle, core, core, Committed, prep, before.files);
    PlanForOne(m0, s);
    OneAssetPlanned(m0, s);
    OneCopyDone(CopyOf(s), core, before.files, h);
    OneAssetDeclared("source", d, |data|, Some(1), yaml);
    ExtendsReflexive(h);
    OneCacheIsHonest(before, m0, d, url);
    assert CoreMayChange(core, copied, refilled, d);
    RefilledAttempt(t, s, m, url, before, after);
    RefilledIsDishonest(after, m, d);
    if LikeFromScratch(bundle, before, after) {
      DeclaredAssetReadsAsSource(bundle, before, after, d, "source");
    }
  }

  lemma OneAssetPlanned(m: Manifest, s: AssetSource)
    ensures PlanOf(m, [s], []).manifest == Manifest(map[s.destination := s.Identity()], map[])
  {
    assert Front([s]) == [];
    assert AssetsOf([s]) == AssetsOf([])[s.destination := s.Identity()];
  }

  lemma OneCacheIsHonest(s: Snapshot, m: Manifest, d: string, url: string)
    requires OnDisk(s.files) == Some(m) && m == Manifest(map[], map[d := url]) && IsKey(d)
    requires AbsentOrFrom(s.files, d, url)
    ensures HonestOnDisk(s) && CanonicalOnDisk(s.files)
  {}

  lemma RefilledIsDishonest(s: Snapshot, m: Manifest, d: string)
    requires OnDisk(s.files) == Some(m) && d in m.assets && m.assets[d].mtime.Some?
    requires d in s.files && s.files[d].origin != FromService
    ensures !HonestOnDisk(s)
  {}

  lemma RefilledAttempt(t: Trial, s: AssetSource, m: Manifest, url: string, before: Snapshot, after: Snapshot)
    requires IsKey(s.destination) && ValidHistory(before.history) && after.history == before.history
    requires BundleDeclaration(t.bundle) == DeclarationOf([s], []) == Declaration({(s.destination, s.source)}, {})
    requires WellDeclared([s], []) && m == Manifest(map[s.destination := s.Identity()], map[])
    requires t.prep == Prepared(Manifest(map[], map[s.destination := url]), [s], [], PlanOf(t.prep.previous, [s], []))
    requires t.prep.plan.manifest == m && t.prep.plan.copies == [CopyOf(s)]
    requires t.outgoing == t.during == Running(OwnFiles(), map[s.destination := url]) && t.outcome.Committed?
    requires t.planned == before.files && OnDisk(before.files) == Some(t.prep.previous)
    requires before.files.Keys == {MANIFEST_FILE_NAME, s.destination}
    requires after.files == before.files[MANIFEST_FILE_NAME := File(ManifestText(m), FromService)]
                                        [CONFIG_FILE_NAME := File(Yaml(t.bundle.yaml), FromService)]
    requires MANIFEST_FILE_NAME != CONFIG_FILE_NAME && s.destination !in OwnFiles()
    ensures Attempt(t, before, after)
  {
    hide Resolve, IsTempPath, PlanOf, Built, BundleDeclaration, DeclarationOf, WellDeclared, Trusted;
    ExtendsReflexive(after.history);
    assert OnDisk(after.files) == Some(m);
    assert s.destination in m.assets && !Spares(t.during, {s.destination});
    assert !Tame(t.during, t.prep.plan.manifest) by {
      if Tame(t.during, t.prep.plan.manifest) { TameSpares(t.during, m, s.destination); }
    }
    assert (s.destination, s.source) in BundleDeclaration(t.bundle).assets;
    assert (s.destination, s.source).0 in AssetKeys(BundleDeclaration(t.bundle));
    assert Covers(Some(m), BundleDeclaration(t.bundle));
    assert Changed(t.during, OwnFiles(), before.files, after.files);
  }

  // A bundle that declares one cache.
  function OneCache(d: string, url: string, yaml: string): RuntimeBundle {
    RuntimeBundle([], [RemoteProvider(d, url)], yaml)
  }

  function PlanForCache(previous: Manifest, d: string, url: string): Prepared {
    var remote := [RemoteProvider(d, url)];
    Prepared(previous, [], remote, PlanOf(previous, [], remote))
  }

  lemma OneCacheDeclared(previous: Manifest, d: string, url: string, yaml: string)
    requires IsKey(d)
    ensures BundleDeclaration(OneCache(d, url, yaml)) == Declaration({}, {RemoteProvider(d, url)})
    ensures DeclarationOf([], [RemoteProvider(d, url)]) == Declaration({}, {RemoteProvider(d, url)})
    ensures WellDeclared([], [RemoteProvider(d, url)])
    ensures PlanForCache(previous, d, url).plan.manifest == Manifest(map[], map[d := url])
    ensures d in PlanForCache(previous, d, url).plan.requiredDeletes <==>
              !SameProvider(previous, RemoteProvider(d, url))
  {
    hide Resolve;
    KeysAreCanonical(d);
    var p := RemoteProvider(d, url);
    var remote := [p];
    assert p in remote && Front(remote) == [] && Last(remote) == p;
    assert RemoteOf(remote) == RemoteOf(Front(remote))[d := url];
    assert DeletesOf(previous, remote) ==
           DeletesOf(previous, Front(remote)) + (if SameProvider(previous, p) then [] else [d]);
    assert p in OneCache(d, url, yaml).providers;
    assert BundleDeclaration(OneCache(d, url, yaml)).remote == {p};
    assert DeclarationOf([], remote).remote == {p};
  }

  // What an attempt at such a bundle has to show.
  lemma OneCacheAttempt(t: Trial, d: string, url: string, before: Snapshot, after: Snapshot)
    requires IsKey(d) && before.history == map[] && after.history == map[]
    requires t.bundle == OneCache(d, url, t.bundle.yaml) && t.prep == PlanForCache(t.prep.previous, d, url)
    requires t.prep.previous == EMPTY_MANIFEST || OnDisk(before.files) == Some(t.prep.previous)
    requires t.planned == before.files && before.files.Keys <= {d} + OwnFiles() && after.files.Keys <= {d} + OwnFiles()
    requires OnDisk(after.files) == Some(Manifest(map[], map[d := url])) && MANIFEST_FILE_NAME in after.files
    requires match t.outcome
             case Committed =>
               CONFIG_FILE_NAME in after.files &&
               after.files[CONFIG_FILE_NAME] == File(Yaml(t.bundle.yaml), FromService)
             case CommitFailed(discarded) => !discarded && Same(before.files, after.files, CONFIG_FILE_NAME)
             case _ => false
    requires Same(before.files, after.files, d) || !SameProvider(t.prep.previous, RemoteProvider(d, url))
    requires AbsentOrFrom(after.files, d, url) || (OnDisk(before.files) == Some(Manifest(map[], map[d := url])) &&
                                                   !AbsentOrFrom(before.files, d, url))
    ensures Attempt(t, before, after)
  {
    hide Resolve, IsTempPath, BundleDeclaration, DeclarationOf, WellDeclared, PlanOf, Tame, Built, Trusted;
    OneCacheDeclared(t.prep.previous, d, url, t.bundle.yaml);
    ExtendsReflexive(map[]);
    var decl, m := BundleDeclaration(t.bundle), Manifest(map[], map[d := url]);
    assert RemoteProvider(d, url) in decl.remote;
    if AbsentOrFrom(after.files, d, url) {
      OneCacheIsBuilt(m, d, url, after);
      HonestIsTrusted(decl, after.files, after.history);
    } else {
      assert SameProvider(m, RemoteProvider(d, url));
      RefilledIsNotTrusted(decl, m, RemoteProvider(d, url), before);
    }
    assert ProviderKeys(decl) == {d};
    assert Covers(OnDisk(after.files), decl);
    OneCacheIsCanonical(after.files, d, url);
    assert Changed(t.during, PlannedPaths(t.prep.plan), t.planned, after.files) by {
      forall p | p !in PlannedPaths(t.prep.plan)
        ensures Same(before.files, after.files, p)
      {
        assert p !in OwnFiles();
      }
    }
  }

  lemma RefilledIsNotTrusted(decl: Declaration, m: Manifest, p: RemoteProvider, s: Snapshot)
    requires ValidHistory(s.history) && OnDisk(s.files) == Some(m) && p in decl.remote && SameProvider(m, p)
    requires !AbsentOrFrom(s.files, p.destination, p.url)
    ensures !Trusted(decl, s.files, s.history)
  {}

  lemma OneCacheIsCanonical(f: Files, d: string, url: string)
    requires IsKey(d) && OnDisk(f) == Some(Manifest(map[], map[d := url]))
    ensures CanonicalOnDisk(f)
  {}

  lemma OneCacheIsBuilt(m: Manifest, d: string, url: string, s: Snapshot)
    requires m == Manifest(map[], map[d := url]) && AbsentOrFrom(s.files, d, url) && s.history == map[]
    ensures Built(m, [], s.files, s.history, s.history)
  {}

  // A generation whose manifest records one cache, not there yet, and the same with the cache filled.
  function Holding(yaml: string, d: string, url: string): Snapshot {
    Snapshot(map[CONFIG_FILE_NAME := File(Yaml(yaml), FromService),
                 MANIFEST_FILE_NAME := File(ManifestText(Manifest(map[], map[d := url])), FromService)], map[])
  }

  function Filled(s: Snapshot, d: string, url: string): Snapshot {
    s.(files := s.files[d := File(Data([]), Download(url))])
  }

  function Filling(d: string, url: string): Core {
    Running(OwnFiles(), map[d := url])
  }

  lemma CacheIsFilled(s: Snapshot, d: string, url: string)
    requires s.history == map[] && d !in OwnFiles()
    ensures Step(Elapsed(Filling(d, url)), s, Filled(s, d, url))
  {
    hide IsTempPath;
    ExtendsReflexive(map[]);
  }

  function FirstStart(d: string, url: string, yaml: string): Trial {
    Trial(OneCache(d, url, yaml), Stopped, Stopped, Committed, PlanForCache(EMPTY_MANIFEST, d, url), map[])
  }

  lemma FirstStartCommits(d: string, url: string, yaml: string)
    requires IsKey(d)
    ensures Attempt(FirstStart(d, url, yaml), Snapshot(map[], map[]), Holding(yaml, d, url))
    ensures FirstStart(d, url, yaml).prep.plan.manifest.remote == map[d := url]
  {
    hide Resolve, IsTempPath, IsKey, Attempt, PlanOf, BundleDeclaration;
    KeysAreNotOwnFiles(d);
    assert MANIFEST_FILE_NAME[0] != CONFIG_FILE_NAME[0];
    OneCacheDeclared(EMPTY_MANIFEST, d, url, yaml);
    OneCacheAttempt(FirstStart(d, url, yaml), d, url, Snapshot(map[], map[]), Holding(yaml, d, url));
  }

  function FailedUpdate(d: string, oldUrl: string, newUrl: string, oldYaml: string, newYaml: string): Trial {
    Trial(OneCache(d, newUrl, newYaml), Filling(d, oldUrl), Filling(d, oldUrl), CommitFailed(false),
          PlanForCache(Manifest(map[], map[d := oldUrl]), d, newUrl),
          Filled(Holding(oldYaml, d, oldUrl), d, oldUrl).files)
  }

  lemma UpdateFails(d: string, oldUrl: string, newUrl: string, oldYaml: string, newYaml: string)
    requires IsKey(d) && oldUrl != newUrl
    ensures Attempt(FailedUpdate(d, oldUrl, newUrl, oldYaml, newYaml), Filled(Holding(oldYaml, d, oldUrl), d, oldUrl),
                    Holding(oldYaml, d, newUrl))
  {
    hide Resolve, IsTempPath, IsKey, Attempt, PlanOf, BundleDeclaration;
    KeysAreNotOwnFiles(d);
    assert MANIFEST_FILE_NAME[0] != CONFIG_FILE_NAME[0];
    OneCacheAttempt(FailedUpdate(d, oldUrl, newUrl, oldYaml, newYaml), d, newUrl,
                    Filled(Holding(oldYaml, d, oldUrl), d, oldUrl), Holding(oldYaml, d, newUrl));
  }

  function Retry(d: string, oldUrl: string, newUrl: string, oldYaml: string, newYaml: string): Trial {
    Trial(OneCache(d, newUrl, newYaml), Filling(d, oldUrl), Stopped, Committed,
          PlanForCache(Manifest(map[], map[d := newUrl]), d, newUrl),
          Filled(Holding(oldYaml, d, newUrl), d, oldUrl).files)
  }

  lemma RetryKeepsTheOldCache(d: string, oldUrl: string, newUrl: string, oldYaml: string, newYaml: string)
    requires IsKey(d) && oldUrl != newUrl
    ensures var before := Filled(Holding(oldYaml, d, newUrl), d, oldUrl);
            var after := Filled(Holding(newYaml, d, newUrl), d, oldUrl);
            && Attempt(Retry(d, oldUrl, newUrl, oldYaml, newYaml), before, after)
            && !LikeFromScratch(OneCache(d, newUrl, newYaml), before, after)
  {
    hide Resolve, IsTempPath, IsKey, Attempt, PlanOf, BundleDeclaration, LikeFromScratch;
    KeysAreNotOwnFiles(d);
    assert MANIFEST_FILE_NAME[0] != CONFIG_FILE_NAME[0];
    var before, after := Filled(Holding(oldYaml, d, newUrl), d, oldUrl), Filled(Holding(newYaml, d, newUrl), d, oldUrl);
    OneCacheAttempt(Retry(d, oldUrl, newUrl, oldYaml, newYaml), d, newUrl, before, after);
    OneCacheDeclared(Manifest(map[], map[d := newUrl]), d, newUrl, newYaml);
    assert RemoteProvider(d, newUrl) in BundleDeclaration(OneCache(d, newUrl, newYaml)).remote;
    WrongCacheSurvives(Retry(d, oldUrl, newUrl, oldYaml, newYaml), before, after, RemoteProvider(d, newUrl), oldUrl);
  }

  /**
   A manifest left behind. A start gives the core a cache from one URL. An update to another URL discards the cache
   and writes its manifest, but not its configuration, and cannot discard the manifest. The core, still on the old
   configuration, fills the cache again. The next start of the new bundle finds the new URL recorded, keeps the
   cache, and commits. Every core alive runs the configuration on disk, and the bundle that failed is retried.
   */
  lemma OldCacheUnderNewUrl(d: string, oldUrl: string, newUrl: string, oldYaml: string, newYaml: string)
    returns (r: Run)
    requires IsKey(d) && oldUrl != newUrl
    ensures IsRun(r) && |r.events| == 5 && r.moments[0] == Snapshot(map[], map[])
    ensures Commits(r.events[0]) && r.events[0].trial.bundle == OneCache(d, oldUrl, oldYaml)
    ensures r.events[2].Attempted? && r.events[2].trial.outcome == CommitFailed(false)
    ensures r.events[2].trial.bundle == OneCache(d, newUrl, newYaml)
    ensures Commits(r.events[4]) && r.events[4].trial.bundle == OneCache(d, newUrl, newYaml)
    ensures forall i | i in {1, 3} :: r.events[i].Elapsed? && r.events[i].core.Running? &&
              Serves(r.events[i].core, ConfiguredUrls(r.events[..i], map[]), {d} + OwnFiles())
    ensures forall i | i in {2, 4} :: r.events[i].Attempted? && r.events[i].trial.outgoing.Running? &&
              Serves(r.events[i].trial.outgoing, ConfiguredUrls(r.events[..i], map[]), {d} + OwnFiles())
    ensures r.events[2].trial.during == r.events[2].trial.outgoing && r.events[4].trial.during.Stopped?
    ensures ValidHistory(r.moments[5].history) && !LikeFromScratch(r.events[4].trial.bundle, r.moments[4], r.moments[5])
  {
    hide Resolve, IsTempPath, IsKey, Attempt, OneCache, PlanForCache, BundleDeclaration, LikeFromScratch, Changed;
    KeysAreNotOwnFiles(d);
    var core := Filling(d, oldUrl);
    var first, second := FirstStart(d, oldUrl, oldYaml), FailedUpdate(d, oldUrl, newUrl, oldYaml, newYaml);
    var s1, s3 := Holding(oldYaml, d, oldUrl), Holding(oldYaml, d, newUrl);
    var s2, s4, s5 := Filled(s1, d, oldUrl), Filled(s3, d, oldUrl), Filled(Holding(newYaml, d, newUrl), d, oldUrl);
    var third := Retry(d, oldUrl, newUrl, oldYaml, newYaml);
    r := Run([Snapshot(map[], map[]), s1, s2, s3, s4, s5],
             [Attempted(first), Elapsed(core), Attempted(second), Elapsed(core), Attempted(third)]);
    FirstStartCommits(d, oldUrl, oldYaml);
    CacheIsFilled(s1, d, oldUrl);
    UpdateFails(d, oldUrl, newUrl, oldYaml, newYaml);
    CacheIsFilled(s3, d, oldUrl);
    RetryKeepsTheOldCache(d, oldUrl, newUrl, oldYaml, newYaml);
    OldUrlIsConfigured(r.events, first, core, second);
  }

  lemma OldUrlIsConfigured(events: seq<Event>, first: Trial, core: Core, second: Trial)
    requires |events| == 5 && events[0] == Attempted(first) && events[1] == Elapsed(core)
    requires events[2] == Attempted(second)
    requires first.outcome.Committed? && !second.outcome.Committed?
    requires events[3] == Elapsed(core)
    ensures forall i | 1 <= i <= 4 :: ConfiguredUrls(events[..i], map[]) == first.prep.plan.manifest.remote
  {
    var urls := first.prep.plan.manifest.remote;
    PrefixStep(events, 0);
    assert ConfiguredUrls(events[..1], map[]) == urls;
    PrefixStep(events, 1);
    assert ConfiguredUrls(events[..2], map[]) == urls;
    PrefixStep(events, 2);
    assert ConfiguredUrls(events[..3], map[]) == urls;
    PrefixStep(events, 3);
    assert ConfiguredUrls(events[..4], map[]) == urls;
  }
}
