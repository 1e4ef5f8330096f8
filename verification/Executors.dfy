/**
 The two executors of a staging plan: a start rebuilds the generation once the core has stopped
 (`plan_runtime_refresh`, `materialize_plan`), staging updates it under a running core (`stage_runtime`).
 Whatever cores are alive meanwhile, all that is asked of them is that they leave the configuration and the
 manifest alone. What an attempt is worth then depends on what else they leave alone, and every contract here
 says how.
 */
module Executors {
  import opened Wrappers
  import opened Names
  import opened StringOrder
  import opened StagePlan
  import opened Bundle
  import opened GenerationDisk
  import opened GenerationFiles
  import opened RefreshRules

  /** The copy loop of `materialize_plan`: a source that moved meanwhile loses its manifest entry. */
  method CopyRecordingProofs(g: Generation, copies: seq<PlannedCopy>, target: Manifest, core: Core,
                             faults: Faults)
    returns (ok: bool, manifest: Manifest, ghost done: nat, ghost begun: seq<History>)
    requires g.Valid() && DistinctCopies(copies) && forall c | c in copies :: CopyReady(c)
    requires forall c | c in copies && c.identity.mtime.Some? :: Seen(g.history, c.identity)
    modifies g
    ensures g.Valid() && Progress(copies, done, core, old(g.files), old(g.history), g.files, g.history)
    ensures ok ==> done == |copies|
    ensures ok ==>
              forall c | c in copies && c.destination in manifest.assets ::
                RecordedIfSpared(core, c, g.files, g.history)
    ensures Without(target, manifest, Destinations(copies))
    ensures ok ==> KeepsProofs(copies, target, manifest, old(g.history), g.history, faults.unreadable)
    ensures During(begun, old(g.history), g.history)
    ensures if ok then AllCopyable(copies, faults, begun) else BrokeOff(copies, faults, begun)
  {
    hide Resolve, IsTempPath, Changed, Copied, MadeFrom, Seen, CopyReady, HeldStill, CopiedIfSpared, RecordedIfSpared,
         Copyable, During, AllCopyable, BrokeOff, Moved, Proven, KeepsProofs, Without;
    manifest, done, begun := target, 0, [];
    NothingBegun(copies, faults);
    NoMoments(g.history, g.history);
    ghost var f0, h0 := g.files, g.history;
    NothingCopied(copies, core, f0, h0);
    NothingProven(copies, target, core, h0, f0, faults.unreadable);
    for i := 0 to |copies|
      invariant g.Valid() && done == i && Progress(copies, i, core, f0, h0, g.files, g.history)
      invariant Proven(copies, i, target, manifest, core, h0, g.files, g.history, faults.unreadable)
      invariant During(begun, h0, g.history) && AllCopyable(copies[..i], faults, begun)
    {
      ghost var f, h := g.files, g.history;
      assert copies[i] in copies;
      NextCopy(copies, i, h0, h);
      var copied, changed, moment := g.CopyAndCheck(copies[i], core, faults.broken, faults.unreadable);
      OneMoreCopy(copies, i, copied, core, f0, h0, f, h, g.files, g.history);
      OneMoreMoment(begun, h0, h, moment, g.history);
      OneMoreBegun(copies, i, faults, begun, moment);
      begun := begun + [moment];
      if !copied {
        ProvenIsWithin(copies, i, target, manifest, core, h0, f, h, faults.unreadable);
        return false, manifest, i, begun;
      }
      OneMoreProven(copies, i, target, manifest, core, h0, f, h, g.files, g.history, faults.unreadable);
      if changed {
        manifest := manifest.(assets := manifest.assets - {copies[i].destination});
      }
      done := i + 1;
    }
    assert copies[..|copies|] == copies;
    ProvenIsWithin(copies, |copies|, target, manifest, core, h0, g.files, g.history, faults.unreadable);
    AllProven(copies, target, manifest, core, h0, g.files, g.history, faults.unreadable);
    ok := true;
  }

  /** The copy loop of `stage_runtime`: a source that moved meanwhile ends the attempt. */
  method CopyOrAbort(g: Generation, copies: seq<PlannedCopy>, core: Core, faults: Faults)
    returns (ok: bool, ghost done: nat, ghost begun: seq<History>, ghost checked: seq<History>)
    requires g.Valid() && DistinctCopies(copies) && forall c | c in copies :: CopyReady(c)
    requires forall c | c in copies && c.identity.mtime.Some? :: Seen(g.history, c.identity)
    modifies g
    ensures g.Valid() && Progress(copies, done, core, old(g.files), old(g.history), g.files, g.history)
    ensures ok ==> done == |copies| && forall c | c in copies :: RecordedIfSpared(core, c, g.files, g.history)
    ensures During(begun, old(g.history), g.history) && During(checked, old(g.history), g.history)
    ensures if ok then AllCopyable(copies, faults, begun) && NoneMoved(copies, faults, checked)
            else BrokeOff(copies, faults, begun) || MovedOff(copies, faults, checked)
  {
    hide Resolve, IsTempPath, Changed, Copied, MadeFrom, Seen, CopyReady, CopiedIfSpared, RecordedIfSpared,
         Copyable, Moved, During, AllCopyable, BrokeOff, NoneMoved, MovedOff;
    done, begun, checked := 0, [], [];
    NothingBegun(copies, faults);
    NoMoments(g.history, g.history);
    ghost var f0, h0 := g.files, g.history;
    NothingCopied(copies, core, f0, h0);
    for i := 0 to |copies|
      invariant g.Valid() && done == i && Progress(copies, i, core, f0, h0, g.files, g.history)
      invariant forall j | 0 <= j < i :: RecordedIfSpared(core, copies[j], g.files, g.history)
      invariant During(begun, h0, g.history) && During(checked, h0, g.history)
      invariant AllCopyable(copies[..i], faults, begun) && NoneMoved(copies[..i], faults, checked)
    {
      ghost var f, h := g.files, g.history;
      assert copies[i] in copies;
      NextCopy(copies, i, h0, h);
      var copied, changed, moment := g.CopyAndCheck(copies[i], core, faults.broken, faults.unreadable);
      OneMoreCopy(copies, i, copied, core, f0, h0, f, h, g.files, g.history);
      OneMoreMoment(begun, h0, h, moment, g.history);
      OneMoreBegun(copies, i, faults, begun, moment);
      begun := begun + [moment];
      OneMoreMoment(checked, h0, h, g.history, g.history);
      if !copied {
        return false, i, begun, checked;
      }
      OneMoreChecked(copies, i, faults, checked, g.history);
      checked := checked + [g.history];
      if changed {
        return false, i + 1, begun, checked;
      }
      StillRecorded(copies, i, core, f, h, g.files, g.history);
      done := i + 1;
    }
    assert copies[..|copies|] == copies;
    ok := true;
  }

  /** The commit both executors share: manifest, configuration, and on failure the discard of the manifest. */
  method Commit(g: Generation, prep: Prepared, manifest: Manifest, yaml: string, core: Core, faults: Faults,
                ghost sound: bool, ghost g0: History, ghost f0: Files)
    returns (outcome: Outcome)
    requires g.Valid() && InPlace(prep, sound, manifest, core, g0, f0, g.files, g.history)
    modifies g
    ensures g.Valid() && Extends(old(g.history), g.history)
    ensures outcome == if OwnFiles() !! faults.broken then Committed
                       else CommitFailed(MANIFEST_FILE_NAME !in faults.stuck)
    ensures Leaves(sound, Tame(core, prep.plan.manifest), DeclarationOf(prep.sources, prep.remote), prep.sources, yaml,
                   outcome, g0, f0, g.files, g.history)
    ensures outcome.Committed? ==> OnDisk(g.files) == Some(manifest)
    ensures Changed(core, OwnFiles(), old(g.files), g.files)
  {
    hide Resolve, IsTempPath, Changed, Trusted, Built, Canonical, InPlace, Tame;
    CoreSparesOwnFiles(prep, sound, manifest, core, g0, f0, g.files, g.history);
    assert OwnFiles() == {MANIFEST_FILE_NAME, CONFIG_FILE_NAME};
    var committed := g.CommitStagedConfig(manifest, yaml, core, faults.broken);
    AfterCommit(prep, sound, manifest, yaml, core, committed, g0, f0, old(g.files), old(g.history), g.files, g.history);
    if committed {
      return Committed;
    }
    ghost var failed := g.files;
    var discarded := g.RemoveStagedFile(MANIFEST_FILE_NAME, faults.stuck);
    AlsoWrote(core, OwnFiles(), {MANIFEST_FILE_NAME}, old(g.files), failed, g.files);
    if discarded {
      NoManifestIsTrusted(DeclarationOf(prep.sources, prep.remote), g.files, g.history);
    }
    outcome := CommitFailed(discarded);
  }

  /** The sweep after a commit. */
  method Sweep(g: Generation, prep: Prepared, ghost manifest: Manifest, ghost yaml: string, core: Core,
               stuck: set<string>, ghost sound: bool, ghost g0: History, ghost f0: Files, ghost f: Files,
               ghost h: History)
    requires ValidHistory(h) && InPlace(prep, sound, manifest, core, g0, f0, f, h)
    requires g.Valid() && Extends(h, g.history) && OnDisk(g.files) == Some(manifest)
    requires Leaves(sound, Tame(core, prep.plan.manifest), DeclarationOf(prep.sources, prep.remote), prep.sources, yaml,
                    Committed, g0, f0, g.files, g.history)
    modifies g
    ensures g.Valid() && Extends(old(g.history), g.history)
    ensures OnDisk(g.files) == Some(manifest)
    ensures Leaves(sound, Tame(core, prep.plan.manifest), DeclarationOf(prep.sources, prep.remote), prep.sources, yaml,
                   Committed, g0, f0, g.files, g.history)
    ensures Changed(core, Sweepable(prep.plan.hygieneDeletes), old(g.files), g.files)
    ensures Swept(prep.plan.hygieneDeletes, core, stuck, g.files)
  {
    hide Resolve, IsTempPath, Changed, InPlace, Leaves, Tame;
    InPlaceFacts(prep, sound, manifest, core, g0, f0, f, h);
    g.SweepObsolete(prep.plan.hygieneDeletes, core, stuck);
    AfterSweep(prep, sound, manifest, yaml, core, g0, f0, f, h, old(g.files), old(g.history), g.files, g.history);
  }

  /** `materialize_plan`. It is meant to be called while no core is alive, which is `core` being `Stopped`. */
  method MaterializePlan(g: Generation, prep: Prepared, yaml: string, core: Core, faults: Faults,
                         ghost sound: bool, ghost g0: History)
    returns (outcome: Outcome, ghost begun: seq<History>)
    requires g.Valid() && Ready(prep, sound, g.files, g0, g.history) && Heeds(prep, sound, core, g.files)
    modifies g
    ensures !outcome.Refused? && g.Valid() && Extends(old(g.history), g.history)
    ensures Leaves(sound, Tame(core, prep.plan.manifest), DeclarationOf(prep.sources, prep.remote), prep.sources, yaml,
                   outcome, g0, old(g.files), g.files, g.history)
    ensures Changed(core, PlannedPaths(prep.plan), old(g.files), g.files)
    ensures Tidied(prep.plan, outcome, core, faults.stuck, g.files)
    ensures outcome.Committed? ==> OnDisk(g.files).Some?
    ensures outcome.Committed? ==>
              KeepsProofs(prep.plan.copies, prep.plan.manifest, OnDisk(g.files).value, old(g.history), g.history,
                          faults.unreadable)
    ensures During(begun, old(g.history), g.history) && Materializes(prep.plan, faults, begun, outcome)
  {
    hide Resolve, IsTempPath, HeldStill, Ready, InPlace, Leaves, PlanOf, Changed, Without, WellDeclared, Tame, Heeds,
         AllCopyable, BrokeOff, During;
    ghost var f0, h0 := g.files, g.history;
    PlanIsExecutable(prep, sound, f0, g0, h0);
    var deleted, n := g.DiscardStaleCaches(prep.plan.requiredDeletes, core, faults.stuck);
    ghost var f1, h1 := g.files, g.history;
    if !deleted {
      NothingCopied(prep.plan.copies, core, f1, h1);
      InterruptedKeepsTrust(prep, sound, Tame(core, prep.plan.manifest), yaml, core, n, 0, g0, f0, h0, f1, h1, f1, h1);
      WithinPlan(core, prep.plan, n, 0, f0, f1, h1, f1, h1);
      NoMoments(h0, h1);
      return Interrupted, [];
    }
    assert prep.plan.requiredDeletes[..n] == prep.plan.requiredDeletes;
    StillSeen(prep.plan.copies, h0, h1);
    var copied, manifest, done, moments := CopyRecordingProofs(g, prep.plan.copies, prep.plan.manifest, core, faults);
    begun := moments;
    ghost var f2, h2 := g.files, g.history;
    ExtendsReflexive(h2);
    DuringLater(begun, h0, h1, h2, h2);
    WithinPlan(core, prep.plan, n, done, f0, f1, h1, f2, h2);
    if !copied {
      InterruptedKeepsTrust(prep, sound, Tame(core, prep.plan.manifest), yaml, core, n, done, g0, f0, h0, f1, h1, f2,
                            h2);
      NotAll(prep.plan.copies, faults, begun, []);
      return Interrupted, begun;
    }
    AllCopiedIsInPlace(prep, sound, manifest, core, g0, f0, h0, f1, h1, f2, h2);
    KeepsProofsSince(prep.plan.copies, prep.plan.manifest, manifest, h0, h1, h2, faults.unreadable);
    outcome := Commit(g, prep, manifest, yaml, core, faults, sound, g0, f0);
    ghost var f3, h3 := g.files, g.history;
    ChangedWithin(core, PlannedPaths(prep.plan), OwnFiles(), PlannedPaths(prep.plan), f0, f2, f3);
    ExtendsTransitive(h0, h1, h2);
    ExtendsTransitive(h0, h2, g.history);
    if outcome.Committed? {
      Sweep(g, prep, manifest, yaml, core, faults.stuck, sound, g0, f0, f2, h2);
      ExtendsTransitive(h2, h3, g.history);
      KeepsProofsLater(prep.plan.copies, prep.plan.manifest, manifest, h0, h2, g.history, faults.unreadable);
      ChangedWithin(core, PlannedPaths(prep.plan), Sweepable(prep.plan.hygieneDeletes), PlannedPaths(prep.plan),
                    f0, f3, g.files);
      ExtendsTransitive(h0, h3, g.history);
    } else {
      ExtendsReflexive(g.history);
    }
    ExtendsReflexive(h0);
    DuringLater(begun, h0, h0, h2, g.history);
  }

  /** The part of `stage_runtime` after planning: carries out a plan under the running core. */
  method StagePlanned(g: Generation, prep: Prepared, yaml: string, core: Core, faults: Faults, restarted: bool,
                      ghost sound: bool, ghost g0: History)
    returns (outcome: Outcome, ghost begun: seq<History>, ghost checked: seq<History>)
    requires g.Valid() && Ready(prep, sound, g.files, g0, g.history) && Heeds(prep, sound, core, g.files)
    requires OnDisk(g.files) == Some(prep.previous)
    modifies g
    ensures !outcome.Refused? && g.Valid() && Extends(old(g.history), g.history)
    ensures Leaves(sound, Tame(core, prep.plan.manifest), DeclarationOf(prep.sources, prep.remote), prep.sources, yaml,
                   outcome, g0, old(g.files), g.files, g.history)
    ensures outcome.Committed? ==> OnDisk(g.files) == Some(prep.plan.manifest)
    ensures Changed(core, PlannedPaths(prep.plan), old(g.files), g.files)
    ensures Tidied(prep.plan, outcome, core, faults.stuck, g.files)
    ensures During(begun, old(g.history), g.history) && During(checked, old(g.history), g.history)
    ensures Stages(prep.plan, faults, restarted, begun, checked, outcome)
  {
    hide Resolve, IsTempPath, Ready, InPlace, Leaves, PlanOf, Changed, Without, WellDeclared, Tame, Heeds,
         AllCopyable, BrokeOff, NoneMoved, MovedOff, During;
    ghost var f0, h0 := g.files, g.history;
    PlanIsExecutable(prep, sound, f0, g0, h0);
    var deleted, n := g.DiscardStaleCaches(prep.plan.requiredDeletes, core, faults.stuck);
    ghost var f1, h1 := g.files, g.history;
    if !deleted {
      NothingCopied(prep.plan.copies, core, f1, h1);
      InterruptedKeepsTrust(prep, sound, Tame(core, prep.plan.manifest), yaml, core, n, 0, g0, f0, h0, f1, h1, f1, h1);
      WithinPlan(core, prep.plan, n, 0, f0, f1, h1, f1, h1);
      NoMoments(h0, h1);
      return Interrupted, [], [];
    }
    assert prep.plan.requiredDeletes[..n] == prep.plan.requiredDeletes;
    StillSeen(prep.plan.copies, h0, h1);
    var copied, done, opening, checking := CopyOrAbort(g, prep.plan.copies, core, faults);
    begun, checked := opening, checking;
    ghost var f2, h2 := g.files, g.history;
    WithinPlan(core, prep.plan, n, done, f0, f1, h1, f2, h2);
    ExtendsTransitive(h0, h1, h2);
    ExtendsReflexive(h2);
    DuringLater(begun, h0, h1, h2, h2);
    DuringLater(checked, h0, h1, h2, h2);
    if !copied {
      InterruptedKeepsTrust(prep, sound, Tame(core, prep.plan.manifest), yaml, core, n, done, g0, f0, h0, f1, h1, f2,
                            h2);
      NotAll(prep.plan.copies, faults, begun, checked);
      return Interrupted, begun, checked;
    }
    WholeManifest(prep.plan.manifest, Destinations(prep.plan.copies));
    AllCopiedIsInPlace(prep, sound, prep.plan.manifest, core, g0, f0, h0, f1, h1, f2, h2);
    CommitIsNext(prep, sound, prep.plan.manifest, core, yaml, g0, f0, f2, h2);
    // The watchdog may have replaced the core meanwhile; then nothing is committed.
    if restarted {
      return Interrupted, begun, checked;
    }
    outcome := Commit(g, prep, prep.plan.manifest, yaml, core, faults, sound, g0, f0);
    ghost var f3, h3 := g.files, g.history;
    ChangedWithin(core, PlannedPaths(prep.plan), OwnFiles(), PlannedPaths(prep.plan), f0, f2, f3);
    ExtendsTransitive(h0, h2, g.history);
    if outcome.Committed? {
      Sweep(g, prep, prep.plan.manifest, yaml, core, faults.stuck, sound, g0, f0, f2, h2);
      ChangedWithin(core, PlannedPaths(prep.plan), Sweepable(prep.plan.hygieneDeletes), PlannedPaths(prep.plan), f0, f3,
                    g.files);
      ExtendsTransitive(h0, h3, g.history);
      ExtendsTransitive(h2, h3, g.history);
    }
    ExtendsReflexive(h0);
    DuringLater(begun, h0, h0, h2, g.history);
    DuringLater(checked, h0, h0, h2, g.history);
  }

  /** The inspection of the sources inside `gather_bundle`. */
  method ProbeSources(g: Generation, assets: seq<DeclaredAsset>, core: Core, faults: Faults)
    returns (probes: seq<Probe>, ghost probed: seq<History>)
    requires g.Valid()
    modifies g`history, g`files
    ensures g.Valid() && Extends(old(g.history), g.history) && Changed(core, {}, old(g.files), g.files)
    ensures |probes| == |probed| == |assets| && During(probed, old(g.history), g.history)
    ensures forall i | 0 <= i < |assets| ::
              ValidHistory(probed[i]) && probes[i] == ProbeAt(assets[i].source, faults, probed[i])
    ensures forall i | 0 <= i < |assets| && probes[i].Found? ::
              Statted(SourceIdentity(assets[i].source, probes[i].len, probes[i].mtime), old(g.history), g.history)
  {
    hide Resolve, IsTempPath, Changed, Extends, Current, During, Statted;
    probes, probed := [], [];
    ghost var f0, h0 := g.files, g.history;
    ExtendsReflexive(h0);
    ChangedReflexive(core, f0);
    assert During(probed, h0, h0) by { NoMoments(h0, h0); }
    for i := 0 to |assets|
      invariant g.Valid() && Extends(h0, g.history) && Changed(core, {}, f0, g.files)
      invariant |probes| == |probed| == i && During(probed, h0, g.history)
      invariant forall j | 0 <= j < i ::
                  ValidHistory(probed[j]) && probes[j] == ProbeAt(assets[j].source, faults, probed[j])
    {
      ghost var f, h := g.files, g.history;
      g.Elapse(core);
      ChangedTransitive(core, {}, {}, f0, f, g.files);
      var none: set<string> := {};
      assert none + none == none;
      ExtendsTransitive(h0, h, g.history);
      ExtendsReflexive(g.history);
      OneMoreMoment(probed, h0, h, g.history, g.history);
      probed := probed + [g.history];
      var found := Current(g.history, assets[i].source);
      var probe := if assets[i].source in faults.rejected || found.Gone? then Rejected
                   else if assets[i].source in faults.hidden then Unreadable
                   else Found(|found.bytes|, found.mtime);
      probes := probes + [probe];
    }
    forall i | 0 <= i < |assets| && probes[i].Found?
      ensures Statted(SourceIdentity(assets[i].source, probes[i].len, probes[i].mtime), h0, g.history)
    {
      ProbedIsStatted(assets[i].source, faults, probed, i, h0, g.history);
    }
  }

  /** `gather_bundle`, under whatever else is going on. */
  method Gather(g: Generation, bundle: RuntimeBundle, core: Core, faults: Faults)
    returns (r: Result<Gathered, BundleError>, ghost probed: seq<History>)
    requires g.Valid()
    modifies g`history, g`files
    ensures g.Valid() && Extends(old(g.history), g.history) && Changed(core, {}, old(g.files), g.files)
    ensures During(probed, old(g.history), g.history) && |probed| == |bundle.assets|
    ensures r.Ok? <==> Gathers(bundle, faults, probed)
    ensures r.Ok? ==> GatheredAs(bundle, faults, probed, r.value.sources)
    ensures r.Ok? ==>
              && WellDeclared(r.value.sources, r.value.remote)
              && ProperDeclaration(BundleDeclaration(bundle))
              && DeclarationOf(r.value.sources, r.value.remote) == BundleDeclaration(bundle)
              && (forall s | s in r.value.sources :: Statted(s.Identity(), old(g.history), g.history))
  {
    hide Resolve, IsTempPath, Changed, Extends, Statted, ProbeAt;
    var probes, moments := ProbeSources(g, bundle.assets, core, faults);
    probed := moments;
    r := GatherBundle(bundle.assets, probes, bundle.providers);
    assert (forall probe | probe in probes :: probe.Found?) <==> forall i | 0 <= i < |probes| :: probes[i].Found?;
    if r.Ok? {
      GatheredFacts(bundle, probes, r.value, old(g.history), g.history);
    }
  }

  /** `read_manifest`: a missing file is an empty manifest, one that does not parse is an error. */
  method ReadManifest(g: Generation, readable: bool) returns (r: Option<Manifest>)
    ensures r == if readable then OnDisk(g.files) else None
    ensures r.Some? <==>
              readable && (MANIFEST_FILE_NAME in g.files ==> g.files[MANIFEST_FILE_NAME].content.ManifestText?)
    ensures r.Some? ==>
              r.value == if MANIFEST_FILE_NAME in g.files then g.files[MANIFEST_FILE_NAME].content.manifest
                         else EMPTY_MANIFEST
  {
    r := if readable then OnDisk(g.files) else None;
  }

  // Gathering and planning, shared by `plan_runtime_refresh` and `stage_runtime`: nothing is written.
  method PlanRefresh(g: Generation, bundle: RuntimeBundle, core: Core, faults: Faults, ghost sound: bool)
    returns (r: Result<Prepared, BundleError>, disk: Option<Manifest>, ghost probed: seq<History>)
    requires g.Valid() && CanonicalOnDisk(g.files) && Spares(core, OwnFiles())
    requires sound ==>
               && Trusted(BundleDeclaration(bundle), g.files, g.history)
               && Respects(core, BundleDeclaration(bundle), OnDisk(g.files))
    modifies g`history, g`files
    ensures g.Valid() && Extends(old(g.history), g.history) && Changed(core, {}, old(g.files), g.files)
    ensures Same(old(g.files), g.files, CONFIG_FILE_NAME) && Same(old(g.files), g.files, MANIFEST_FILE_NAME)
    ensures sound ==> Trusted(BundleDeclaration(bundle), g.files, g.history)
    ensures r.Ok? ==>
              && Ready(r.value, sound, g.files, old(g.history), g.history)
              && DeclarationOf(r.value.sources, r.value.remote) == BundleDeclaration(bundle)
              && disk == (if faults.manifestReadable then OnDisk(old(g.files)) else None)
              && r.value.previous == (if disk.Some? then disk.value else EMPTY_MANIFEST)
    ensures During(probed, old(g.history), g.history) && |probed| == |bundle.assets|
    ensures r.Ok? <==> Gathers(bundle, faults, probed)
    ensures r.Ok? ==> GatheredAs(bundle, faults, probed, r.value.sources)
  {
    hide Resolve, IsTempPath, Ready, Respects, Trusted, Gathers, GatheredAs, During;
    var decl := BundleDeclaration(bundle);
    ghost var f0, g0 := g.files, g.history;
    disk := None;
    BundleIsKeyed(bundle);
    var gathered, moments := Gather(g, bundle, core, faults);
    probed := moments;
    CoreKeepsTrust(core, decl, f0, g0, g.files, g.history);
    if gathered.Err? {
      return Err(gathered.error), disk, probed;
    }
    disk := ReadManifest(g, faults.manifestReadable);
    // A corrupt manifest must not prevent a restart: nothing it says is used.
    var previous := if disk.Some? then disk.value else EMPTY_MANIFEST;
    var plan := PlanStage(previous, gathered.value.sources, gathered.value.remote);
    var prep := Prepared(previous, gathered.value.sources, gathered.value.remote, plan);
    GatheredIsReady(decl, prep, sound, core, g0, f0, g.files, g.history);
    r := Ok(prep);
  }

  /**
   A start: `prepare_runtime` while the `outgoing` core may still run, then, once the service has stopped what it
   runs, `materialize`. `during` is whatever core is alive at that point all the same.
   */
  method Start(g: Generation, bundle: RuntimeBundle, outgoing: Core, during: Core, faults: Faults)
    returns (outcome: Outcome, prep: Prepared, ghost planned: Files, ghost log: Log)
    requires g.Valid() && CanonicalOnDisk(g.files) && Spares(outgoing, OwnFiles()) && Spares(during, OwnFiles())
    modifies g
    ensures g.Valid()
    ensures Attempt(Trial(bundle, outgoing, during, outcome, prep, planned),
                    Snapshot(old(g.files), old(g.history)), Snapshot(g.files, g.history))
    ensures Tidied(prep.plan, outcome, during, faults.stuck, g.files)
    ensures outcome.Committed? && AllHeldStill(prep.sources, old(g.history), g.history, faults.unreadable) ==>
              OnDisk(g.files) == Some(prep.plan.manifest)
    // What comes of it is decided by what is in the way, and by nothing else.
    ensures During(log.probed, old(g.history), g.history) && |log.probed| == |bundle.assets|
    ensures During(log.begun, old(g.history), g.history)
    ensures !outcome.Refused? <==> Gathers(bundle, faults, log.probed)
    ensures !outcome.Refused? ==>
              && GatheredAs(bundle, faults, log.probed, prep.sources)
              && prep.previous == (if faults.manifestReadable && OnDisk(old(g.files)).Some?
                                   then OnDisk(old(g.files)).value else EMPTY_MANIFEST)
              && Materializes(prep.plan, faults, log.begun, outcome)
  {
    hide Resolve, IsTempPath, Ready, Changed, Trusted, Respects, Leaves, Gathers, GatheredAs, Materializes, During,
         AllHeldStill;
    ghost var before := Snapshot(g.files, g.history);
    ghost var sound := Warranted(Trial(bundle, outgoing, during, Refused, NO_PLAN, g.files), before);
    var r, _, probed := PlanRefresh(g, bundle, outgoing, faults, sound);
    ExtendsReflexive(before.history);
    if r.Err? {
      RefusedLeaves(Trial(bundle, outgoing, during, Refused, NO_PLAN, g.files), before, Snapshot(g.files, g.history));
      NoMoments(before.history, g.history);
      return Refused, NO_PLAN, g.files, Log(probed, [], []);
    }
    prep := r.value;
    ReadyFacts(prep, sound, g.files, before.history, g.history);
    // The outgoing core runs until it is stopped.
    ghost var prepared := Snapshot(g.files, g.history);
    OutgoingCore(g, prep, outgoing, sound, before.history);
    ChangedWithin(outgoing, {}, {}, {}, before.files, prepared.files, g.files);
    ExtendsTransitive(before.history, prepared.history, g.history);
    planned := g.files;
    ghost var h := g.history;
    var result, begun := MaterializePlan(g, prep, bundle.yaml, during, faults, sound, before.history);
    outcome, log := result, Log(probed, begun, []);
    ExtendsTransitive(prepared.history, h, g.history);
    DuringLater(probed, before.history, before.history, prepared.history, g.history);
    ExtendsReflexive(g.history);
    DuringLater(begun, before.history, h, g.history, g.history);
    if outcome.Committed? && AllHeldStill(prep.sources, before.history, g.history, faults.unreadable) {
      AllProofsKept(prep, sound, OnDisk(g.files).value, planned, before.history, h, g.history, faults.unreadable);
    }
    AttemptOf(Trial(bundle, outgoing, during, outcome, prep, planned), before, h, Snapshot(g.files, g.history));
  }

  // Between planning and materializing, the outgoing core runs on.
  method OutgoingCore(g: Generation, prep: Prepared, core: Core, ghost sound: bool, ghost g0: History)
    requires g.Valid() && Ready(prep, sound, g.files, g0, g.history) && Heeds(prep, sound, core, g.files)
    modifies g`history, g`files
    ensures g.Valid() && Extends(old(g.history), g.history) && Ready(prep, sound, g.files, g0, g.history)
    ensures Same(old(g.files), g.files, CONFIG_FILE_NAME) && Same(old(g.files), g.files, MANIFEST_FILE_NAME)
    ensures Changed(core, {}, old(g.files), g.files)
  {
    hide Resolve, IsTempPath, Changed, Respects;
    g.Elapse(core);
    ReadyLater(core, prep, sound, old(g.files), g0, old(g.history), g.files, g.history);
    CoreKeepsTrust(core, DeclarationOf(prep.sources, prep.remote), old(g.files), old(g.history), g.files, g.history);
  }

  /** `stage_runtime`, once the core is known to run the requested binary. */
  method Stage(g: Generation, bundle: RuntimeBundle, core: Core, faults: Faults, restarted: bool)
    returns (outcome: Outcome, prep: Prepared, ghost planned: Files, ghost log: Log)
    requires g.Valid() && CanonicalOnDisk(g.files) && Spares(core, OwnFiles())
    modifies g
    ensures g.Valid()
    ensures Attempt(Trial(bundle, core, core, outcome, prep, planned),
                    Snapshot(old(g.files), old(g.history)), Snapshot(g.files, g.history))
    ensures Tidied(prep.plan, outcome, core, faults.stuck, g.files)
    ensures outcome.Committed? ==> OnDisk(g.files) == Some(prep.plan.manifest)
    // What comes of it is decided by what is in the way, and by nothing else.
    ensures During(log.probed, old(g.history), g.history) && |log.probed| == |bundle.assets|
    ensures During(log.begun, old(g.history), g.history) && During(log.checked, old(g.history), g.history)
    ensures !outcome.Refused? <==>
              Gathers(bundle, faults, log.probed) && faults.manifestReadable && OnDisk(old(g.files)).Some?
    ensures !outcome.Refused? ==>
              && GatheredAs(bundle, faults, log.probed, prep.sources)
              && OnDisk(old(g.files)) == Some(prep.previous)
              && Stages(prep.plan, faults, restarted, log.begun, log.checked, outcome)
  {
    hide Resolve, IsTempPath, Ready, Changed, Trusted, Respects, Leaves, Gathers, GatheredAs, Stages, During;
    ghost var before := Snapshot(g.files, g.history);
    ghost var sound := Warranted(Trial(bundle, core, core, Refused, NO_PLAN, g.files), before);
    var r, disk, probed := PlanRefresh(g, bundle, core, faults, sound);
    planned := g.files;
    ExtendsReflexive(before.history);
    if r.Err? || disk.None? {
      RefusedLeaves(Trial(bundle, core, core, Refused, NO_PLAN, planned), before, Snapshot(g.files, g.history));
      NoMoments(before.history, g.history);
      return Refused, NO_PLAN, planned, Log(probed, [], []);
    }
    prep := r.value;
    ReadyFacts(prep, sound, g.files, before.history, g.history);
    ghost var h := g.history;
    var result, begun, checked := StagePlanned(g, prep, bundle.yaml, core, faults, restarted, sound, before.history);
    outcome, log := result, Log(probed, begun, checked);
    DuringLater(probed, before.history, before.history, h, g.history);
    ExtendsReflexive(g.history);
    DuringLater(begun, before.history, h, g.history, g.history);
    DuringLater(checked, before.history, h, g.history, g.history);
    AttemptOf(Trial(bundle, core, core, outcome, prep, planned), before, h, Snapshot(g.files, g.history));
  }
}
