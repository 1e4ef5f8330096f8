/**
 Whole histories of a generation: any number of attempts at any bundles, however each ends, while sources
 move on and cores come and go. What survives all of it, what a success gives after any failures, and when the
 cores that are alive can be trusted not to spoil it.
 */
module GenerationRuns {
  import opened Wrappers
  import opened Names
  import opened StringOrder
  import opened StagePlan
  import opened Bundle
  import opened GenerationDisk
  import opened GenerationFiles
  import opened RefreshRules

  datatype Event =
    | Attempted(trial: Trial)
    | Elapsed(core: Core)

  datatype Run = Run(moments: seq<Snapshot>, events: seq<Event>)

  ghost predicate Step(e: Event, s: Snapshot, s': Snapshot) {
    match e
    case Attempted(t) => Attempt(t, s, s')
    case Elapsed(core) =>
      ValidHistory(s'.history) && Extends(s.history, s'.history) && Changed(core, {}, s.files, s'.files)
  }

  ghost predicate IsRun(r: Run) {
    && |r.moments| == |r.events| + 1
    && ValidHistory(r.moments[0].history) && CanonicalOnDisk(r.moments[0].files)
    && forall i | 0 <= i < |r.events| :: Step(r.events[i], r.moments[i], r.moments[i + 1])
  }

  /* ---------- the frame: files the bundles never mention ---------- */

  predicate Mentions(disk: Option<Manifest>, p: string) {
    disk.Some? && p in Declared(disk.value)
  }

  // Between attempts cores leave the service's own files alone.
  predicate KeepsOwnFiles(e: Event) {
    e.Elapsed? ==> Spares(e.core, OwnFiles())
  }

  predicate Undeclared(e: Event, p: string) {
    e.Attempted? ==> p !in DeclaredKeys(BundleDeclaration(e.trial.bundle))
  }

  // What happened to `p` is what the cores alive did to it; with none alive, nothing.
  predicate OnlyCoresWrote(e: Event, s: Snapshot, s': Snapshot, p: string) {
    match e
    case Elapsed(core) => CoreMayChange(core, s.files, s'.files, p)
    case Attempted(t) =>
      CoreMayChange(t.outgoing, s.files, t.planned, p) && CoreMayChange(t.during, t.planned, s'.files, p)
  }

  predicate CoresSpare(e: Event, p: string) {
    match e
    case Elapsed(core) => Spares(core, {p})
    case Attempted(t) => Spares(t.outgoing, {p}) && Spares(t.during, {p})
  }

  lemma PlanStaysWithin(prep: Prepared, p: string)
    requires prep.plan == PlanOf(prep.previous, prep.sources, prep.remote) && WellDeclared(prep.sources, prep.remote)
    requires p in PlannedPaths(prep.plan)
    ensures p in DeclaredKeys(DeclarationOf(prep.sources, prep.remote)) + Declared(prep.previous) + OwnFiles()
  {
    hide Resolve, IsTempPath;
    PlannedPathsAreDeclaredOrRecorded(prep);
    PlanManifestFacts(prep);
    if p in prep.plan.manifest.remote {
      assert RemoteProvider(p, prep.plan.manifest.remote[p]) in DeclarationOf(prep.sources, prep.remote).remote;
    }
  }

  lemma StepIsTheCores(e: Event, s: Snapshot, s': Snapshot, p: string)
    requires Step(e, s, s') && KeepsOwnFiles(e) && Undeclared(e, p)
    requires !IsTempPath(p) && p !in OwnFiles() && !Mentions(OnDisk(s.files), p)
    ensures OnlyCoresWrote(e, s, s', p) && !Mentions(OnDisk(s'.files), p)
  {
    hide Resolve, IsTempPath, PlanOf, Trusted, Built, CanonicalOnDisk, Warranted, Tame;
    TempsAreApart(MANIFEST_FILE_NAME);
    match e
    case Elapsed(core) =>
      assert CoreMayChange(core, s.files, s'.files, MANIFEST_FILE_NAME);
    case Attempted(t) =>
      if !t.outcome.Refused? && p in PlannedPaths(t.prep.plan) {
        PlanStaysWithin(t.prep, p);
      }
  }

  /**
   A file that no bundle declares and no manifest records is never touched by the service, over any sequence of
   attempts: whatever happens to it, a core did.
   */
  lemma {:induction false} UndeclaredFilesAreTheCores(r: Run, p: string, i: nat)
    requires IsRun(r) && i <= |r.events|
    requires !IsTempPath(p) && p !in OwnFiles() && !Mentions(OnDisk(r.moments[0].files), p)
    requires forall j | 0 <= j < i :: KeepsOwnFiles(r.events[j]) && Undeclared(r.events[j], p)
    ensures !Mentions(OnDisk(r.moments[i].files), p)
    ensures forall j | 0 <= j < i :: OnlyCoresWrote(r.events[j], r.moments[j], r.moments[j + 1], p)
  {
    hide IsTempPath, OwnFiles, Step, Mentions, Undeclared, KeepsOwnFiles, OnlyCoresWrote, CanonicalOnDisk;
    if i > 0 {
      UndeclaredFilesAreTheCores(r, p, i - 1);
      assert Step(r.events[i - 1], r.moments[i - 1], r.moments[i - 1 + 1]);
      StepIsTheCores(r.events[i - 1], r.moments[i - 1], r.moments[i], p);
    }
  }

  /** So if the cores leave it alone as well, it keeps its contents. */
  lemma {:induction false} UndeclaredFilesAreKept(r: Run, p: string, i: nat)
    requires IsRun(r) && i <= |r.events|
    requires !IsTempPath(p) && p !in OwnFiles() && !Mentions(OnDisk(r.moments[0].files), p)
    requires forall j | 0 <= j < i ::
               KeepsOwnFiles(r.events[j]) && Undeclared(r.events[j], p) && CoresSpare(r.events[j], p)
    ensures Same(r.moments[0].files, r.moments[i].files, p)
  {
    hide IsTempPath, OwnFiles, Step, Mentions, Undeclared, KeepsOwnFiles, CanonicalOnDisk;
    if i > 0 {
      UndeclaredFilesAreKept(r, p, i - 1);
      UndeclaredFilesAreTheCores(r, p, i);
      assert OnlyCoresWrote(r.events[i - 1], r.moments[i - 1], r.moments[i - 1 + 1], p);
      assert CoresSpare(r.events[i - 1], p);
    }
  }

  /* ---------- the configuration is the commit point ---------- */

  predicate Commits(e: Event) {
    e.Attempted? && e.trial.outcome.Committed?
  }

  function LastCommitted(events: seq<Event>): Option<RuntimeBundle> {
    if events == [] then None
    else if Commits(Last(events)) then Some(Last(events).trial.bundle)
    else LastCommitted(Front(events))
  }

  /** At every moment the configuration is the one of the last committed bundle, and nothing else ever changes it. */
  lemma {:induction false} ConfigIsTheLastCommitted(r: Run, i: nat)
    requires IsRun(r) && i <= |r.events|
    requires forall e | e in r.events :: KeepsOwnFiles(e)
    ensures match LastCommitted(r.events[..i])
            case None => Same(r.moments[0].files, r.moments[i].files, CONFIG_FILE_NAME)
            case Some(bundle) =>
              && CONFIG_FILE_NAME in r.moments[i].files
              && r.moments[i].files[CONFIG_FILE_NAME] == File(Yaml(bundle.yaml), FromService)
  {
    hide IsTempPath, CanonicalOnDisk, Trusted, Built, Changed, BundleDeclaration, Covers, Warranted, Tame;
    if i > 0 {
      ConfigIsTheLastCommitted(r, i - 1);
      var e, s, s' := r.events[i - 1], r.moments[i - 1], r.moments[i - 1 + 1];
      assert Step(e, s, s');
      PrefixStep(r.events, i - 1);
      assert e in r.events;
      if e.Elapsed? {
        ElapsedKeepsOwnFiles(e.core, s.files, s'.files);
      }
    }
  }

  lemma ElapsedKeepsOwnFiles(core: Core, f: Files, f': Files)
    requires Changed(core, {}, f, f') && Spares(core, OwnFiles())
    ensures Same(f, f', CONFIG_FILE_NAME) && Same(f, f', MANIFEST_FILE_NAME)
  {
    TempsAreApart(CONFIG_FILE_NAME);
    TempsAreApart(MANIFEST_FILE_NAME);
    assert CoreMayChange(core, f, f', CONFIG_FILE_NAME) && CoreMayChange(core, f, f', MANIFEST_FILE_NAME);
  }

  /* ---------- convergence ---------- */

  // A manifest the service wrote, and the truth of what it says.
  ghost predicate HonestOnDisk(s: Snapshot) {
    OnDisk(s.files).Some? ==>
      && (forall d | d in Declared(OnDisk(s.files).value) :: IsKey(d))
      && Honest(OnDisk(s.files).value, s.files, s.history)
      && ProvidersHonest(OnDisk(s.files).value, s.files)
  }

  // The declaration whose attempt was cut short last, if it has not committed since. An attempt whose
  // manifest could be discarded leaves nothing behind that could lie.
  function Pending(events: seq<Event>): Option<Declaration> {
    if events == [] then None
    else match Last(events)
      case Elapsed(_) => Pending(Front(events))
      case Attempted(t) =>
        match t.outcome
        case Refused => Pending(Front(events))
        case Interrupted => Some(BundleDeclaration(t.bundle))
        case CommitFailed(discarded) => if discarded then None else Some(BundleDeclaration(t.bundle))
        case Committed => None
  }

  // A core that costs the manifest on disk nothing.
  predicate TameOnDisk(core: Core, disk: Option<Manifest>) {
    Spares(core, OwnFiles()) && (disk.Some? ==> Tame(core, disk.value))
  }

  // The attempt came far enough to write its own manifest, and that manifest stands.
  predicate MayReplaceManifest(t: Trial) {
    t.outcome.Committed? || t.outcome == CommitFailed(false)
  }

  // No core takes anything from the manifest on disk, nor, when one replaces it, from the new one.
  predicate Tamed(e: Event, s: Snapshot) {
    match e
    case Attempted(t) =>
      && TameOnDisk(t.outgoing, OnDisk(s.files)) && TameOnDisk(t.during, OnDisk(s.files))
      && (MayReplaceManifest(t) ==> Tame(t.during, t.prep.plan.manifest))
    case Elapsed(core) => TameOnDisk(core, OnDisk(s.files))
  }

  // Whoever was cut short tries again before another bundle is tried, and cores are tame.
  predicate Disciplined(events: seq<Event>, e: Event, s: Snapshot) {
    && (e.Attempted? && Pending(events).Some? ==> Pending(events).value == BundleDeclaration(e.trial.bundle))
    && Tamed(e, s)
  }

  ghost predicate DisciplinedRun(r: Run) {
    IsRun(r) && forall i | 0 <= i < |r.events| :: Disciplined(r.events[..i], r.events[i], r.moments[i])
  }

  // What the manifest on disk is good for.
  ghost predicate Sound(pending: Option<Declaration>, s: Snapshot)
    requires ValidHistory(s.history)
  {
    CanonicalOnDisk(s.files) &&
    match pending
    case None => HonestOnDisk(s)
    case Some(decl) => Trusted(decl, s.files, s.history)
  }

  // A tame core costs neither honesty nor trust.
  lemma TameKeepsHonesty(core: Core, s: Snapshot, s': Snapshot)
    requires ValidHistory(s.history) && ValidHistory(s'.history) && Extends(s.history, s'.history)
    requires Changed(core, {}, s.files, s'.files) && TameOnDisk(core, OnDisk(s.files))
    requires HonestOnDisk(s)
    ensures HonestOnDisk(s')
  {
    ElapsedKeepsOwnFiles(core, s.files, s'.files);
    if OnDisk(s.files).Some? {
      var m := OnDisk(s.files).value;
      forall d | d in m.assets && m.assets[d].mtime.Some?
        ensures MadeFrom(s'.files, d, m.assets[d], s'.history)
      {
        TempsAreApart(d);
        assert CoreMayChange(core, s.files, s'.files, d);
        MadeFromLater(s.files, s'.files, d, m.assets[d], s.history, s'.history);
      }
      forall p | p in m.remote
        ensures AbsentOrFrom(s'.files, p, m.remote[p])
      {
        TempsAreApart(p);
        assert CoreMayChange(core, s.files, s'.files, p);
      }
    }
  }

  lemma TameKeepsTrust(core: Core, decl: Declaration, s: Snapshot, s': Snapshot)
    requires ValidHistory(s.history) && ValidHistory(s'.history) && Extends(s.history, s'.history)
    requires Changed(core, {}, s.files, s'.files) && TameOnDisk(core, OnDisk(s.files))
    requires Keyed(decl) && Trusted(decl, s.files, s.history)
    ensures Trusted(decl, s'.files, s'.history)
  {
    ElapsedKeepsOwnFiles(core, s.files, s'.files);
    if OnDisk(s.files).Some? {
      var m := OnDisk(s.files).value;
      forall d, source | (d, source) in decl.assets && d in m.assets
        ensures EntryTrusted(m.assets[d], d, source, s'.files, s'.history)
      {
        assert IsKey((d, source).0);
        TempsAreApart(d);
        assert CoreMayChange(core, s.files, s'.files, d);
        EntryTrustedLater(m.assets[d], d, source, s.files, s'.files, s.history, s'.history);
      }
      forall p | p in decl.remote && SameProvider(m, p)
        ensures AbsentOrFrom(s'.files, p.destination, p.url)
      {
        TempsAreApart(p.destination);
        assert CoreMayChange(core, s.files, s'.files, p.destination);
      }
    }
  }

  // Every pending declaration came from a bundle.
  lemma {:induction false} PendingIsKeyed(events: seq<Event>)
    ensures Pending(events).Some? ==> Keyed(Pending(events).value)
  {
    hide Keyed, BundleDeclaration;
    if events != [] {
      PendingIsKeyed(Front(events));
      if Last(events).Attempted? { BundleIsKeyed(Last(events).trial.bundle); }
    }
  }

  lemma ElapsedStaysSound(pending: Option<Declaration>, core: Core, s: Snapshot, s': Snapshot)
    requires ValidHistory(s.history) && Sound(pending, s) && Step(Elapsed(core), s, s')
    requires TameOnDisk(core, OnDisk(s.files)) && (pending.Some? ==> Keyed(pending.value))
    ensures Sound(pending, s')
  {
    hide IsTempPath, Trusted, HonestOnDisk, Changed, Keyed;
    ElapsedKeepsOwnFiles(core, s.files, s'.files);
    match pending
    case None => TameKeepsHonesty(core, s, s');
    case Some(decl) => TameKeepsTrust(core, decl, s, s');
  }

  // What an attempt may rely on, whatever was pending.
  lemma SoundIsTrusted(pending: Option<Declaration>, decl: Declaration, s: Snapshot)
    requires ValidHistory(s.history) && Sound(pending, s) && (pending.Some? ==> pending.value == decl)
    ensures Trusted(decl, s.files, s.history)
  {
    hide Trusted, Honest, ProvidersHonest;
    if pending.None? {
      HonestIsTrusted(decl, s.files, s.history);
    }
  }

  // What a trial may build on: a manifest it may trust, and cores that take nothing from it or from its successor.
  ghost predicate Undisturbed(t: Trial, before: Snapshot)
    requires ValidHistory(before.history)
  {
    Warranted(t, before) && Tame(t.during, t.prep.plan.manifest)
  }

  lemma TameRespects(core: Core, decl: Declaration, disk: Option<Manifest>)
    requires TameOnDisk(core, disk)
    ensures Respects(core, decl, disk)
  {}

  lemma SoundIsWarranted(pending: Option<Declaration>, t: Trial, s: Snapshot)
    requires ValidHistory(s.history) && Sound(pending, s)
    requires pending.Some? ==> pending.value == BundleDeclaration(t.bundle)
    requires TameOnDisk(t.outgoing, OnDisk(s.files)) && TameOnDisk(t.during, OnDisk(s.files))
    ensures Warranted(t, s)
  {
    hide Trusted, Respects, Sound, BundleDeclaration, TameOnDisk;
    SoundIsTrusted(pending, BundleDeclaration(t.bundle), s);
    TameRespects(t.outgoing, BundleDeclaration(t.bundle), OnDisk(s.files));
    TameRespects(t.during, BundleDeclaration(t.bundle), OnDisk(s.files));
  }

  lemma RefusedKeepsHonesty(t: Trial, s: Snapshot, s': Snapshot)
    requires Attempt(t, s, s') && t.outcome.Refused? && HonestOnDisk(s) && TameOnDisk(t.outgoing, OnDisk(s.files))
    ensures HonestOnDisk(s')
  {
    hide IsTempPath, Leaves, HonestOnDisk, BundleDeclaration;
    TameKeepsHonesty(t.outgoing, s, s');
  }

  lemma CommittedIsHonest(t: Trial, s: Snapshot, s': Snapshot)
    requires Attempt(t, s, s') && t.outcome.Committed? && Undisturbed(t, s)
    ensures HonestOnDisk(s')
  {
    hide IsTempPath, Resolve, BundleDeclaration, Warranted, Tame, Trusted, Honest, ProvidersHonest, IsKey;
    var decl := BundleDeclaration(t.bundle);
    BundleIsKeyed(t.bundle);
    forall d | d in Declared(OnDisk(s'.files).value)
      ensures IsKey(d)
    {
      if d in AssetKeys(decl) {
        var a :| a in decl.assets && a.0 == d;
      } else {
        var p :| p in decl.remote && p.destination == d;
      }
    }
  }

  lemma NothingRecordedIsHonest(s: Snapshot)
    requires MANIFEST_FILE_NAME !in s.files
    ensures HonestOnDisk(s)
  {}

  lemma AttemptStaysSound(events: seq<Event>, t: Trial, s: Snapshot, s': Snapshot)
    requires ValidHistory(s.history) && Sound(Pending(events), s) && Step(Attempted(t), s, s')
    requires Disciplined(events, Attempted(t), s)
    ensures ValidHistory(s'.history) && Sound(Pending(events + [Attempted(t)]), s')
  {
    hide IsTempPath, Trusted, Honest, ProvidersHonest, Changed, BundleDeclaration, Built, Covers, IsKey, Warranted,
         Tame, TameOnDisk;
    assert Front(events + [Attempted(t)]) == events;
    SoundIsWarranted(Pending(events), t, s);
    match t.outcome
    case Refused =>
      if Pending(events).None? { RefusedKeepsHonesty(t, s, s'); }
    case Interrupted =>
    case CommitFailed(discarded) =>
      if discarded { NothingRecordedIsHonest(s'); }
    case Committed => CommittedIsHonest(t, s, s');
  }

  /** Whatever fails, and wherever, the manifest on disk stays good for what comes next. */
  lemma {:induction false} RunsStaySound(r: Run, i: nat)
    requires DisciplinedRun(r) && HonestOnDisk(r.moments[0]) && i <= |r.events|
    ensures ValidHistory(r.moments[i].history) && Sound(Pending(r.events[..i]), r.moments[i])
  {
    hide IsTempPath, Trusted, HonestOnDisk, Changed, Attempt, Tame, TameOnDisk, CanonicalOnDisk;
    if i > 0 {
      RunsStaySound(r, i - 1);
      var e, s, s' := r.events[i - 1], r.moments[i - 1], r.moments[i - 1 + 1];
      assert Step(e, s, s') && Disciplined(r.events[..i - 1], e, s);
      assert r.events[..i] == r.events[..i - 1] + [e];
      match e
      case Elapsed(core) =>
        assert Front(r.events[..i]) == r.events[..i - 1];
        PendingIsKeyed(r.events[..i - 1]);
        ElapsedStaysSound(Pending(r.events[..i - 1]), core, s, s');
      case Attempted(t) => AttemptStaysSound(r.events[..i - 1], t, s, s');
    }
  }

  // What copying every asset afresh, with no manifest to go by, would leave: every declared asset is a copy made by
  // the service, equal to its source if that held still; every declared provider cache is absent or came from its
  // declared URL; the configuration is the bundle's.
  ghost predicate LikeFromScratch(bundle: RuntimeBundle, before: Snapshot, after: Snapshot)
    requires ValidHistory(after.history)
  {
    var decl := BundleDeclaration(bundle);
    && CONFIG_FILE_NAME in after.files && after.files[CONFIG_FILE_NAME] == File(Yaml(bundle.yaml), FromService)
    && (forall a | a in decl.assets :: a.0 in after.files && after.files[a.0].origin == FromService)
    && (forall a | a in decl.assets && Of(after.history, a.1) == Of(before.history, a.1) ::
          Current(after.history, a.1).Present? && HoldsBytes(after.files, a.0, Current(after.history, a.1).bytes))
    && (forall p | p in decl.remote :: AbsentOrFrom(after.files, p.destination, p.url))
  }

  lemma SuccessIsLikeFromScratch(t: Trial, before: Snapshot, after: Snapshot)
    requires Attempt(t, before, after) && t.outcome.Committed? && Undisturbed(t, before)
    ensures LikeFromScratch(t.bundle, before, after)
  {
    hide IsTempPath, Trusted, Warranted, Tame, Honest, Changed, BundleDeclaration, PlanOf;
    var decl := BundleDeclaration(t.bundle);
    forall a | a in decl.assets
      ensures a.0 in after.files && after.files[a.0].origin == FromService
      ensures Of(after.history, a.1) == Of(before.history, a.1) ==>
                Current(after.history, a.1).Present? && HoldsBytes(after.files, a.0, Current(after.history, a.1).bytes)
    {
      var s :| s in t.prep.sources && a == (s.destination, s.source);
    }
  }

  /** Convergence: after any failures, a success gives what a build from scratch would give, and is honest again. */
  lemma EverySuccessIsLikeFromScratch(r: Run, i: nat)
    requires DisciplinedRun(r) && HonestOnDisk(r.moments[0])
    requires i < |r.events| && Commits(r.events[i])
    ensures ValidHistory(r.moments[i + 1].history)
    ensures LikeFromScratch(r.events[i].trial.bundle, r.moments[i], r.moments[i + 1])
    ensures OnDisk(r.moments[i + 1].files).Some? && HonestOnDisk(r.moments[i + 1])
  {
    hide IsTempPath, Trusted, HonestOnDisk, Changed, LikeFromScratch, Sound, BundleDeclaration, Warranted, Tame,
         TameOnDisk;
    RunsStaySound(r, i);
    var t := r.events[i].trial;
    assert Step(r.events[i], r.moments[i], r.moments[i + 1]) && Disciplined(r.events[..i], r.events[i], r.moments[i]);
    SoundIsWarranted(Pending(r.events[..i]), t, r.moments[i]);
    SuccessIsLikeFromScratch(t, r.moments[i], r.moments[i + 1]);
    CommittedIsHonest(t, r.moments[i], r.moments[i + 1]);
  }

  lemma {:induction false} PendingOfOneBundle(events: seq<Event>, decl: Declaration)
    requires forall e | e in events && e.Attempted? :: BundleDeclaration(e.trial.bundle) == decl
    ensures Pending(events) in {None, Some(decl)}
  {
    hide BundleDeclaration;
    if events != [] {
      assert forall e | e in Front(events) :: e in events;
      PendingOfOneBundle(Front(events), decl);
      assert Last(events) in events;
    }
  }

  /** In particular: whoever retries one bundle until it succeeds gets what a build from scratch would give. */
  lemma RetriesConverge(r: Run, i: nat, decl: Declaration)
    requires IsRun(r) && HonestOnDisk(r.moments[0])
    requires forall e | e in r.events && e.Attempted? :: BundleDeclaration(e.trial.bundle) == decl
    requires forall k | 0 <= k < |r.events| :: Tamed(r.events[k], r.moments[k])
    requires i < |r.events| && Commits(r.events[i])
    ensures ValidHistory(r.moments[i + 1].history)
    ensures LikeFromScratch(r.events[i].trial.bundle, r.moments[i], r.moments[i + 1])
  {
    hide BundleDeclaration, HonestOnDisk, Step, LikeFromScratch, TameOnDisk, Tame, CanonicalOnDisk, Pending;
    forall k | 0 <= k < |r.events|
      ensures Disciplined(r.events[..k], r.events[k], r.moments[k])
    {
      assert forall e | e in r.events[..k] :: e in r.events;
      PendingOfOneBundle(r.events[..k], decl);
      assert r.events[k] in r.events && Tamed(r.events[k], r.moments[k]);
    }
    EverySuccessIsLikeFromScratch(r, i);
  }

  lemma NoManifestIsWarranted(t: Trial, before: Snapshot)
    requires ValidHistory(before.history) && MANIFEST_FILE_NAME !in before.files
    requires Spares(t.outgoing, OwnFiles()) && Tame(t.during, t.prep.plan.manifest)
    ensures Warranted(t, before)
  {
    NoManifestIsTrusted(BundleDeclaration(t.bundle), before.files, before.history);
  }

  /**
   The cache agrees with the simple thing it speeds up, the same bundle built where nothing was recorded: the same
   configuration, the same assets, and caches from the same URLs wherever there are any.
   */
  lemma CacheAgreesWithScratch(t: Trial, before: Snapshot, after: Snapshot, t': Trial, before': Snapshot,
                               after': Snapshot)
    requires Attempt(t, before, after) && t.outcome.Committed? && Undisturbed(t, before)
    requires Attempt(t', before', after') && t'.outcome.Committed? && t'.bundle == t.bundle
    requires MANIFEST_FILE_NAME !in before'.files && Tame(t'.during, t'.prep.plan.manifest)
    requires Spares(t'.outgoing, OwnFiles())
    requires forall a | a in BundleDeclaration(t.bundle).assets ::
               Of(before.history, a.1) == Of(after.history, a.1) == Of(before'.history, a.1) == Of(after'.history, a.1)
    ensures forall d | d in AssetKeys(BundleDeclaration(t.bundle)) + {CONFIG_FILE_NAME} ::
              d in after.files && d in after'.files && after.files[d] == after'.files[d]
    ensures forall p | p in BundleDeclaration(t.bundle).remote &&
                       p.destination in after.files.Keys * after'.files.Keys ::
              after.files[p.destination].origin == after'.files[p.destination].origin == Download(p.url)
  {
    hide IsTempPath, Trusted, Warranted, Tame, Honest, Changed, BundleDeclaration, Leaves;
    NoManifestIsWarranted(t', before');
    SuccessIsLikeFromScratch(t, before, after);
    SuccessIsLikeFromScratch(t', before', after');
    forall d | d in AssetKeys(BundleDeclaration(t.bundle))
      ensures d in after.files && d in after'.files && after.files[d] == after'.files[d]
    {
      var a :| a in BundleDeclaration(t.bundle).assets && a.0 == d;
      assert HoldsBytes(after.files, a.0, Current(after.history, a.1).bytes);
      assert HoldsBytes(after'.files, a.0, Current(after'.history, a.1).bytes);
    }
  }

  /**
   And it is a cache: an attempt that finds the manifest a plan for the same sources produced, with every
   modification time known, copies, discards and sweeps nothing. It writes its own two files and no other.
   */
  lemma RepeatedAttemptCopiesNothing(t: Trial, before: Snapshot, after: Snapshot, previous: Manifest)
    requires Attempt(t, before, after) && !t.outcome.Refused?
    requires t.prep.previous == PlanOf(previous, t.prep.sources, t.prep.remote).manifest
    requires forall s | s in t.prep.sources :: s.mtime.Some?
    ensures t.prep.plan.copies == [] && t.prep.plan.requiredDeletes == [] && t.prep.plan.hygieneDeletes == []
    ensures t.prep.plan.manifest == t.prep.previous && Changed(t.during, OwnFiles(), t.planned, after.files)
  {
    hide Resolve, IsTempPath, Leaves, BundleDeclaration, DeclarationOf, PlanOf, Extends, ValidHistory, Changed;
    ReplanIsFixpoint(previous, t.prep.sources, t.prep.remote);
    assert PlannedPaths(t.prep.plan) == OwnFiles();
  }

  /* ---------- cores that run the configuration on disk ---------- */

  // Among `paths`, the core writes its configured caches and nothing else, each from its URL.
  predicate Serves(core: Core, urls: map<string, string>, paths: set<string>) {
    core.Running? ==>
      forall p | p in paths ::
        if p in urls then p !in core.shielded && p in core.downloads && core.downloads[p] == urls[p]
        else p in core.shielded
  }

  /** The caches of a configuration and what a manifest records: no role has changed, and no URL. */
  predicate Agrees(m: Manifest, urls: map<string, string>) {
    forall p | p in urls :: p !in m.assets && (p in m.remote ==> m.remote[p] == urls[p])
  }

  predicate AgreesOnDisk(f: Files, urls: map<string, string>) {
    OnDisk(f).Some? ==> Agrees(OnDisk(f).value, urls)
  }

  /** Agreement is exactly what keeps a running core from harming a manifest. */
  lemma TameExactlyWhenAgreeing(core: Core, urls: map<string, string>, m: Manifest)
    requires core.Running? && Serves(core, urls, OwnFiles() + Declared(m)) && urls.Keys !! OwnFiles()
    ensures Tame(core, m) <==> Agrees(m, urls)
  {
    forall p | p in urls && p in Declared(m)
      ensures p !in core.shielded && p in core.downloads && core.downloads[p] == urls[p]
    {}
    if Tame(core, m) {
      forall p | p in urls
        ensures p !in m.assets && (p in m.remote ==> m.remote[p] == urls[p])
      {
        if p in m.remote { assert DownloadsFrom(core, p, m.remote[p]); }
      }
    }
  }

  // Among `paths`, the core writes at most its configured caches: it has not been told of all of them yet, perhaps.
  predicate KeepsTo(core: Core, urls: map<string, string>, paths: set<string>) {
    forall p | p in paths :: if p in urls then DownloadsFrom(core, p, urls[p]) else Spares(core, {p})
  }

  lemma KeepingToIsTame(core: Core, urls: map<string, string>, paths: set<string>, m: Manifest)
    requires KeepsTo(core, urls, paths) && OwnFiles() + Declared(m) <= paths && urls.Keys !! OwnFiles()
    requires Agrees(m, urls)
    ensures Tame(core, m)
  {
    if core.Running? {
      forall p | p in OwnFiles() + m.assets.Keys
        ensures p in core.shielded
      {
        assert p in paths && p !in urls && Spares(core, {p});
        assert p in {p};
      }
    }
    forall p | p in m.remote
      ensures DownloadsFrom(core, p, m.remote[p])
    {
      assert p in paths;
    }
  }

  /** The caches of the configuration on disk, given those it had at first. */
  function ConfiguredUrls(events: seq<Event>, initial: map<string, string>): map<string, string> {
    if events == [] then initial
    else if Commits(Last(events)) then Last(events).trial.prep.plan.manifest.remote
    else ConfiguredUrls(Front(events), initial)
  }

  function DeclaredOnDisk(f: Files): set<string> {
    if OnDisk(f).Some? then Declared(OnDisk(f).value) else {}
  }

  // Every core alive keeps to the configuration on disk, which is the only one the service gives to any, and whoever
  // was cut short tries again first. Where a manifest may be replaced under a running core, or left behind by a
  // failed commit, the bundle agrees with that configuration.
  predicate Configured(events: seq<Event>, e: Event, s: Snapshot, initial: map<string, string>) {
    var urls := ConfiguredUrls(events, initial);
    var paths := OwnFiles() + DeclaredOnDisk(s.files);
    match e
    case Elapsed(core) => KeepsTo(core, urls, paths)
    case Attempted(t) =>
      && (Pending(events).Some? ==> Pending(events).value == BundleDeclaration(t.bundle))
      && KeepsTo(t.outgoing, urls, paths) && KeepsTo(t.during, urls, paths + Declared(t.prep.plan.manifest))
      && (t.outcome == CommitFailed(false) || (t.outcome.Committed? && t.during.Running?) ==>
            Agrees(t.prep.plan.manifest, urls))
  }

  ghost predicate ConfiguredRun(r: Run, initial: map<string, string>) {
    && IsRun(r) && initial.Keys !! OwnFiles() && AgreesOnDisk(r.moments[0].files, initial)
    && forall i | 0 <= i < |r.events| :: Configured(r.events[..i], r.events[i], r.moments[i], initial)
  }

  lemma KeepingToIsTameOnDisk(core: Core, urls: map<string, string>, paths: set<string>, f: Files)
    requires KeepsTo(core, urls, paths) && OwnFiles() + DeclaredOnDisk(f) <= paths && urls.Keys !! OwnFiles()
    requires AgreesOnDisk(f, urls)
    ensures TameOnDisk(core, OnDisk(f))
  {
    if OnDisk(f).Some? { KeepingToIsTame(core, urls, paths, OnDisk(f).value); }
  }

  // The manifest of a plan is about its bundle, and so is whatever an attempt leaves of it.
  lemma CoversAgrees(t: Trial, before: Snapshot, after: Snapshot, f: Files, urls: map<string, string>)
    requires Attempt(t, before, after) && !t.outcome.Refused?
    requires Covers(OnDisk(f), BundleDeclaration(t.bundle))
    ensures Agrees(t.prep.plan.manifest, urls) ==> AgreesOnDisk(f, urls)
    ensures AgreesOnDisk(f, t.prep.plan.manifest.remote) && t.prep.plan.manifest.remote.Keys !! OwnFiles()
  {
    hide Resolve, IsTempPath, Leaves, Changed, PlanOf, BundleDeclaration, Extends, ValidHistory;
    PlanManifestFacts(t.prep);
    BundleIsKeyed(t.bundle);
    var decl, m := BundleDeclaration(t.bundle), OnDisk(f).value;
    forall p | p in m.remote || p in t.prep.plan.manifest.remote
      ensures p !in m.assets && p !in OwnFiles()
      ensures p in m.remote && p in t.prep.plan.manifest.remote && m.remote[p] == t.prep.plan.manifest.remote[p]
    {
      if p in t.prep.plan.manifest.remote {
        assert RemoteProvider(p, t.prep.plan.manifest.remote[p]) in decl.remote;
      }
      var q :| q in decl.remote && q.destination == p;
      KeysAreNotOwnFiles(p);
      ProviderIsNoAsset(t.prep, q);
    }
  }

  lemma ProviderIsNoAsset(prep: Prepared, p: RemoteProvider)
    requires WellDeclared(prep.sources, prep.remote) && p in DeclarationOf(prep.sources, prep.remote).remote
    ensures p.destination !in AssetKeys(DeclarationOf(prep.sources, prep.remote))
  {}

  lemma ConfiguredTrialIsTamed(t: Trial, s: Snapshot, urls: map<string, string>)
    requires KeepsTo(t.outgoing, urls, OwnFiles() + DeclaredOnDisk(s.files))
    requires KeepsTo(t.during, urls, OwnFiles() + DeclaredOnDisk(s.files) + Declared(t.prep.plan.manifest))
    requires MayReplaceManifest(t) && t.during.Running? ==> Agrees(t.prep.plan.manifest, urls)
    requires urls.Keys !! OwnFiles() && AgreesOnDisk(s.files, urls)
    ensures Tamed(Attempted(t), s)
  {
    hide KeepsTo, Agrees, Tame, TameOnDisk, OwnFiles, Declared, DeclaredOnDisk, AgreesOnDisk;
    var paths := OwnFiles() + DeclaredOnDisk(s.files);
    KeepingToIsTameOnDisk(t.outgoing, urls, paths, s.files);
    KeepingToIsTameOnDisk(t.during, urls, paths + Declared(t.prep.plan.manifest), s.files);
    if t.during.Stopped? {
      StoppedIsTame(t.prep.plan.manifest);
    } else if MayReplaceManifest(t) {
      KeepingToIsTame(t.during, urls, paths + Declared(t.prep.plan.manifest), t.prep.plan.manifest);
    }
  }

  lemma TrialKeepsAgreeing(t: Trial, s: Snapshot, s': Snapshot, urls: map<string, string>)
    requires Attempt(t, s, s') && AgreesOnDisk(s.files, urls)
    requires t.outcome == CommitFailed(false) ==> Agrees(t.prep.plan.manifest, urls)
    ensures !t.outcome.Committed? ==> AgreesOnDisk(s'.files, urls)
    ensures t.outcome.Committed? ==>
              AgreesOnDisk(s'.files, t.prep.plan.manifest.remote) && t.prep.plan.manifest.remote.Keys !! OwnFiles()
  {
    hide IsTempPath, Trusted, Built, Covers, Agrees, Tame, Warranted, BundleDeclaration, PlanOf, WellDeclared, Changed,
         DeclarationOf, CanonicalOnDisk, Extends, ValidHistory, OwnFiles;
    NothingDisagrees(urls);
    if t.outcome.Committed? || (OnDisk(s'.files) != OnDisk(s.files) && MANIFEST_FILE_NAME in s'.files) {
      CoversAgrees(t, s, s', s'.files, urls);
    }
  }

  lemma ConfiguredIsTamed(events: seq<Event>, e: Event, s: Snapshot, s': Snapshot, initial: map<string, string>)
    requires Configured(events, e, s, initial) && Step(e, s, s')
    requires ConfiguredUrls(events, initial).Keys !! OwnFiles()
    requires AgreesOnDisk(s.files, ConfiguredUrls(events, initial))
    ensures Disciplined(events, e, s)
    ensures ConfiguredUrls(events + [e], initial).Keys !! OwnFiles()
    ensures AgreesOnDisk(s'.files, ConfiguredUrls(events + [e], initial))
  {
    hide IsTempPath, Attempt, KeepsTo, Agrees, Tame, TameOnDisk, BundleDeclaration, Pending, OwnFiles, AgreesOnDisk,
         Changed;
    var urls, paths := ConfiguredUrls(events, initial), OwnFiles() + DeclaredOnDisk(s.files);
    assert Front(events + [e]) == events;
    match e
    case Elapsed(core) =>
      KeepingToIsTameOnDisk(core, urls, paths, s.files);
      TameSparesOwnFiles(core, OnDisk(s.files));
      ElapsedKeepsOwnFiles(core, s.files, s'.files);
      SameManifestAgrees(s.files, s'.files, urls);
    case Attempted(t) =>
      ConfiguredTrialIsTamed(t, s, urls);
      TrialKeepsAgreeing(t, s, s', urls);
  }

  lemma SameManifestAgrees(f: Files, f': Files, urls: map<string, string>)
    requires Same(f, f', MANIFEST_FILE_NAME) && AgreesOnDisk(f, urls)
    ensures AgreesOnDisk(f', urls)
  {}

  lemma StoppedIsTame(m: Manifest)
    ensures Tame(Stopped, m)
  {}

  lemma NothingDisagrees(urls: map<string, string>)
    ensures Agrees(EMPTY_MANIFEST, urls)
  {}

  lemma TameSparesOwnFiles(core: Core, disk: Option<Manifest>)
    requires TameOnDisk(core, disk)
    ensures Spares(core, OwnFiles())
  {}

  /** At every moment the manifest on disk agrees with the configuration on disk, and so no core ever harms it. */
  lemma {:induction false} ConfiguredRunsAgree(r: Run, initial: map<string, string>, i: nat)
    requires ConfiguredRun(r, initial) && i <= |r.events|
    ensures AgreesOnDisk(r.moments[i].files, ConfiguredUrls(r.events[..i], initial))
    ensures ConfiguredUrls(r.events[..i], initial).Keys !! OwnFiles()
    ensures forall j | 0 <= j < i :: Disciplined(r.events[..j], r.events[j], r.moments[j])
  {
    hide IsTempPath, Step, AgreesOnDisk, Configured, Disciplined, OwnFiles, CanonicalOnDisk;
    if i > 0 {
      ConfiguredRunsAgree(r, initial, i - 1);
      assert Step(r.events[i - 1], r.moments[i - 1], r.moments[i - 1 + 1]);
      assert Configured(r.events[..i - 1], r.events[i - 1], r.moments[i - 1], initial);
      ConfiguredIsTamed(r.events[..i - 1], r.events[i - 1], r.moments[i - 1], r.moments[i], initial);
      assert r.events[..i] == r.events[..i - 1] + [r.events[i - 1]];
    }
  }

  /** Convergence again, with nothing assumed of a core but that it keeps to the configuration on disk. */
  lemma ConfiguredSuccessIsLikeFromScratch(r: Run, initial: map<string, string>, i: nat)
    requires ConfiguredRun(r, initial) && HonestOnDisk(r.moments[0]) && i < |r.events| && Commits(r.events[i])
    ensures ValidHistory(r.moments[i + 1].history)
    ensures LikeFromScratch(r.events[i].trial.bundle, r.moments[i], r.moments[i + 1])
    ensures OnDisk(r.moments[i + 1].files).Some? && HonestOnDisk(r.moments[i + 1])
  {
    hide IsTempPath, Step, Configured, Disciplined, HonestOnDisk, LikeFromScratch, CanonicalOnDisk;
    ConfiguredRunsAgree(r, initial, |r.events|);
    EverySuccessIsLikeFromScratch(r, i);
  }

  /* ---------- a run to speak of ---------- */

  // What one asset asks for, and what a start makes of it where nothing is yet.
  lemma OneAssetDeclared(source: string, d: string, len: nat, mtime: Option<nat>, yaml: string)
    requires IsKey(d)
    ensures var bundle := RuntimeBundle([DeclaredAsset(source, d)], [], yaml);
            var sources := [AssetSource(source, d, len, mtime)];
            && BundleDeclaration(bundle) == Declaration({(d, source)}, {})
            && DeclarationOf(sources, []) == Declaration({(d, source)}, {})
            && WellDeclared(sources, [])
  {
    hide Resolve;
    var bundle := RuntimeBundle([DeclaredAsset(source, d)], [], yaml);
    assert DeclaredAsset(source, d) in bundle.assets;
    var sources := [AssetSource(source, d, len, mtime)];
    assert AssetSource(source, d, len, mtime) in sources;
    assert BundleDeclaration(bundle).assets == {(d, source)} && BundleDeclaration(bundle).remote == {};
    assert DeclarationOf(sources, []).assets == {(d, source)} && DeclarationOf(sources, []).remote == {};
  }

  lemma OneAssetPlan(s: AssetSource)
    ensures PlanOf(EMPTY_MANIFEST, [s], []).manifest == Manifest(map[s.destination := s.Identity()], map[])
  {
    assert Front([s]) == [];
    assert AssetsOf([s]) == AssetsOf([])[s.destination := s.Identity()];
  }

  /** Nothing above is empty: for every destination and contents there is a disciplined run that commits. */
  lemma OneAssetCommits(d: string, data: seq<int>, time: nat, yaml: string) returns (r: Run)
    requires IsKey(d)
    ensures DisciplinedRun(r) && HonestOnDisk(r.moments[0]) && |r.events| == 1
    ensures Commits(r.events[0]) && ConfiguredRun(r, map[])
    ensures HoldsBytes(r.moments[1].files, d, data)
  {
    hide Resolve, IsTempPath, PlanOf, IsKey;
    var history := map["source" := [Present(data, Some(time))]];
    var s := AssetSource("source", d, |data|, Some(time));
    var bundle := RuntimeBundle([DeclaredAsset("source", d)], [], yaml);
    var plan := PlanOf(EMPTY_MANIFEST, [s], []);
    var prep := Prepared(EMPTY_MANIFEST, [s], [], plan);
    var m := Manifest(map[d := s.Identity()], map[]);
    var before := Snapshot(map[], history);
    var after := Snapshot(map[d := File(Data(data), FromService), CONFIG_FILE_NAME := File(Yaml(yaml), FromService),
                              MANIFEST_FILE_NAME := File(ManifestText(m), FromService)], history);
    OneAssetDeclared("source", d, |data|, Some(time), yaml);
    OneAssetPlan(s);
    KeysAreNotOwnFiles(d);
    OneAssetIsBuilt(s, data, m, after);
    OneAssetAttempt(bundle, s, prep, before, after, m, yaml);
    r := Run([before, after], [Attempted(Trial(bundle, Stopped, Stopped, Committed, prep, before.files))]);
  }

  lemma OneAssetIsBuilt(s: AssetSource, data: seq<int>, m: Manifest, after: Snapshot)
    requires m == Manifest(map[s.destination := s.Identity()], map[]) && s.len == |data| && s.mtime.Some?
    requires after.history == map[s.source := [Present(data, s.mtime)]] && HoldsBytes(after.files, s.destination, data)
    ensures ValidHistory(after.history) && Built(m, [s], after.files, after.history, after.history)
  {
    assert Stamped(Of(after.history, s.source)[0], s.Identity());
    CurrentIsMadeFrom(after.files, s.destination, s.Identity(), after.history);
  }

  lemma OneAssetAttempt(bundle: RuntimeBundle, s: AssetSource, prep: Prepared, before: Snapshot, after: Snapshot,
                        m: Manifest, yaml: string)
    requires IsKey(s.destination) && bundle.yaml == yaml
    requires BundleDeclaration(bundle) == DeclarationOf([s], []) == Declaration({(s.destination, s.source)}, {})
    requires WellDeclared([s], [])
    requires prep == Prepared(EMPTY_MANIFEST, [s], [], PlanOf(EMPTY_MANIFEST, [s], []))
    requires before.files == map[] && after.files.Keys == OwnFiles() + {s.destination}
    requires before.history == after.history && ValidHistory(after.history)
    requires MANIFEST_FILE_NAME in after.files && after.files[MANIFEST_FILE_NAME] == File(ManifestText(m), FromService)
    requires CONFIG_FILE_NAME in after.files && after.files[CONFIG_FILE_NAME] == File(Yaml(yaml), FromService)
    requires m == Manifest(map[s.destination := s.Identity()], map[])
    requires Built(m, [s], after.files, after.history, after.history)
    ensures Attempt(Trial(bundle, Stopped, Stopped, Committed, prep, before.files), before, after)
  {
    hide Resolve, IsTempPath, Built, BundleDeclaration, DeclarationOf, WellDeclared;
    ExtendsReflexive(after.history);
    var decl := BundleDeclaration(bundle);
    assert OnDisk(after.files) == Some(m);
    OneAssetTrusted(decl, s, m, after);
    assert (s.destination, s.source) in decl.assets;
    assert (s.destination, s.source).0 in AssetKeys(decl);
    assert CanonicalOnDisk(after.files);
    assert Covers(Some(m), decl);
    PlanMembers(EMPTY_MANIFEST, [s]);
    assert CopyOf(s) in prep.plan.copies;
    assert s.destination in Destinations(prep.plan.copies);
  }

  lemma OneAssetTrusted(decl: Declaration, s: AssetSource, m: Manifest, after: Snapshot)
    requires ValidHistory(after.history) && OnDisk(after.files) == Some(m)
    requires Built(m, [s], after.files, after.history, after.history)
    ensures Trusted(decl, after.files, after.history)
  {
    HonestIsTrusted(decl, after.files, after.history);
  }
}
