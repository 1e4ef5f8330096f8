/**
 What refreshing a generation relies on and what it guarantees: when a plan is ready, what an attempt
 leaves behind however it ends, and the facts that link the two.
 */
module RefreshRules {
  import opened Wrappers
  import opened Names
  import opened StringOrder
  import opened StagePlan
  import opened Bundle
  import opened GenerationDisk
  import opened GenerationFiles

  datatype RuntimeBundle = RuntimeBundle(assets: seq<DeclaredAsset>, providers: seq<RemoteProvider>, yaml: string)

  // How an attempt to refresh the generation ended.
  datatype Outcome =
    | Refused                        // before anything was written
    | Interrupted                    // after writing, before the commit
    | CommitFailed(discarded: bool)  // and whether the manifest could then be removed
    | Committed

  datatype Prepared = Prepared(previous: Manifest, sources: seq<AssetSource>, remote: seq<RemoteProvider>, plan: Plan)

  /* ---------- what can go wrong, and when things are looked at ---------- */

  // What the file system refuses during one attempt.
  datatype Faults = Faults(
    rejected: set<string>,   // sources that do not validate
    hidden: set<string>,     // sources that cannot be inspected while the bundle is gathered
    manifestReadable: bool,
    stuck: set<string>,      // paths that cannot be removed
    broken: set<string>,     // paths that cannot be written
    unreadable: set<string>) // sources that cannot be inspected after they have been copied

  // The moments at which sources were looked at: probed, opened to be copied, and checked after that.
  datatype Log = Log(probed: seq<History>, begun: seq<History>, checked: seq<History>)

  predicate During(moments: seq<History>, h0: History, h: History) {
    forall i | 0 <= i < |moments| :: ValidHistory(moments[i]) && Extends(h0, moments[i]) && Extends(moments[i], h)
  }

  // What inspecting a source at the moment `t` says of it.
  function ProbeAt(source: string, faults: Faults, t: History): Probe
    requires ValidHistory(t)
  {
    if source in faults.rejected || Current(t, source).Gone? then Rejected
    else if source in faults.hidden then Unreadable
    else Found(|Current(t, source).bytes|, Current(t, source).mtime)
  }

  // Gathering gets through: every source was found when it was probed, and the declarations are consistent.
  predicate Gathers(bundle: RuntimeBundle, faults: Faults, probed: seq<History>) {
    && |probed| == |bundle.assets|
    && (forall i | 0 <= i < |probed| ::
          ValidHistory(probed[i]) && ProbeAt(bundle.assets[i].source, faults, probed[i]).Found?)
    && DistinctDestinations(bundle.assets) && Consistent(bundle.providers, KeysOf(bundle.assets))
  }

  // And these are the sources it gathers.
  predicate GatheredAs(bundle: RuntimeBundle, faults: Faults, probed: seq<History>, sources: seq<AssetSource>)
    requires Gathers(bundle, faults, probed)
  {
    && |sources| == |bundle.assets|
    && forall i | 0 <= i < |sources| ::
         bundle.assets[i] in bundle.assets &&
         sources[i] == SourceOf(bundle.assets[i], ProbeAt(bundle.assets[i].source, faults, probed[i]))
  }

  // Every copy could be made.
  predicate AllCopyable(copies: seq<PlannedCopy>, faults: Faults, begun: seq<History>) {
    && |begun| == |copies|
    && forall i | 0 <= i < |copies| :: ValidHistory(begun[i]) && Copyable(copies[i], faults.broken, begun[i])
  }

  // The copy begun last could not.
  predicate BrokeOff(copies: seq<PlannedCopy>, faults: Faults, begun: seq<History>) {
    && 0 < |begun| <= |copies| && ValidHistory(Last(begun))
    && !Copyable(copies[|begun| - 1], faults.broken, Last(begun))
  }

  // No source had moved when it was checked after its copy.
  predicate NoneMoved(copies: seq<PlannedCopy>, faults: Faults, checked: seq<History>) {
    && |checked| == |copies|
    && forall i | 0 <= i < |copies| :: ValidHistory(checked[i]) && !Moved(copies[i], faults.unreadable, checked[i])
  }

  // The source checked last had.
  predicate MovedOff(copies: seq<PlannedCopy>, faults: Faults, checked: seq<History>) {
    && 0 < |checked| <= |copies| && ValidHistory(Last(checked))
    && Moved(copies[|checked| - 1], faults.unreadable, Last(checked))
  }

  lemma DuringLater(moments: seq<History>, h0: History, h1: History, h: History, h': History)
    requires During(moments, h1, h) && Extends(h0, h1) && Extends(h, h')
    ensures During(moments, h0, h')
  {
    forall i | 0 <= i < |moments|
      ensures Extends(h0, moments[i]) && Extends(moments[i], h')
    {
      ExtendsTransitive(h0, h1, moments[i]);
      ExtendsTransitive(moments[i], h, h');
    }
  }

  lemma OneMoreMoment(moments: seq<History>, h0: History, h: History, t: History, h': History)
    requires During(moments, h0, h) && Extends(h0, h) && Extends(h, t) && Extends(t, h') && ValidHistory(t)
    ensures During(moments, h0, h') && During(moments + [t], h0, h')
  {
    ExtendsTransitive(h0, h, t);
    ExtendsTransitive(h, t, h');
    ExtendsReflexive(h0);
    DuringLater(moments, h0, h0, h, h');
  }

  lemma NoMoments(h0: History, h: History)
    ensures During([], h0, h)
  {}

  lemma NothingBegun(copies: seq<PlannedCopy>, faults: Faults)
    ensures AllCopyable(copies[..0], faults, []) && NoneMoved(copies[..0], faults, [])
  {}

  lemma OneMoreBegun(copies: seq<PlannedCopy>, i: nat, faults: Faults, begun: seq<History>, t: History)
    requires i < |copies| && AllCopyable(copies[..i], faults, begun) && ValidHistory(t)
    ensures if Copyable(copies[i], faults.broken, t) then AllCopyable(copies[..i + 1], faults, begun + [t])
            else BrokeOff(copies, faults, begun + [t])
  {
    hide Copyable;
  }

  lemma OneMoreChecked(copies: seq<PlannedCopy>, i: nat, faults: Faults, checked: seq<History>, t: History)
    requires i < |copies| && NoneMoved(copies[..i], faults, checked) && ValidHistory(t)
    ensures if Moved(copies[i], faults.unreadable, t) then MovedOff(copies, faults, checked + [t])
            else NoneMoved(copies[..i + 1], faults, checked + [t])
  {
    hide Moved;
  }

  // A loop that broke off has not got through.
  lemma NotAll(copies: seq<PlannedCopy>, faults: Faults, begun: seq<History>, checked: seq<History>)
    ensures BrokeOff(copies, faults, begun) ==> !AllCopyable(copies, faults, begun)
    ensures MovedOff(copies, faults, checked) ==> !NoneMoved(copies, faults, checked)
  {}

  // What carrying out a plan at a start comes to: it is interrupted when a stale cache cannot be discarded or a copy
  // cannot be made, and otherwise it commits, unless one of its own two files cannot be written.
  predicate Materializes(plan: Plan, faults: Faults, begun: seq<History>, outcome: Outcome) {
    var cleared := Members(plan.requiredDeletes) !! faults.stuck;
    && (cleared ==> AllCopyable(plan.copies, faults, begun) || BrokeOff(plan.copies, faults, begun))
    && (outcome.Committed? <==>
          cleared && AllCopyable(plan.copies, faults, begun) && OwnFiles() !! faults.broken)
    && (outcome.CommitFailed? <==>
          cleared && AllCopyable(plan.copies, faults, begun) && !(OwnFiles() !! faults.broken))
  }

  // The same for staging, which is also interrupted when a source has moved or the core was restarted.
  predicate Stages(plan: Plan, faults: Faults, restarted: bool, begun: seq<History>, checked: seq<History>,
                   outcome: Outcome) {
    var cleared := Members(plan.requiredDeletes) !! faults.stuck;
    var copied := AllCopyable(plan.copies, faults, begun) && NoneMoved(plan.copies, faults, checked);
    && (cleared ==> copied || BrokeOff(plan.copies, faults, begun) || MovedOff(plan.copies, faults, checked))
    && (outcome.Committed? <==> cleared && copied && !restarted && OwnFiles() !! faults.broken)
    && (outcome.CommitFailed? <==> cleared && copied && !restarted && !(OwnFiles() !! faults.broken))
  }

  // The source is there and does not change between `h0` and `h`.
  predicate StaysPut(source: string, h0: History, h: History)
    requires ValidHistory(h0)
  {
    Of(h, source) == Of(h0, source) && Current(h0, source).Present?
  }

  lemma PutAllAlong(source: string, h0: History, t: History, h: History)
    requires ValidHistory(h0) && ValidHistory(t) && Extends(h0, t) && Extends(t, h) && StaysPut(source, h0, h)
    ensures Current(t, source) == Current(h0, source)
  {
    Sandwich(h0, t, h, source);
  }

  // With every source in its place all the time, nothing hidden, and a consistent bundle, gathering gets through.
  lemma StillSourcesAreGathered(bundle: RuntimeBundle, faults: Faults, probed: seq<History>, h0: History, h: History)
    requires ValidHistory(h0) && faults.rejected == {} && faults.hidden == {}
    requires DistinctDestinations(bundle.assets) && Consistent(bundle.providers, KeysOf(bundle.assets))
    requires During(probed, h0, h) && |probed| == |bundle.assets|
    requires forall a | a in bundle.assets :: StaysPut(a.source, h0, h)
    ensures Gathers(bundle, faults, probed)
  {
    hide Resolve, DistinctDestinations, Consistent, KeysOf, ValidHistory, Extends, Of;
    forall i | 0 <= i < |probed|
      ensures ProbeAt(bundle.assets[i].source, faults, probed[i]).Found?
    {
      assert bundle.assets[i] in bundle.assets;
      PutAllAlong(bundle.assets[i].source, h0, probed[i], h);
    }
  }

  lemma GatheredAt(bundle: RuntimeBundle, faults: Faults, probed: seq<History>, sources: seq<AssetSource>, i: nat)
    requires Gathers(bundle, faults, probed) && GatheredAs(bundle, faults, probed, sources) && i < |sources|
    ensures i < |probed| == |bundle.assets| && ValidHistory(probed[i]) && bundle.assets[i] in bundle.assets
    ensures sources[i].source == bundle.assets[i].source
    ensures Stamped(Current(probed[i], sources[i].source), sources[i].Identity())
  {
    hide Resolve, DistinctDestinations, Consistent, KeysOf, ValidHistory, Of;
    assert ProbeAt(bundle.assets[i].source, faults, probed[i]).Found?;
  }

  lemma StillSourceIsCopied(bundle: RuntimeBundle, faults: Faults, probed: seq<History>, sources: seq<AssetSource>,
                            previous: Manifest, c: PlannedCopy, h0: History, t: History, h: History)
    requires ValidHistory(h0) && During(probed, h0, h) && Gathers(bundle, faults, probed)
    requires GatheredAs(bundle, faults, probed, sources)
    requires forall a | a in bundle.assets :: StaysPut(a.source, h0, h)
    requires ValidHistory(t) && Extends(h0, t) && Extends(t, h) && c in CopiesOf(previous, sources)
    ensures Stamped(Current(t, c.source), c.identity)
  {
    hide Resolve, Gathers, GatheredAs, ValidHistory, Extends, Of, Stamped, StaysPut;
    PlanMembers(previous, sources);
    var s :| s in sources && c == CopyOf(s);
    assert CopyOf(s) == PlannedCopy(s.source, s.destination, s.Identity());
    var i :| 0 <= i < |sources| && sources[i] == s;
    GatheredAt(bundle, faults, probed, sources, i);
    PutAllAlong(s.source, h0, probed[i], h);
    PutAllAlong(s.source, h0, t, h);
  }

  /**
   Then, with no path stuck or broken and no source unreadable, nothing is in the way of an attempt: a start commits,
   and so does a live update whose core has not been restarted.
   */
  lemma NothingInTheWay(bundle: RuntimeBundle, faults: Faults, log: Log, sources: seq<AssetSource>, previous: Manifest,
                        plan: Plan, outcome: Outcome, h0: History, h: History)
    requires ValidHistory(h0) && faults.stuck == {} && faults.broken == {} && faults.unreadable == {}
    requires During(log.probed, h0, h) && During(log.begun, h0, h) && During(log.checked, h0, h)
    requires Gathers(bundle, faults, log.probed) && GatheredAs(bundle, faults, log.probed, sources)
    requires forall a | a in bundle.assets :: StaysPut(a.source, h0, h)
    requires plan.copies == CopiesOf(previous, sources)
    requires Materializes(plan, faults, log.begun, outcome) ||
             Stages(plan, faults, false, log.begun, log.checked, outcome)
    ensures outcome.Committed?
  {
    hide Resolve, Gathers, GatheredAs, StaysPut, ValidHistory, Extends, Of, CopiesOf, AllCopyable, NoneMoved;
    if BrokeOff(plan.copies, faults, log.begun) {
      var k := |log.begun| - 1;
      assert plan.copies[k] in plan.copies;
      StillSourceIsCopied(bundle, faults, log.probed, sources, previous, plan.copies[k], h0, log.begun[k], h);
    }
    if MovedOff(plan.copies, faults, log.checked) {
      var k := |log.checked| - 1;
      assert plan.copies[k] in plan.copies;
      StillSourceIsCopied(bundle, faults, log.probed, sources, previous, plan.copies[k], h0, log.checked[k], h);
    }
  }

  /* ---------- declarations ---------- */

  function DeclarationOf(sources: seq<AssetSource>, remote: seq<RemoteProvider>): Declaration {
    Declaration(set s | s in sources :: (s.destination, s.source), set p | p in remote)
  }

  function BundleDeclaration(bundle: RuntimeBundle): Declaration {
    Declaration(
      set a | a in bundle.assets && Resolve(a.destination).Ok? :: (Resolve(a.destination).value, a.source),
      set p | p in bundle.providers && Resolve(p.destination).Ok? ::
        RemoteProvider(Resolve(p.destination).value, p.url))
  }

  function AssetKeys(decl: Declaration): set<string> {
    set a | a in decl.assets :: a.0
  }

  function OwnFiles(): set<string> {
    {CONFIG_FILE_NAME, MANIFEST_FILE_NAME}
  }

  // The core either leaves `p` alone or fills it from `url`.
  predicate DownloadsFrom(core: Core, p: string, url: string) {
    Spares(core, {p}) || (p in core.downloads && core.downloads[p] == url)
  }

  // A core whose writes cost the manifest on disk nothing it says about `decl`: it spares the service's own
  // files and the assets that are recorded, and fills a provider that is recorded under its declared URL from
  // that URL.
  predicate Respects(core: Core, decl: Declaration, disk: Option<Manifest>) {
    && Spares(core, OwnFiles())
    && (disk.Some? ==>
          && Spares(core, AssetKeys(decl) * disk.value.assets.Keys)
          && forall p | p in decl.remote && SameProvider(disk.value, p) :: DownloadsFrom(core, p.destination, p.url))
  }

  // A core whose writes cost `m` nothing at all: it spares the service's own files and every asset `m` records,
  // and fills every provider it records from the recorded URL.
  predicate Tame(core: Core, m: Manifest) {
    && Spares(core, OwnFiles() + m.assets.Keys)
    && forall p | p in m.remote :: DownloadsFrom(core, p, m.remote[p])
  }

  /* ---------- what a run keeps ---------- */

  predicate Keyed(decl: Declaration) {
    && (forall a | a in decl.assets :: IsKey(a.0))
    && (forall p | p in decl.remote :: IsKey(p.destination))
  }

  predicate ProperDeclaration(decl: Declaration) {
    Keyed(decl) && forall p | p in decl.remote :: p.destination !in AssetKeys(decl)
  }

  lemma BundleIsKeyed(bundle: RuntimeBundle)
    ensures Keyed(BundleDeclaration(bundle))
  {
    forall a | a in BundleDeclaration(bundle).assets
      ensures IsKey(a.0)
    {
      var b :| b in bundle.assets && Resolve(b.destination).Ok? && a == (Resolve(b.destination).value, b.source);
      PlannedPathsResolve(b.destination);
    }
    forall p | p in BundleDeclaration(bundle).remote
      ensures IsKey(p.destination)
    {
      var q :| q in bundle.providers && Resolve(q.destination).Ok? &&
          p == RemoteProvider(Resolve(q.destination).value, q.url);
      PlannedPathsResolve(q.destination);
    }
  }

  lemma KeysAreNotOwnFiles(key: string)
    requires IsKey(key)
    ensures key !in OwnFiles() && !IsTempPath(key)
  {
    KeysAreCanonical(key);
    TempsAreApart(key);
  }

  // However far a run gets before its commit, the old manifest stays and may still be trusted.
  lemma PartialRunKeepsTrust(core: Core, decl: Declaration, deleted: set<string>, copies: seq<PlannedCopy>,
                             written: set<string>, f0: Files, h0: History, f: Files, h: History)
    requires ValidHistory(h0) && ValidHistory(h) && Extends(h0, h)
    requires ProperDeclaration(decl) && Spares(core, OwnFiles())
    requires Changed(core, written, f0, f) && written <= deleted + Members(CopyDestinations(copies))
    requires forall d | d in deleted :: IsKey(d) && d !in AssetKeys(decl) && GoneOrRefilled(core, f, d)
    requires forall c | c in copies :: (c.destination, c.source) in decl.assets && CopiedIfSpared(core, c, f, h0, h)
    requires forall a, b | a in decl.assets && b in decl.assets && a.0 == b.0 :: a == b
    ensures Same(f0, f, MANIFEST_FILE_NAME) && Same(f0, f, CONFIG_FILE_NAME)
    ensures Trusted(decl, f0, h0) && Respects(core, decl, OnDisk(f0)) ==> Trusted(decl, f, h)
  {
    var dests := CopyDestinations(copies);
    forall d | d in dests
      ensures exists c | c in copies :: c.destination == d && IsKey(d) && d in AssetKeys(decl)
    {
      var i :| 0 <= i < |copies| && dests[i] == d;
      assert copies[i] in copies;
      assert IsKey((d, copies[i].source).0);
    }
    forall p | p in OwnFiles()
      ensures Same(f0, f, p)
    {
      OwnFilesAreOutside(p, written);
      assert CoreMayChange(core, f0, f, p);
    }
    if Trusted(decl, f0, h0) && Respects(core, decl, OnDisk(f0)) && OnDisk(f).Some? {
      var m := OnDisk(f).value;
      forall d, source | (d, source) in decl.assets && d in m.assets
        ensures EntryTrusted(m.assets[d], d, source, f, h)
      {
        assert d == (d, source).0 && d in AssetKeys(decl) && Spares(core, {d});
        KeysAreNotOwnFiles(d);
        assert EntryTrusted(m.assets[d], d, source, f0, h0);
        if d in dests {
          var c :| c in copies && c.destination == d;
          assert (d, c.source) == (d, source);
          CopiedEntryIsTrusted(c, m.assets[d], f, h0, h);
        } else {
          assert CoreMayChange(core, f0, f, d);
          EntryTrustedLater(m.assets[d], d, source, f0, f, h0, h);
        }
      }
      forall p | p in decl.remote && SameProvider(m, p)
        ensures AbsentOrFrom(f, p.destination, p.url)
      {
        KeysAreNotOwnFiles(p.destination);
        if p.destination !in deleted {
          assert CoreMayChange(core, f0, f, p.destination);
        }
      }
    }
  }

  lemma OwnFilesAreOutside(p: string, paths: set<string>)
    requires p in OwnFiles() && forall d | d in paths :: IsKey(d)
    ensures p !in paths && !IsTempPath(p)
  {
    TempsAreApart(p);
    if p in paths { KeysAreNotOwnFiles(p); }
  }

  lemma CopiedEntryIsTrusted(c: PlannedCopy, id: SourceIdentity, f: Files, h0: History, h: History)
    requires ValidHistory(h0) && ValidHistory(h) && Extends(h0, h)
    requires Copied(c, f, h0, h) && (id.source == c.source && id.mtime.Some? ==> Seen(h0, id))
    ensures EntryTrusted(id, c.destination, c.source, f, h)
  {
    if id.source == c.source && id.mtime.Some? {
      SeenLater(h0, h, id);
      if IsCurrent(h, id) {
        SameStampSameVersion(h0, h, id);
        CurrentIsMadeFrom(f, c.destination, id, h);
      }
    }
  }

  /* ---------- the two copy loops ---------- */

  predicate CopyReady(c: PlannedCopy) {
    IsKey(c.destination) && c.identity.source == c.source
  }

  function Destinations(copies: seq<PlannedCopy>): set<string> {
    set c | c in copies :: c.destination
  }

  ghost predicate Progress(copies: seq<PlannedCopy>, i: nat, core: Core, f0: Files, h0: History, f: Files, h: History)
    requires ValidHistory(h0)
  {
    && i <= |copies| && ValidHistory(h) && Extends(h0, h)
    && Changed(core, Destinations(copies[..i]), f0, f)
    && (forall j | 0 <= j < i :: CopiedIfSpared(core, copies[j], f, h0, h))
  }

  predicate DistinctCopies(copies: seq<PlannedCopy>) {
    forall i, j | 0 <= i < j < |copies| :: copies[i].destination != copies[j].destination
  }

  // Copy number `i` leaves the earlier copies as they were.
  lemma OneMoreCopy(copies: seq<PlannedCopy>, i: nat, ok: bool, core: Core,
                    f0: Files, h0: History, f: Files, h: History, f': Files, h': History)
    requires ValidHistory(h0) && Progress(copies, i, core, f0, h0, f, h) && i < |copies|
    requires DistinctCopies(copies) && forall c | c in copies :: CopyReady(c)
    requires ValidHistory(h') && Extends(h, h')
    requires Changed(core, if ok then {copies[i].destination} else {}, f, f')
    requires ok ==> CopiedIfSpared(core, copies[i], f', h, h')
    ensures forall j | 0 <= j < i && Spares(core, {copies[j].destination}) :: Same(f, f', copies[j].destination)
    ensures Progress(copies, if ok then i + 1 else i, core, f0, h0, f', h')
  {
    hide Resolve, IsTempPath;
    ExtendsTransitive(h0, h, h');
    var written := if ok then {copies[i].destination} else {};
    ChangedTransitive(core, Destinations(copies[..i]), written, f0, f, f');
    assert copies[..i + 1] == copies[..i] + [copies[i]];
    assert Destinations(copies[..i + 1]) == Destinations(copies[..i]) + {copies[i].destination};
    assert Destinations(copies[..i]) + {} == Destinations(copies[..i]);
    forall j | 0 <= j < i && Spares(core, {copies[j].destination})
      ensures Same(f, f', copies[j].destination) && Copied(copies[j], f', h0, h')
    {
      assert copies[j] in copies && copies[j].destination in Destinations(copies);
      KeysAreNotOwnFiles(copies[j].destination);
      assert CoreMayChange(core, f, f', copies[j].destination);
      CopiedLater(copies[j], f, f', h0, h, h');
    }
    if ok && Spares(core, {copies[i].destination}) {
      CopiedSince(copies[i], f', h0, h, h');
    }
  }

  lemma StillRecorded(copies: seq<PlannedCopy>, i: nat, core: Core, f: Files, h: History, f': Files, h': History)
    requires i <= |copies| && Extends(h, h')
    requires forall j | 0 <= j < i && Spares(core, {copies[j].destination}) :: Same(f, f', copies[j].destination)
    ensures forall j | 0 <= j < i && RecordedIfSpared(core, copies[j], f, h) ::
              RecordedIfSpared(core, copies[j], f', h')
  {
    forall j | 0 <= j < i && RecordedIfSpared(core, copies[j], f, h)
      ensures RecordedIfSpared(core, copies[j], f', h')
    {
      if Spares(core, {copies[j].destination}) { RecordedLater(copies[j], f, f', h, h'); }
    }
  }

  // The next copy of a ready plan meets what copying requires.
  lemma NextCopy(copies: seq<PlannedCopy>, i: nat, h0: History, h: History)
    requires i < |copies| && forall c | c in copies :: CopyReady(c)
    requires Extends(h0, h) && forall c | c in copies && c.identity.mtime.Some? :: Seen(h0, c.identity)
    ensures IsKey(copies[i].destination) && copies[i].destination in Destinations(copies)
    ensures copies[i].identity.source == copies[i].source
    ensures copies[i].identity.mtime.Some? ==> Seen(h, copies[i].identity)
  {
    assert copies[i] in copies && copies[i].destination in Destinations(copies);
    if copies[i].identity.mtime.Some? {
      SeenLater(h0, h, copies[i].identity);
    }
  }

  lemma CopiedSince(c: PlannedCopy, f: Files, h0: History, h: History, h': History)
    requires ValidHistory(h0) && ValidHistory(h) && Extends(h0, h) && Extends(h, h')
    requires Copied(c, f, h, h')
    ensures Copied(c, f, h0, h')
  {
    if Of(h', c.source) == Of(h0, c.source) {
      Sandwich(h0, h, h', c.source);
    }
  }

  // Some entries of `m`, all of them for paths in `dropped`, may be missing from `m'`.
  predicate Without(m: Manifest, m': Manifest, dropped: set<string>) {
    && m'.remote == m.remote && m'.assets.Keys <= m.assets.Keys
    && (forall d | d in m'.assets :: m'.assets[d] == m.assets[d])
    && (forall d | d in m.assets && d !in m'.assets :: d in dropped)
  }

  // From `h0` to `h` the source was what `id` says, and could be inspected.
  predicate HeldStill(id: SourceIdentity, h0: History, h: History, unreadable: set<string>)
    requires ValidHistory(h0)
  {
    Of(h, id.source) == Of(h0, id.source) && IsCurrent(h0, id) && id.source !in unreadable
  }

  predicate AllHeldStill(sources: seq<AssetSource>, h0: History, h: History, unreadable: set<string>) {
    forall s | s in sources :: Of(h, s.source) == Of(h0, s.source) && s.source !in unreadable
  }

  // Only a source that did not hold still loses its entry.
  predicate KeepsProofs(copies: seq<PlannedCopy>, target: Manifest, m: Manifest, h0: History, h: History,
                        unreadable: set<string>)
    requires ValidHistory(h0)
  {
    && Without(target, m, Destinations(copies))
    && forall c | c in copies && c.destination in target.assets ::
         HeldStill(c.identity, h0, h, unreadable) ==> c.destination in m.assets
  }

  lemma KeepsProofsLater(copies: seq<PlannedCopy>, target: Manifest, m: Manifest, h0: History, h: History,
                         h': History, unreadable: set<string>)
    requires ValidHistory(h0) && Extends(h0, h) && Extends(h, h') && KeepsProofs(copies, target, m, h0, h, unreadable)
    ensures KeepsProofs(copies, target, m, h0, h', unreadable)
  {
    forall c | c in copies && HeldStill(c.identity, h0, h', unreadable)
      ensures HeldStill(c.identity, h0, h, unreadable)
    {
      Sandwich(h0, h, h', c.identity.source);
    }
  }

  // Copying started late enough for what was planned to still count.
  lemma KeepsProofsSince(copies: seq<PlannedCopy>, target: Manifest, m: Manifest, h0: History, h1: History,
                         h: History, unreadable: set<string>)
    requires ValidHistory(h0) && ValidHistory(h1) && Extends(h0, h1)
    requires Extends(h1, h) && KeepsProofs(copies, target, m, h1, h, unreadable)
    ensures KeepsProofs(copies, target, m, h0, h, unreadable)
  {
    forall c | c in copies && HeldStill(c.identity, h0, h, unreadable)
      ensures HeldStill(c.identity, h1, h, unreadable)
    {
      Sandwich(h0, h1, h, c.identity.source);
    }
  }

  lemma StillHeld(copies: seq<PlannedCopy>, i: nat, h0: History, h: History, h': History, unreadable: set<string>)
    requires ValidHistory(h0) && Extends(h0, h) && Extends(h, h') && i <= |copies|
    ensures forall j | 0 <= j < i && HeldStill(copies[j].identity, h0, h', unreadable) ::
              HeldStill(copies[j].identity, h0, h, unreadable)
  {
    forall j | 0 <= j < i && HeldStill(copies[j].identity, h0, h', unreadable)
      ensures HeldStill(copies[j].identity, h0, h, unreadable)
    {
      Sandwich(h0, h, h', copies[j].identity.source);
    }
  }

  lemma OneMoreDestination(copies: seq<PlannedCopy>, i: nat)
    requires DistinctCopies(copies) && i < |copies|
    ensures Destinations(copies[..i + 1]) == Destinations(copies[..i]) + {copies[i].destination}
    ensures copies[i].destination !in Destinations(copies[..i]) && Destinations(copies[..i]) <= Destinations(copies)
    ensures forall j | 0 <= j < i :: copies[j].destination != copies[i].destination
  {
    assert copies[..i + 1] == copies[..i] + [copies[i]];
  }

  // Of the first `i` copies, those still in the manifest `m` are what it says, and only a source that did not hold
  // still has lost its entry.
  ghost predicate Proven(copies: seq<PlannedCopy>, i: nat, target: Manifest, m: Manifest, core: Core, h0: History,
                         f: Files, h: History, unreadable: set<string>)
    requires ValidHistory(h0)
  {
    && i <= |copies| && Without(target, m, Destinations(copies[..i]))
    && (forall j | 0 <= j < i && copies[j].destination in m.assets :: RecordedIfSpared(core, copies[j], f, h))
    && forall j | 0 <= j < i && copies[j].destination in target.assets ::
         HeldStill(copies[j].identity, h0, h, unreadable) ==> copies[j].destination in m.assets
  }

  lemma NothingProven(copies: seq<PlannedCopy>, target: Manifest, core: Core, h0: History, f: Files,
                      unreadable: set<string>)
    requires ValidHistory(h0)
    ensures Proven(copies, 0, target, target, core, h0, f, h0, unreadable)
  {}

  lemma OneMoreProven(copies: seq<PlannedCopy>, i: nat, target: Manifest, m: Manifest, core: Core, h0: History,
                      f: Files, h: History, f': Files, h': History, unreadable: set<string>)
    requires ValidHistory(h0) && ValidHistory(h') && Extends(h0, h) && Extends(h, h')
    requires Proven(copies, i, target, m, core, h0, f, h, unreadable) && i < |copies| && DistinctCopies(copies)
    requires copies[i].identity.source == copies[i].source
    requires forall j | 0 <= j < i && Spares(core, {copies[j].destination}) :: Same(f, f', copies[j].destination)
    requires !Moved(copies[i], unreadable, h') ==> RecordedIfSpared(core, copies[i], f', h')
    ensures var m' := if Moved(copies[i], unreadable, h') then m.(assets := m.assets - {copies[i].destination}) else m;
            Proven(copies, i + 1, target, m', core, h0, f', h', unreadable)
  {
    hide MadeFrom, RecordedIfSpared, HeldStill, Moved, Extends, ValidHistory, Resolve;
    var c := copies[i];
    OneMoreDestination(copies, i);
    StillHeld(copies, i, h0, h, h', unreadable);
    StillRecorded(copies, i, core, f, h, f', h');
    UnmovedIfHeld(c, h0, h', unreadable);
    hide Spares, Destinations, DistinctCopies;
    var m' := if Moved(c, unreadable, h') then m.(assets := m.assets - {c.destination}) else m;
    assert Without(target, m', Destinations(copies[..i + 1]));
  }

  // A source that held still passes the check after its copy.
  lemma UnmovedIfHeld(c: PlannedCopy, h0: History, h: History, unreadable: set<string>)
    requires ValidHistory(h0) && ValidHistory(h) && c.identity.source == c.source
    ensures HeldStill(c.identity, h0, h, unreadable) ==> !Moved(c, unreadable, h)
  {}

  lemma ProvenIsWithin(copies: seq<PlannedCopy>, i: nat, target: Manifest, m: Manifest, core: Core, h0: History,
                       f: Files, h: History, unreadable: set<string>)
    requires ValidHistory(h0) && Proven(copies, i, target, m, core, h0, f, h, unreadable)
    ensures Without(target, m, Destinations(copies))
  {
    assert Destinations(copies[..i]) <= Destinations(copies);
  }

  lemma AllProven(copies: seq<PlannedCopy>, target: Manifest, m: Manifest, core: Core, h0: History, f: Files,
                  h: History, unreadable: set<string>)
    requires ValidHistory(h0) && Proven(copies, |copies|, target, m, core, h0, f, h, unreadable)
    ensures forall c | c in copies && c.destination in m.assets :: RecordedIfSpared(core, c, f, h)
    ensures KeepsProofs(copies, target, m, h0, h, unreadable)
  {
    hide HeldStill, RecordedIfSpared;
    assert copies[..|copies|] == copies;
  }

  // If every source held still, the manifest is the planned one.
  lemma AllProofsKept(prep: Prepared, sound: bool, m: Manifest, f: Files, g0: History, h0: History, h: History,
                      unreadable: set<string>)
    requires ValidHistory(h0) && Extends(h0, h) && Ready(prep, sound, f, g0, h0)
    requires KeepsProofs(prep.plan.copies, prep.plan.manifest, m, h0, h, unreadable)
    requires AllHeldStill(prep.sources, g0, h, unreadable)
    ensures m == prep.plan.manifest
  {
    hide Resolve, IsTempPath, CanonicalOnDisk, Trusted, Canonical;
    forall d | d in prep.plan.manifest.assets
      ensures d in m.assets
    {
      if d !in m.assets {
        var c :| c in prep.plan.copies && c.destination == d;
        CopySource(prep, c);
        var s := AssetSource(c.source, c.destination, c.identity.len, c.identity.mtime);
        assert Known(sound, s, prep.previous, f, g0, h0);
        Sandwich(g0, h0, h, s.source);
      }
    }
    assert m.assets == prep.plan.manifest.assets;
  }

  /* ---------- what a plan needs, and what a finished run has ---------- */

  // Every path a manifest records is canonical, or does not validate at all.
  ghost predicate Canonical(m: Manifest) {
    forall d | d in Declared(m) && Resolve(d).Ok? :: IsKey(d)
  }

  ghost predicate CanonicalOnDisk(f: Files) {
    OnDisk(f).Some? ==> Canonical(OnDisk(f).value)
  }

  // What gathering learned about one source, when `g0` was the state before gathering began. `sound` says
  // that the manifest on disk could be trusted then.
  ghost predicate Known(sound: bool, s: AssetSource, previous: Manifest, f: Files, g0: History, h: History)
    requires ValidHistory(h)
  {
    && (s.mtime.Some? ==> Seen(h, s.Identity()))
    && (Of(h, s.source) == Of(g0, s.source) ==> IsCurrent(h, s.Identity()))
    && (sound && Matches(previous, s) ==> MadeFrom(f, s.destination, s.Identity(), h))
  }

  ghost predicate Ready(prep: Prepared, sound: bool, f: Files, g0: History, h: History)
    requires ValidHistory(h)
  {
    && prep.plan == PlanOf(prep.previous, prep.sources, prep.remote)
    && WellDeclared(prep.sources, prep.remote)
    && ProperDeclaration(DeclarationOf(prep.sources, prep.remote))
    && Canonical(prep.previous) && CanonicalOnDisk(f)
    && (prep.previous == EMPTY_MANIFEST || OnDisk(f) == Some(prep.previous))
    && Extends(g0, h)
    && (forall s | s in prep.sources :: Known(sound, s, prep.previous, f, g0, h))
    && (sound ==> Trusted(DeclarationOf(prep.sources, prep.remote), f, h))
  }

  // Exactly what copying every source afresh would give, for the sources that stayed as they were at `g0`.
  ghost predicate UpToDate(sources: seq<AssetSource>, f: Files, g0: History, h: History)
    requires ValidHistory(h)
  {
    forall s | s in sources && Of(h, s.source) == Of(g0, s.source) ::
      Current(h, s.source).Present? && HoldsBytes(f, s.destination, Current(h, s.source).bytes)
  }

  predicate CopiedByTheService(sources: seq<AssetSource>, f: Files) {
    forall s | s in sources :: s.destination in f && f[s.destination].origin == FromService
  }

  // A generation whose manifest `m` tells the whole truth.
  ghost predicate Built(m: Manifest, sources: seq<AssetSource>, f: Files, g0: History, h: History)
    requires ValidHistory(h)
  {
    Honest(m, f, h) && ProvidersHonest(m, f) && UpToDate(sources, f, g0, h) && CopiedByTheService(sources, f)
  }

  lemma PlanCopyFacts(prep: Prepared, sound: bool, f: Files, g0: History, h: History)
    requires ValidHistory(h) && Ready(prep, sound, f, g0, h)
    ensures var plan, decl := prep.plan, DeclarationOf(prep.sources, prep.remote);
            && DistinctCopies(plan.copies)
            && (forall c | c in plan.copies :: CopyReady(c) && (c.destination, c.source) in decl.assets)
            && (forall c | c in plan.copies && c.identity.mtime.Some? :: Seen(h, c.identity))
            && Destinations(plan.copies) <= AssetKeys(decl)
  {
    hide Resolve, IsTempPath;
    CopiesAreDistinct(prep.previous, prep.sources);
    DistinctByDestination(prep.plan.copies);
    forall c | c in prep.plan.copies
      ensures CopyReady(c) && (c.identity.mtime.Some? ==> Seen(h, c.identity))
      ensures (c.destination, c.source) in DeclarationOf(prep.sources, prep.remote).assets
      ensures c.destination in AssetKeys(DeclarationOf(prep.sources, prep.remote))
    {
      CopySource(prep, c);
      assert Known(sound, AssetSource(c.source, c.destination, c.identity.len, c.identity.mtime), prep.previous, f, g0,
                   h);
    }
  }

  // A planned copy comes from a declared source.
  lemma CopySource(prep: Prepared, c: PlannedCopy)
    requires prep.plan == PlanOf(prep.previous, prep.sources, prep.remote) && c in prep.plan.copies
    requires ProperDeclaration(DeclarationOf(prep.sources, prep.remote))
    ensures AssetSource(c.source, c.destination, c.identity.len, c.identity.mtime) in prep.sources
    ensures CopyReady(c)
    ensures (c.destination, c.source) in DeclarationOf(prep.sources, prep.remote).assets
    ensures c.destination in AssetKeys(DeclarationOf(prep.sources, prep.remote))
  {
    hide Resolve, IsTempPath;
    PlanMembers(prep.previous, prep.sources);
    var s :| s in prep.sources && c == CopyOf(s);
    var a := (s.destination, s.source);
    assert a in DeclarationOf(prep.sources, prep.remote).assets;
    assert IsKey(a.0) && a.0 in AssetKeys(DeclarationOf(prep.sources, prep.remote));
  }

  lemma DistinctByDestination(copies: seq<PlannedCopy>)
    requires NoDuplicates(CopyDestinations(copies))
    ensures DistinctCopies(copies)
  {
    forall i, j | 0 <= i < j < |copies|
      ensures copies[i].destination != copies[j].destination
    {
      assert CopyDestinations(copies)[i] != CopyDestinations(copies)[j];
    }
  }

  lemma DestinationMembers(copies: seq<PlannedCopy>)
    ensures Destinations(copies) == Members(CopyDestinations(copies))
  {
    var dests := CopyDestinations(copies);
    forall d
      ensures d in Destinations(copies) <==> d in dests
    {
      if d in Destinations(copies) {
        var c :| c in copies && c.destination == d;
        var i :| 0 <= i < |copies| && copies[i] == c;
        assert dests[i] == d;
      }
      if d in dests {
        var i :| 0 <= i < |dests| && dests[i] == d;
        assert copies[i] in copies;
      }
    }
  }

  lemma PlanDeleteFacts(prep: Prepared)
    requires prep.plan == PlanOf(prep.previous, prep.sources, prep.remote)
    requires ProperDeclaration(DeclarationOf(prep.sources, prep.remote))
    ensures var plan, decl := prep.plan, DeclarationOf(prep.sources, prep.remote);
            && (forall d | d in plan.requiredDeletes :: IsKey(d) && d !in AssetKeys(decl))
            && (forall p | p in decl.remote && p.destination !in plan.requiredDeletes :: SameProvider(prep.previous, p))
  {
    RemoteMembers(prep.previous, prep.remote);
    var plan, decl := prep.plan, DeclarationOf(prep.sources, prep.remote);
    forall d | d in plan.requiredDeletes
      ensures IsKey(d) && d !in AssetKeys(decl)
    {
      var p :| p in prep.remote && d == p.destination;
      assert p in decl.remote;
    }
  }

  lemma PlanManifestFacts(prep: Prepared)
    requires prep.plan == PlanOf(prep.previous, prep.sources, prep.remote)
    requires WellDeclared(prep.sources, prep.remote)
    ensures var plan, decl := prep.plan, DeclarationOf(prep.sources, prep.remote);
            && plan.manifest.assets.Keys == AssetKeys(decl)
            && (forall s | s in prep.sources ::
                  s.destination in plan.manifest.assets && plan.manifest.assets[s.destination] == s.Identity())
            && (forall p | p in prep.remote ::
                  p.destination in plan.manifest.remote && plan.manifest.remote[p.destination] == p.url)
            && (forall d | d in plan.manifest.remote :: RemoteProvider(d, plan.manifest.remote[d]) in prep.remote)
            && (forall d | d in plan.hygieneDeletes ::
                  d in Declared(prep.previous) && d !in AssetKeys(decl) && d !in plan.manifest.remote)
            && (forall a, b | a in decl.assets && b in decl.assets && a.0 == b.0 :: a == b)
  {
    hide Resolve, IsTempPath;
    var plan, decl := prep.plan, DeclarationOf(prep.sources, prep.remote);
    ManifestOfDistinct(prep.sources);
    RemoteOfDistinct(prep.remote);
    PlanMembers(prep.previous, prep.sources);
    RemoteMembers(prep.previous, prep.remote);
    forall d
      ensures d in plan.manifest.assets <==> d in AssetKeys(decl)
    {
      if d in plan.manifest.assets {
        var s :| s in prep.sources && d == s.destination;
        assert (s.destination, s.source) in decl.assets;
      }
    }
    forall d | d in plan.manifest.remote
      ensures RemoteProvider(d, plan.manifest.remote[d]) in prep.remote
    {
      var p :| p in prep.remote && d == p.destination;
      assert p == RemoteProvider(d, plan.manifest.remote[d]);
    }
    UniqueDeclarations(prep.sources, prep.remote);
  }

  // One source, at the end of a run that copied everything it had planned to copy.
  lemma SourceIsBuilt(prep: Prepared, core: Core, manifest: Manifest, s: AssetSource,
                      g0: History, f0: Files, h0: History, f1: Files, h1: History, f: Files, h: History)
    requires ValidHistory(h0) && ValidHistory(h1) && ValidHistory(h)
    requires Extends(g0, h0) && Extends(h0, h1) && Extends(h1, h)
    requires prep.plan == PlanOf(prep.previous, prep.sources, prep.remote) && WellDeclared(prep.sources, prep.remote)
    requires Tame(core, prep.plan.manifest)
    requires Changed(core, Members(prep.plan.requiredDeletes), f0, f1)
    requires Changed(core, Destinations(prep.plan.copies), f1, f)
    requires s in prep.sources && IsKey(s.destination) && Known(true, s, prep.previous, f0, g0, h0)
    requires !Matches(prep.previous, s) ==>
               Copied(CopyOf(s), f, h1, h) && (s.destination in manifest.assets ==> Recorded(CopyOf(s), f, h))
    ensures s.destination in manifest.assets && s.mtime.Some? ==> MadeFrom(f, s.destination, s.Identity(), h)
    ensures Of(h, s.source) == Of(g0, s.source) ==>
              Current(h, s.source).Present? && HoldsBytes(f, s.destination, Current(h, s.source).bytes)
    ensures s.destination in f && f[s.destination].origin == FromService
  {
    hide Resolve, IsTempPath, PlanOf, Changed;
    ExtendsTransitive(h0, h1, h);
    if Of(h, s.source) == Of(g0, s.source) {
      Sandwich(g0, h0, h, s.source);
      Sandwich(h0, h1, h, s.source);
    }
    if Matches(prep.previous, s) {
      SkippedIsKept(prep, core, s, f0, f1, f);
      MadeFromLater(f0, f, s.destination, s.Identity(), h0, h);
      if Of(h, s.source) == Of(g0, s.source) {
        MadeFromCurrent(f, s.destination, s.Identity(), h);
      }
    }
  }

  // When every copy succeeded, the manifest about to be written tells the whole truth.
  lemma FinishedRunIsBuilt(prep: Prepared, core: Core, manifest: Manifest,
                           g0: History, f0: Files, h0: History, f1: Files, h1: History, f: Files, h: History)
    requires ValidHistory(h0) && ValidHistory(h1) && ValidHistory(h) && Extends(h0, h1) && Extends(h1, h)
    requires Ready(prep, true, f0, g0, h0) && Tame(core, prep.plan.manifest)
    requires Changed(core, Members(prep.plan.requiredDeletes), f0, f1)
    requires Changed(core, Destinations(prep.plan.copies), f1, f)
    requires forall d | d in prep.plan.requiredDeletes :: GoneOrRefilled(core, f1, d)
    requires forall c | c in prep.plan.copies :: CopiedIfSpared(core, c, f, h1, h)
    requires forall c | c in prep.plan.copies && c.destination in manifest.assets :: RecordedIfSpared(core, c, f, h)
    requires Without(prep.plan.manifest, manifest, Destinations(prep.plan.copies))
    ensures Built(manifest, prep.sources, f, g0, h)
  {
    hide Resolve, IsTempPath, Changed, Trusted, Copied, Recorded, Known, MadeFrom, PlanOf, GoneOrRefilled, Tame, Spares,
         WellDeclared, CanonicalOnDisk, Canonical, AbsentOrFrom, IsKey, Extends, Destinations;
    var plan, decl := prep.plan, DeclarationOf(prep.sources, prep.remote);
    PlanManifestFacts(prep);
    forall s | s in prep.sources
      ensures s.destination in manifest.assets && s.mtime.Some? ==> MadeFrom(f, s.destination, s.Identity(), h)
      ensures Of(h, s.source) == Of(g0, s.source) ==>
                Current(h, s.source).Present? && HoldsBytes(f, s.destination, Current(h, s.source).bytes)
      ensures s.destination in f && f[s.destination].origin == FromService
    {
      assert (s.destination, s.source) in decl.assets;
      assert IsKey((s.destination, s.source).0);
      CopyIsPlanned(prep, s);
      TameSpares(core, plan.manifest, s.destination);
      SourceIsBuilt(prep, core, manifest, s, g0, f0, h0, f1, h1, f, h);
    }
    forall p | p in manifest.remote
      ensures AbsentOrFrom(f, p, manifest.remote[p])
    {
      ProviderIsKept(prep, true, core, RemoteProvider(p, manifest.remote[p]), g0, f0, h0, f1, f);
    }
    forall d | d in manifest.assets && manifest.assets[d].mtime.Some?
      ensures MadeFrom(f, d, manifest.assets[d], h)
    {
      var s := DeclaredSource(prep, d);
    }
  }

  lemma TameSpares(core: Core, m: Manifest, d: string)
    requires Tame(core, m) && d in m.assets
    ensures Spares(core, {d})
  {}

  lemma CopyIsPlanned(prep: Prepared, s: AssetSource)
    requires prep.plan == PlanOf(prep.previous, prep.sources, prep.remote) && s in prep.sources
    ensures !Matches(prep.previous, s) ==> CopyOf(s) in prep.plan.copies
  {
    PlanMembers(prep.previous, prep.sources);
  }

  lemma DeclaredSource(prep: Prepared, d: string) returns (s: AssetSource)
    requires prep.plan == PlanOf(prep.previous, prep.sources, prep.remote) && d in prep.plan.manifest.assets
    ensures s in prep.sources && s.destination == d
  {
    PlanMembers(prep.previous, prep.sources);
    s :| s in prep.sources && d == s.destination;
  }

  lemma SkippedIsKept(prep: Prepared, core: Core, s: AssetSource, f0: Files, f1: Files, f: Files)
    requires prep.plan == PlanOf(prep.previous, prep.sources, prep.remote) && WellDeclared(prep.sources, prep.remote)
    requires Tame(core, prep.plan.manifest)
    requires Changed(core, Members(prep.plan.requiredDeletes), f0, f1)
    requires Changed(core, Destinations(prep.plan.copies), f1, f)
    requires s in prep.sources && Matches(prep.previous, s) && IsKey(s.destination)
    ensures Same(f0, f, s.destination)
  {
    PlanIsPartition(prep.previous, prep.sources, prep.remote);
    DestinationMembers(prep.plan.copies);
    KeysAreNotOwnFiles(s.destination);
    PlanManifestFacts(prep);
    assert CoreMayChange(core, f0, f1, s.destination) && CoreMayChange(core, f1, f, s.destination);
  }

  lemma ProviderIsKept(prep: Prepared, sound: bool, core: Core, p: RemoteProvider, g0: History, f0: Files,
                       h0: History, f1: Files, f: Files)
    requires ValidHistory(h0) && Ready(prep, sound, f0, g0, h0)
    requires Tame(core, prep.plan.manifest)
    requires Changed(core, Members(prep.plan.requiredDeletes), f0, f1)
    requires Changed(core, Destinations(prep.plan.copies), f1, f)
    requires forall d | d in prep.plan.requiredDeletes :: GoneOrRefilled(core, f1, d)
    requires sound && p in prep.remote
    ensures AbsentOrFrom(f, p.destination, p.url)
  {
    hide Resolve, IsTempPath;
    var decl := DeclarationOf(prep.sources, prep.remote);
    PlanCopyFacts(prep, sound, f0, g0, h0);
    PlanDeleteFacts(prep);
    PlanManifestFacts(prep);
    assert p in decl.remote && DownloadsFrom(core, p.destination, p.url);
    KeysAreNotOwnFiles(p.destination);
    assert p.destination !in Destinations(prep.plan.copies);
    assert CoreMayChange(core, f1, f, p.destination);
    if p.destination !in prep.plan.requiredDeletes {
      assert SameProvider(prep.previous, p);
      assert AbsentOrFrom(f0, p.destination, p.url);
      assert CoreMayChange(core, f0, f1, p.destination);
    }
  }

  /* ---------- the pieces of a run, put together ---------- */

  // While assets are copied nobody but the core brings a deleted cache back.
  lemma DeletedStayDeleted(prep: Prepared, core: Core, n: nat, done: nat, f1: Files, f: Files)
    requires prep.plan == PlanOf(prep.previous, prep.sources, prep.remote)
    requires ProperDeclaration(DeclarationOf(prep.sources, prep.remote))
    requires n <= |prep.plan.requiredDeletes| && done <= |prep.plan.copies|
    requires forall d | d in prep.plan.requiredDeletes[..n] :: GoneOrRefilled(core, f1, d)
    requires Changed(core, Destinations(prep.plan.copies[..done]), f1, f)
    ensures forall d | d in prep.plan.requiredDeletes[..n] ::
              IsKey(d) && d !in AssetKeys(DeclarationOf(prep.sources, prep.remote)) && GoneOrRefilled(core, f, d)
  {
    PlanDeleteFacts(prep);
    forall d | d in prep.plan.requiredDeletes[..n]
      ensures IsKey(d) && d !in AssetKeys(DeclarationOf(prep.sources, prep.remote)) && GoneOrRefilled(core, f, d)
    {
      assert d in prep.plan.requiredDeletes;
      KeysAreNotOwnFiles(d);
      forall c | c in prep.plan.copies[..done]
        ensures c.destination != d
      {
        assert c in prep.plan.copies;
        CopySource(prep, c);
      }
      assert CoreMayChange(core, f1, f, d);
    }
  }

  lemma SourcesAreUnique(prep: Prepared)
    requires WellDeclared(prep.sources, prep.remote)
    ensures var assets := DeclarationOf(prep.sources, prep.remote).assets;
            forall a, b | a in assets && b in assets && a.0 == b.0 :: a == b
  {
    UniqueDeclarations(prep.sources, prep.remote);
  }

  // Steps that stay clear of what is declared, and leave the manifest, leave trust as it was.
  lemma TrustKept(core: Core, decl: Declaration, written: set<string>, f: Files, h: History, f': Files, h': History)
    requires ValidHistory(h) && ValidHistory(h') && Extends(h, h')
    requires Keyed(decl) && Respects(core, decl, OnDisk(f)) && Trusted(decl, f, h)
    requires Changed(core, written, f, f') && Same(f, f', MANIFEST_FILE_NAME)
    requires written !! AssetKeys(decl) && forall p | p in decl.remote :: p.destination !in written
    ensures Trusted(decl, f', h')
  {
    if OnDisk(f').Some? {
      var m := OnDisk(f').value;
      forall d, source | (d, source) in decl.assets && d in m.assets
        ensures EntryTrusted(m.assets[d], d, source, f', h')
      {
        assert d == (d, source).0 && d in AssetKeys(decl) && Spares(core, {d});
        KeysAreNotOwnFiles(d);
        assert CoreMayChange(core, f, f', d);
        EntryTrustedLater(m.assets[d], d, source, f, f', h, h');
      }
      forall p | p in decl.remote && SameProvider(m, p)
        ensures AbsentOrFrom(f', p.destination, p.url)
      {
        KeysAreNotOwnFiles(p.destination);
        assert CoreMayChange(core, f, f', p.destination);
      }
    }
  }

  lemma BuiltLater(core: Core, m: Manifest, sources: seq<AssetSource>, written: set<string>,
                   g0: History, f: Files, h: History, f': Files, h': History)
    requires ValidHistory(h) && ValidHistory(h') && Extends(g0, h) && Extends(h, h')
    requires Built(m, sources, f, g0, h) && Changed(core, written, f, f')
    requires forall d | d in Declared(m) :: IsKey(d) && d !in written
    requires forall s | s in sources :: IsKey(s.destination) && s.destination !in written
    requires Tame(core, m) && forall s | s in sources :: Spares(core, {s.destination})
    ensures Built(m, sources, f', g0, h')
  {
    forall d | d in m.assets && m.assets[d].mtime.Some?
      ensures MadeFrom(f', d, m.assets[d], h')
    {
      KeysAreNotOwnFiles(d);
      assert CoreMayChange(core, f, f', d);
      MadeFromLater(f, f', d, m.assets[d], h, h');
    }
    forall p | p in m.remote
      ensures AbsentOrFrom(f', p, m.remote[p])
    {
      KeysAreNotOwnFiles(p);
      assert CoreMayChange(core, f, f', p);
    }
    forall s | s in sources
      ensures Same(f, f', s.destination)
    {
      KeysAreNotOwnFiles(s.destination);
      assert CoreMayChange(core, f, f', s.destination);
    }
    forall s | s in sources && Of(h', s.source) == Of(g0, s.source)
      ensures Current(h', s.source).Present? && HoldsBytes(f', s.destination, Current(h', s.source).bytes)
    {
      Sandwich(g0, h, h', s.source);
    }
  }

  /* ---------- a start ---------- */

  function DeclaredKeys(decl: Declaration): set<string> {
    AssetKeys(decl) + ProviderKeys(decl)
  }

  function ProviderKeys(decl: Declaration): set<string> {
    set p | p in decl.remote :: p.destination
  }

  // The manifest on disk records no undeclared asset, and exactly the declared providers under their URLs.
  predicate Covers(disk: Option<Manifest>, decl: Declaration) {
    && disk.Some? && disk.value.assets.Keys <= AssetKeys(decl) && disk.value.remote.Keys == ProviderKeys(decl)
    && forall p | p in decl.remote :: SameProvider(disk.value, p)
  }

  // What an attempt leaves behind, however it ends. `sound`: the manifest on disk could be trusted when the
  // attempt began, and no core took anything from it since. `steady`: no core takes anything from the manifest
  // the attempt means to write. `g0` is the state of the sources before the bundle was gathered, `f0` the
  // generation before anything was written.
  ghost predicate Leaves(sound: bool, steady: bool, decl: Declaration, sources: seq<AssetSource>, yaml: string,
                         outcome: Outcome, g0: History, f0: Files, f: Files, h: History)
    requires ValidHistory(h)
  {
    && (sound && (steady || outcome.Refused? || outcome.Interrupted?) ==> Trusted(decl, f, h)) && CanonicalOnDisk(f)
    && (OnDisk(f) == OnDisk(f0) || MANIFEST_FILE_NAME !in f || Covers(OnDisk(f), decl))
    && match outcome
       case Refused => Same(f0, f, CONFIG_FILE_NAME) && Same(f0, f, MANIFEST_FILE_NAME)
       case Interrupted => Same(f0, f, CONFIG_FILE_NAME) && Same(f0, f, MANIFEST_FILE_NAME)
       case CommitFailed(discarded) => Same(f0, f, CONFIG_FILE_NAME) && (discarded ==> MANIFEST_FILE_NAME !in f)
       case Committed =>
         && CONFIG_FILE_NAME in f && f[CONFIG_FILE_NAME] == File(Yaml(yaml), FromService)
         && Covers(OnDisk(f), decl)
         && (sound && steady ==> Built(OnDisk(f).value, sources, f, g0, h))
  }

  // What is asked of a core that is alive while a plan is carried out: that it spares the service's own files; and,
  // where the manifest on disk is to stay good, that it takes nothing from it.
  predicate Heeds(prep: Prepared, sound: bool, core: Core, f: Files) {
    && Spares(core, OwnFiles())
    && (sound ==> Respects(core, DeclarationOf(prep.sources, prep.remote), OnDisk(f)))
  }

  // A run that stops after `n` deletes and `done` copies.
  lemma InterruptedKeepsTrust(prep: Prepared, sound: bool, steady: bool, yaml: string, core: Core, n: nat, done: nat,
                              g0: History, f0: Files, h0: History, f1: Files, h1: History, f: Files, h: History)
    requires ValidHistory(h0) && ValidHistory(h1) && Extends(h0, h1)
    requires Ready(prep, sound, f0, g0, h0) && Heeds(prep, sound, core, f0)
    requires n <= |prep.plan.requiredDeletes|
    requires Changed(core, Members(prep.plan.requiredDeletes[..n]), f0, f1)
    requires forall d | d in prep.plan.requiredDeletes[..n] :: GoneOrRefilled(core, f1, d)
    requires Progress(prep.plan.copies, done, core, f1, h1, f, h)
    ensures ValidHistory(h) && Same(f0, f, MANIFEST_FILE_NAME) && Same(f0, f, CONFIG_FILE_NAME)
    ensures Leaves(sound, steady, DeclarationOf(prep.sources, prep.remote), prep.sources, yaml, Interrupted, g0, f0, f,
                   h)
  {
    hide Resolve, IsTempPath, GoneOrRefilled;
    var decl, copies := DeclarationOf(prep.sources, prep.remote), prep.plan.copies[..done];
    var deletes := prep.plan.requiredDeletes[..n];
    DeletedStayDeleted(prep, core, n, done, f1, f);
    DestinationMembers(copies);
    ExtendsTransitive(h0, h1, h);
    ChangedTransitive(core, Members(deletes), Destinations(copies), f0, f1, f);
    forall c | c in copies
      ensures (c.destination, c.source) in decl.assets && CopiedIfSpared(core, c, f, h0, h)
    {
      var j :| 0 <= j < done && prep.plan.copies[j] == c;
      assert c in prep.plan.copies && CopiedIfSpared(core, c, f, h1, h);
      CopySource(prep, c);
      if Spares(core, {c.destination}) { CopiedSince(c, f, h0, h1, h); }
    }
    SourcesAreUnique(prep);
    PartialRunKeepsTrust(core, decl, Members(deletes), copies, Members(deletes) + Destinations(copies), f0, h0, f, h);
  }

  function PlannedPaths(plan: Plan): set<string> {
    Members(plan.requiredDeletes) + Destinations(plan.copies) + Sweepable(plan.hygieneDeletes) + OwnFiles()
  }

  lemma PlannedPathsAreDeclaredOrRecorded(prep: Prepared)
    requires prep.plan == PlanOf(prep.previous, prep.sources, prep.remote)
    ensures PlannedPaths(prep.plan) <= Declared(prep.plan.manifest) + Declared(prep.previous) + OwnFiles()
  {
    hide Resolve, IsTempPath;
    PlanMembers(prep.previous, prep.sources);
    RemoteMembers(prep.previous, prep.remote);
  }

  lemma WrittenManifest(prep: Prepared, manifest: Manifest)
    requires prep.plan == PlanOf(prep.previous, prep.sources, prep.remote) && WellDeclared(prep.sources, prep.remote)
    requires ProperDeclaration(DeclarationOf(prep.sources, prep.remote))
    requires Without(prep.plan.manifest, manifest, Destinations(prep.plan.copies))
    ensures Canonical(manifest) && manifest.assets.Keys <= AssetKeys(DeclarationOf(prep.sources, prep.remote))
    ensures forall d | d in Declared(manifest) :: IsKey(d)
  {
    PlanManifestFacts(prep);
    var decl := DeclarationOf(prep.sources, prep.remote);
    forall d | d in Declared(manifest)
      ensures IsKey(d)
    {
      if d in manifest.assets {
        var a :| a in decl.assets && a.0 == d;
      } else {
        assert RemoteProvider(d, manifest.remote[d]) in decl.remote;
      }
    }
  }

  lemma ManifestCovers(prep: Prepared, manifest: Manifest)
    requires prep.plan == PlanOf(prep.previous, prep.sources, prep.remote) && WellDeclared(prep.sources, prep.remote)
    requires ProperDeclaration(DeclarationOf(prep.sources, prep.remote))
    requires Without(prep.plan.manifest, manifest, Destinations(prep.plan.copies))
    ensures Covers(Some(manifest), DeclarationOf(prep.sources, prep.remote))
  {
    PlanManifestFacts(prep);
    var decl := DeclarationOf(prep.sources, prep.remote);
    forall d
      ensures d in manifest.remote <==> d in ProviderKeys(decl)
    {
      if d in manifest.remote {
        assert RemoteProvider(d, manifest.remote[d]) in decl.remote;
      }
    }
  }

  // The state just before the commit: everything is in place, and the old manifest still stands.
  ghost predicate InPlace(prep: Prepared, sound: bool, manifest: Manifest, core: Core, g0: History, f0: Files,
                          f: Files, h: History)
    requires ValidHistory(h)
  {
    var decl := DeclarationOf(prep.sources, prep.remote);
    && prep.plan == PlanOf(prep.previous, prep.sources, prep.remote)
    && WellDeclared(prep.sources, prep.remote) && ProperDeclaration(decl)
    && Heeds(prep, sound, core, f)
    && Without(prep.plan.manifest, manifest, Destinations(prep.plan.copies))
    && Extends(g0, h) && (sound && Tame(core, prep.plan.manifest) ==> Built(manifest, prep.sources, f, g0, h))
    && Same(f0, f, MANIFEST_FILE_NAME) && Same(f0, f, CONFIG_FILE_NAME)
    && (sound ==> Trusted(decl, f, h)) && CanonicalOnDisk(f)
    && Canonical(prep.previous)
  }

  lemma InPlaceFacts(prep: Prepared, sound: bool, manifest: Manifest, core: Core, g0: History, f0: Files, f: Files,
                     h: History)
    requires ValidHistory(h) && InPlace(prep, sound, manifest, core, g0, f0, f, h)
    ensures Covers(Some(manifest), DeclarationOf(prep.sources, prep.remote))
    ensures Canonical(manifest) && (Tame(core, prep.plan.manifest) ==> Tame(core, manifest))
    ensures forall d | d in Declared(manifest) :: IsKey(d) && d !in OwnFiles() && d !in prep.plan.hygieneDeletes
    ensures forall s | s in prep.sources ::
              && IsKey(s.destination) && s.destination !in OwnFiles() && s.destination !in prep.plan.hygieneDeletes
              && (Tame(core, prep.plan.manifest) ==> Spares(core, {s.destination}))
    ensures forall d | d in prep.plan.hygieneDeletes && Resolve(d).Ok? :: IsKey(d)
    ensures OwnFiles() !! AssetKeys(DeclarationOf(prep.sources, prep.remote))
    ensures forall p | p in DeclarationOf(prep.sources, prep.remote).remote :: p.destination !in OwnFiles()
  {
    var decl := DeclarationOf(prep.sources, prep.remote);
    WrittenManifest(prep, manifest);
    ManifestCovers(prep, manifest);
    PlanManifestFacts(prep);
    forall d | d in Declared(manifest)
      ensures IsKey(d) && d !in OwnFiles() && d !in prep.plan.hygieneDeletes
    {
      KeysAreNotOwnFiles(d);
    }
    forall s | s in prep.sources
      ensures IsKey(s.destination) && s.destination !in OwnFiles() && s.destination !in prep.plan.hygieneDeletes
      ensures Tame(core, prep.plan.manifest) ==> Spares(core, {s.destination})
    {
      assert (s.destination, s.source) in decl.assets;
      assert IsKey((s.destination, s.source).0) && (s.destination, s.source).0 in AssetKeys(decl);
      KeysAreNotOwnFiles(s.destination);
    }
    forall d | d in AssetKeys(decl)
      ensures d !in OwnFiles()
    {
      var a :| a in decl.assets && a.0 == d;
      KeysAreNotOwnFiles(d);
    }
    forall p | p in decl.remote
      ensures p.destination !in OwnFiles()
    {
      KeysAreNotOwnFiles(p.destination);
    }
  }

  // A manifest just written, or the old one still there, keeps what it is good for.
  lemma CommitKeepsTruth(prep: Prepared, sound: bool, manifest: Manifest, core: Core, written: set<string>,
                         g0: History, f0: Files, f: Files, h: History, f1: Files, h1: History, f2: Files, h2: History)
    requires ValidHistory(h) && ValidHistory(h1) && ValidHistory(h2) && Extends(h, h1) && Extends(h1, h2)
    requires InPlace(prep, sound, manifest, core, g0, f0, f, h) && Built(manifest, prep.sources, f1, g0, h1)
    requires Tame(core, prep.plan.manifest) && Changed(core, written, f1, f2)
    requires written == OwnFiles() || written <= Members(prep.plan.hygieneDeletes)
    ensures Built(manifest, prep.sources, f2, g0, h2)
    ensures OnDisk(f2) == Some(manifest) ==> Trusted(DeclarationOf(prep.sources, prep.remote), f2, h2)
  {
    hide Resolve, IsTempPath, Changed, MadeFrom, EntryTrusted, Canonical, Tame, Heeds, Trusted;
    InPlaceFacts(prep, sound, manifest, core, g0, f0, f, h);
    ExtendsTransitive(g0, h, h1);
    BuiltLater(core, manifest, prep.sources, written, g0, f1, h1, f2, h2);
    if OnDisk(f2) == Some(manifest) {
      HonestIsTrusted(DeclarationOf(prep.sources, prep.remote), f2, h2);
    }
  }

  // What `commit_staged_config` leaves, before a failed commit discards the manifest.
  lemma AfterCommit(prep: Prepared, sound: bool, manifest: Manifest, yaml: string, core: Core, committed: bool,
                    g0: History, f0: Files, f: Files, h: History, f1: Files, h1: History)
    requires ValidHistory(h) && ValidHistory(h1) && Extends(h, h1)
    requires InPlace(prep, sound, manifest, core, g0, f0, f, h)
    requires Changed(core, OwnFiles(), f, f1)
    requires committed ==> OnDisk(f1) == Some(manifest)
    requires committed ==> CONFIG_FILE_NAME in f1 && f1[CONFIG_FILE_NAME] == File(Yaml(yaml), FromService)
    requires !committed ==> Same(f, f1, CONFIG_FILE_NAME)
    requires !committed ==> Same(f, f1, MANIFEST_FILE_NAME) || OnDisk(f1) == Some(manifest)
    ensures var outcome := if committed then Committed else CommitFailed(false);
            Leaves(sound, Tame(core, prep.plan.manifest), DeclarationOf(prep.sources, prep.remote), prep.sources, yaml,
                   outcome, g0, f0, f1, h1)
  {
    hide Resolve, IsTempPath, Changed, Canonical, Tame, Trusted, Built, Covers, DeclarationOf, WellDeclared, PlanOf,
         Without;
    var decl := DeclarationOf(prep.sources, prep.remote);
    InPlaceFacts(prep, sound, manifest, core, g0, f0, f, h);
    if sound && Tame(core, prep.plan.manifest) {
      ExtendsReflexive(h);
      CommitKeepsTruth(prep, sound, manifest, core, OwnFiles(), g0, f0, f, h, f, h, f1, h1);
      if !committed && Same(f, f1, MANIFEST_FILE_NAME) {
        TrustKept(core, decl, OwnFiles(), f, h, f1, h1);
      }
    }
  }

  // The sweep takes nothing away from a committed run.
  lemma AfterSweep(prep: Prepared, sound: bool, manifest: Manifest, yaml: string, core: Core,
                   g0: History, f0: Files, f: Files, h: History, f1: Files, h1: History, f2: Files, h2: History)
    requires ValidHistory(h) && ValidHistory(h1) && ValidHistory(h2) && Extends(h, h1) && Extends(h1, h2)
    requires InPlace(prep, sound, manifest, core, g0, f0, f, h) && OnDisk(f1) == Some(manifest)
    requires Leaves(sound, Tame(core, prep.plan.manifest), DeclarationOf(prep.sources, prep.remote), prep.sources, yaml,
                    Committed, g0, f0, f1, h1)
    requires Changed(core, Sweepable(prep.plan.hygieneDeletes), f1, f2)
    ensures Leaves(sound, Tame(core, prep.plan.manifest), DeclarationOf(prep.sources, prep.remote), prep.sources, yaml,
                   Committed, g0, f0, f2, h2)
    ensures OnDisk(f2) == Some(manifest)
  {
    hide Resolve, IsTempPath, Changed, Canonical, Tame, Trusted, Built, Covers, DeclarationOf, WellDeclared, PlanOf,
         Without;
    InPlaceFacts(prep, sound, manifest, core, g0, f0, f, h);
    CoreSparesOwnFiles(prep, sound, manifest, core, g0, f0, f, h);
    SweepSparesOwnFiles(prep.plan.hygieneDeletes, core, f1, f2);
    if sound && Tame(core, prep.plan.manifest) {
      CommitKeepsTruth(prep, sound, manifest, core, Sweepable(prep.plan.hygieneDeletes), g0, f0, f, h, f1, h1, f2, h2);
    }
  }

  lemma SweepSparesOwnFiles(obsolete: seq<string>, core: Core, f: Files, f': Files)
    requires (forall d | d in obsolete && Resolve(d).Ok? :: IsKey(d)) && Spares(core, OwnFiles())
    requires Changed(core, Sweepable(obsolete), f, f')
    ensures Same(f, f', CONFIG_FILE_NAME) && Same(f, f', MANIFEST_FILE_NAME)
  {
    forall p | p in OwnFiles()
      ensures Same(f, f', p)
    {
      OwnFilesAreOutside(p, Sweepable(obsolete));
      assert CoreMayChange(core, f, f', p);
    }
  }

  lemma CoreSparesOwnFiles(prep: Prepared, sound: bool, manifest: Manifest, core: Core, g0: History, f0: Files,
                           f: Files, h: History)
    requires ValidHistory(h) && InPlace(prep, sound, manifest, core, g0, f0, f, h)
    ensures Spares(core, OwnFiles())
  {}

  lemma NoManifestIsTrusted(decl: Declaration, f: Files, h: History)
    requires ValidHistory(h) && MANIFEST_FILE_NAME !in f
    ensures Trusted(decl, f, h) && CanonicalOnDisk(f)
  {}

  // What the executors' operations require of a ready plan.
  lemma PlanIsExecutable(prep: Prepared, sound: bool, f: Files, g0: History, h: History)
    requires ValidHistory(h) && Ready(prep, sound, f, g0, h)
    ensures forall d | d in prep.plan.requiredDeletes :: IsKey(d)
    ensures DistinctCopies(prep.plan.copies)
    ensures forall c | c in prep.plan.copies :: CopyReady(c) && (c.identity.mtime.Some? ==> Seen(h, c.identity))
  {
    PlanCopyFacts(prep, sound, f, g0, h);
    PlanDeleteFacts(prep);
  }

  // Stopping short of the commit is an interruption.
  lemma CommitIsNext(prep: Prepared, sound: bool, manifest: Manifest, core: Core, yaml: string, g0: History,
                     f0: Files, f: Files, h: History)
    requires ValidHistory(h) && InPlace(prep, sound, manifest, core, g0, f0, f, h)
    ensures Leaves(sound, Tame(core, prep.plan.manifest), DeclarationOf(prep.sources, prep.remote), prep.sources, yaml,
                   Interrupted, g0, f0, f, h)
  {}

  lemma WholeManifest(m: Manifest, dropped: set<string>)
    ensures Without(m, m, dropped)
  {}

  // Deletes and copies done: the generation is in place.
  lemma AllCopiedIsInPlace(prep: Prepared, sound: bool, manifest: Manifest, core: Core,
                           g0: History, f0: Files, h0: History, f1: Files, h1: History, f: Files, h: History)
    requires ValidHistory(h0) && ValidHistory(h1) && Extends(h0, h1)
    requires Ready(prep, sound, f0, g0, h0) && Heeds(prep, sound, core, f0)
    requires Changed(core, Members(prep.plan.requiredDeletes), f0, f1)
    requires forall d | d in prep.plan.requiredDeletes :: GoneOrRefilled(core, f1, d)
    requires Progress(prep.plan.copies, |prep.plan.copies|, core, f1, h1, f, h)
    requires forall c | c in prep.plan.copies && c.destination in manifest.assets :: RecordedIfSpared(core, c, f, h)
    requires Without(prep.plan.manifest, manifest, Destinations(prep.plan.copies))
    ensures InPlace(prep, sound, manifest, core, g0, f0, f, h)
  {
    hide Resolve, IsTempPath, Changed, Trusted, Known, Built, MadeFrom, PlanOf, Tame, GoneOrRefilled, CopiedIfSpared,
         RecordedIfSpared;
    var deletes, copies := prep.plan.requiredDeletes, prep.plan.copies;
    assert deletes[..|deletes|] == deletes && copies[..|copies|] == copies;
    InterruptedKeepsTrust(prep, sound, false, "", core, |deletes|, |copies|, g0, f0, h0, f1, h1, f, h);
    assert forall c | c in copies :: CopiedIfSpared(core, c, f, h1, h) by {
      forall c | c in copies
        ensures CopiedIfSpared(core, c, f, h1, h)
      {
        var j :| 0 <= j < |copies| && copies[j] == c;
      }
    }
    if sound && Tame(core, prep.plan.manifest) {
      FinishedRunIsBuilt(prep, core, manifest, g0, f0, h0, f1, h1, f, h);
    }
    ExtendsTransitive(g0, h0, h1);
    ExtendsTransitive(g0, h1, h);
  }

  lemma NothingCopied(copies: seq<PlannedCopy>, core: Core, f: Files, h: History)
    requires ValidHistory(h)
    ensures Progress(copies, 0, core, f, h, f, h)
  {
    assert Destinations(copies[..0]) == {};
  }

  lemma StillSeen(copies: seq<PlannedCopy>, h: History, h': History)
    requires Extends(h, h') && forall c | c in copies && c.identity.mtime.Some? :: Seen(h, c.identity)
    ensures forall c | c in copies && c.identity.mtime.Some? :: Seen(h', c.identity)
  {
    forall c | c in copies && c.identity.mtime.Some?
      ensures Seen(h', c.identity)
    {
      SeenLater(h, h', c.identity);
    }
  }

  /* ---------- gathering and planning ---------- */

  // At some moment between `h0` and `h` the source looked like `id`.
  ghost predicate Statted(id: SourceIdentity, h0: History, h: History) {
    exists t :: ValidHistory(t) && Extends(h0, t) && Extends(t, h) && Stamped(Current(t, id.source), id)
  }

  lemma StattedLater(id: SourceIdentity, h0: History, h: History, h': History)
    requires Statted(id, h0, h) && Extends(h, h')
    ensures Statted(id, h0, h')
  {
    var t :| ValidHistory(t) && Extends(h0, t) && Extends(t, h) && Stamped(Current(t, id.source), id);
    ExtendsTransitive(t, h, h');
  }

  lemma ProbedIsStatted(source: string, faults: Faults, probed: seq<History>, i: nat, h0: History, h: History)
    requires During(probed, h0, h) && i < |probed| && ProbeAt(source, faults, probed[i]).Found?
    ensures var probe := ProbeAt(source, faults, probed[i]);
            Statted(SourceIdentity(source, probe.len, probe.mtime), h0, h)
  {}

  lemma GatheredFacts(bundle: RuntimeBundle, probes: seq<Probe>, gathered: Gathered, h0: History, h: History)
    requires |probes| == |bundle.assets| == |gathered.sources|
    requires DistinctDestinations(bundle.assets) && Consistent(bundle.providers, KeysOf(bundle.assets))
    requires forall i | 0 <= i < |bundle.assets| ::
               && probes[i].Found? && Resolve(bundle.assets[i].destination).Ok?
               && gathered.sources[i] == SourceOf(bundle.assets[i], probes[i])
    requires InKeyOrder(gathered.remote)
    requires forall k, u :: RemoteProvider(k, u) in gathered.remote <==> IsDeclaredAs(bundle.providers, k, u)
    requires forall i | 0 <= i < |bundle.assets| && probes[i].Found? ::
               Statted(SourceIdentity(bundle.assets[i].source, probes[i].len, probes[i].mtime), h0, h)
    ensures WellDeclared(gathered.sources, gathered.remote)
    ensures ProperDeclaration(BundleDeclaration(bundle))
    ensures DeclarationOf(gathered.sources, gathered.remote) == BundleDeclaration(bundle)
    ensures forall s | s in gathered.sources :: Statted(s.Identity(), h0, h)
  {
    hide Resolve, IsTempPath;
    GatheredIsWellDeclared(bundle.assets, probes, bundle.providers, gathered);
    GatheredIsTheDeclaration(bundle, probes, gathered);
    forall s | s in gathered.sources
      ensures Statted(s.Identity(), h0, h)
    {
      var i :| 0 <= i < |gathered.sources| && gathered.sources[i] == s;
    }
  }

  lemma GatheredIsTheDeclaration(bundle: RuntimeBundle, probes: seq<Probe>, gathered: Gathered)
    requires |probes| == |bundle.assets| == |gathered.sources|
    requires forall i | 0 <= i < |bundle.assets| ::
               && probes[i].Found? && Resolve(bundle.assets[i].destination).Ok?
               && gathered.sources[i] == SourceOf(bundle.assets[i], probes[i])
    requires forall k, u :: RemoteProvider(k, u) in gathered.remote <==> IsDeclaredAs(bundle.providers, k, u)
    requires WellDeclared(gathered.sources, gathered.remote)
    requires forall s | s in gathered.sources :: IsKey(s.destination)
    requires forall p | p in gathered.remote :: IsKey(p.destination)
    ensures DeclarationOf(gathered.sources, gathered.remote) == BundleDeclaration(bundle)
    ensures ProperDeclaration(BundleDeclaration(bundle))
  {
    hide Resolve, IsTempPath;
    var decl, want := DeclarationOf(gathered.sources, gathered.remote), BundleDeclaration(bundle);
    forall a
      ensures a in decl.assets <==> a in want.assets
    {
      if a in decl.assets {
        var s :| s in gathered.sources && a == (s.destination, s.source);
        var i :| 0 <= i < |gathered.sources| && gathered.sources[i] == s;
        assert bundle.assets[i] in bundle.assets;
      }
      if a in want.assets {
        var b :| b in bundle.assets && Resolve(b.destination).Ok? && a == (Resolve(b.destination).value, b.source);
        var i :| 0 <= i < |bundle.assets| && bundle.assets[i] == b;
        assert gathered.sources[i] in gathered.sources;
      }
    }
    forall p: RemoteProvider
      ensures p in decl.remote <==> p in want.remote
    {
      assert p == RemoteProvider(p.destination, p.url);
      assert p in gathered.remote <==> IsDeclaredAs(bundle.providers, p.destination, p.url);
    }
    assert decl.assets == want.assets && decl.remote == want.remote;
    forall p | p in decl.remote
      ensures p.destination !in AssetKeys(decl)
    {
      forall a | a in decl.assets
        ensures a.0 != p.destination
      {
        var s :| s in gathered.sources && a == (s.destination, s.source);
      }
    }
  }

  // Nothing a core does meanwhile costs the manifest its trust, if the core respects it.
  lemma CoreKeepsTrust(core: Core, decl: Declaration, f0: Files, h0: History, f: Files, h: History)
    requires ValidHistory(h0) && ValidHistory(h) && Extends(h0, h)
    requires Keyed(decl) && Spares(core, OwnFiles()) && Changed(core, {}, f0, f)
    ensures Same(f0, f, MANIFEST_FILE_NAME) && Same(f0, f, CONFIG_FILE_NAME)
    ensures Trusted(decl, f0, h0) && Respects(core, decl, OnDisk(f0)) ==> Trusted(decl, f, h)
    ensures Respects(core, decl, OnDisk(f0)) && OnDisk(f0).Some? ==>
              forall d | d in AssetKeys(decl) && d in OnDisk(f0).value.assets :: Same(f0, f, d)
  {
    forall p | p in OwnFiles()
      ensures Same(f0, f, p)
    {
      TempsAreApart(p);
      assert CoreMayChange(core, f0, f, p);
    }
    if Respects(core, decl, OnDisk(f0)) && OnDisk(f0).Some? {
      forall d | d in AssetKeys(decl) && d in OnDisk(f0).value.assets
        ensures Same(f0, f, d)
      {
        var a :| a in decl.assets && a.0 == d;
        KeysAreNotOwnFiles(d);
        assert Spares(core, {d}) && CoreMayChange(core, f0, f, d);
      }
    }
    if Trusted(decl, f0, h0) && Respects(core, decl, OnDisk(f0)) {
      TrustKept(core, decl, {}, f0, h0, f, h);
    }
  }

  // A plan made from a trusted manifest is ready to be carried out.
  lemma GatheredIsReady(decl: Declaration, prep: Prepared, sound: bool, core: Core, g0: History, f0: Files, f: Files,
                        h: History)
    requires ValidHistory(g0) && ValidHistory(h) && Extends(g0, h)
    requires WellDeclared(prep.sources, prep.remote) && ProperDeclaration(decl)
    requires DeclarationOf(prep.sources, prep.remote) == decl
    requires prep.plan == PlanOf(prep.previous, prep.sources, prep.remote)
    requires prep.previous == EMPTY_MANIFEST || OnDisk(f) == Some(prep.previous)
    requires forall s | s in prep.sources :: Statted(s.Identity(), g0, h)
    requires (sound ==> Trusted(decl, f0, g0)) && CanonicalOnDisk(f0)
    requires Spares(core, OwnFiles()) && (sound ==> Respects(core, decl, OnDisk(f0))) && Changed(core, {}, f0, f)
    ensures Ready(prep, sound, f, g0, h)
  {
    hide Resolve, IsTempPath;
    CoreKeepsTrust(core, decl, f0, g0, f, h);
    forall s | s in prep.sources
      ensures Known(sound, s, prep.previous, f, g0, h)
    {
      var id := s.Identity();
      assert (s.destination, s.source) in decl.assets;
      assert (s.destination, s.source).0 in AssetKeys(decl);
      if sound && Matches(prep.previous, s) {
        assert OnDisk(f0) == Some(prep.previous);
        assert EntryTrusted(id, s.destination, s.source, f0, g0);
      }
      StattedIsKnown(sound, s, prep.previous, f0, f, g0, h);
    }
  }

  lemma StattedIsKnown(sound: bool, s: AssetSource, previous: Manifest, f0: Files, f: Files, g0: History, h: History)
    requires ValidHistory(g0) && ValidHistory(h) && Statted(s.Identity(), g0, h)
    requires sound && Matches(previous, s) ==> EntryTrusted(s.Identity(), s.destination, s.source, f0, g0)
    requires sound && Matches(previous, s) ==> Same(f0, f, s.destination)
    ensures Known(sound, s, previous, f, g0, h)
  {
    var id := s.Identity();
    var t :| ValidHistory(t) && Extends(g0, t) && Extends(t, h) && Stamped(Current(t, id.source), id);
    var last := |Of(t, s.source)| - 1;
    assert Stamped(Of(t, s.source)[last], id);
    assert Seen(t, id);
    SeenLater(t, h, id);
    if Of(h, s.source) == Of(g0, s.source) {
      Sandwich(g0, t, h, s.source);
    }
    if sound && Matches(previous, s) {
      EntryTrustedLater(id, s.destination, s.source, f0, f0, g0, t);
      MadeFromLater(f0, f, s.destination, id, t, h);
    }
  }

  /* ---------- whole attempts ---------- */

  // A plan stays ready while only sources and the core move on.
  lemma ReadyLater(core: Core, prep: Prepared, sound: bool, f: Files, g0: History, h: History, f': Files, h': History)
    requires ValidHistory(h) && ValidHistory(h') && Extends(h, h')
    requires Ready(prep, sound, f, g0, h) && Changed(core, {}, f, f') && Heeds(prep, sound, core, f)
    ensures Ready(prep, sound, f', g0, h')
  {
    var decl := DeclarationOf(prep.sources, prep.remote);
    CoreKeepsTrust(core, decl, f, h, f', h');
    ExtendsTransitive(g0, h, h');
    forall s | s in prep.sources
      ensures Known(sound, s, prep.previous, f', g0, h')
    {
      assert (s.destination, s.source) in decl.assets;
      assert (s.destination, s.source).0 in AssetKeys(decl);
      KnownLater(sound, s, prep.previous, f, g0, h, f', h');
    }
  }

  lemma KnownLater(sound: bool, s: AssetSource, previous: Manifest, f: Files, g0: History, h: History, f': Files,
                   h': History)
    requires ValidHistory(h) && ValidHistory(h') && Extends(g0, h) && Extends(h, h')
    requires Known(sound, s, previous, f, g0, h)
    requires sound && Matches(previous, s) ==> Same(f, f', s.destination)
    ensures Known(sound, s, previous, f', g0, h')
  {
    var id := s.Identity();
    if s.mtime.Some? {
      SeenLater(h, h', id);
    }
    if Of(h', s.source) == Of(g0, s.source) {
      Sandwich(g0, h, h', s.source);
    }
    if sound && Matches(previous, s) {
      MadeFromLater(f, f', s.destination, id, h, h');
    }
  }

  datatype Snapshot = Snapshot(files: Files, history: History)

  // One attempt, and the cores that are alive meanwhile: `outgoing` until the plan is made, `during` while it is
  // carried out, from the moment the generation is `planned`. Staging has one core throughout. `prep` is the plan,
  // if it got that far.
  datatype Trial = Trial(
    bundle: RuntimeBundle,
    outgoing: Core,
    during: Core,
    outcome: Outcome,
    prep: Prepared,
    planned: Files)

  // The manifest may be trusted, and no core meanwhile takes anything from it.
  ghost predicate Warranted(t: Trial, before: Snapshot)
    requires ValidHistory(before.history)
  {
    var decl := BundleDeclaration(t.bundle);
    && Trusted(decl, before.files, before.history)
    && Respects(t.outgoing, decl, OnDisk(before.files)) && Respects(t.during, decl, OnDisk(before.files))
  }

  // What a whole attempt does between two moments, whatever the cores do: the service writes planned paths only.
  ghost predicate Attempt(t: Trial, before: Snapshot, after: Snapshot) {
    && ValidHistory(before.history) && ValidHistory(after.history) && Extends(before.history, after.history)
    && Leaves(Warranted(t, before), Tame(t.during, t.prep.plan.manifest), BundleDeclaration(t.bundle), t.prep.sources,
              t.bundle.yaml, t.outcome, before.history, before.files, after.files, after.history)
    && Changed(t.outgoing, {}, before.files, t.planned)
    && (t.outcome.Refused? ==> after.files == t.planned)
    && (!t.outcome.Refused? ==>
          && WellDeclared(t.prep.sources, t.prep.remote)
          && DeclarationOf(t.prep.sources, t.prep.remote) == BundleDeclaration(t.bundle)
          && t.prep.plan == PlanOf(t.prep.previous, t.prep.sources, t.prep.remote)
          && (t.prep.previous == EMPTY_MANIFEST || OnDisk(before.files) == Some(t.prep.previous))
          && Changed(t.during, PlannedPaths(t.prep.plan), t.planned, after.files))
  }

  lemma ChangedWithin(core: Core, w: set<string>, w': set<string>, total: set<string>, f: Files, f': Files, f'': Files)
    requires Changed(core, w, f, f') && Changed(core, w', f', f'') && w <= total && w' <= total
    ensures Changed(core, total, f, f'')
  {
    ChangedTransitive(core, w, w', f, f', f'');
  }

  lemma LeavesSince(sound: bool, steady: bool, decl: Declaration, sources: seq<AssetSource>, yaml: string,
                    outcome: Outcome, g0: History, f0: Files, f1: Files, f: Files, h: History)
    requires ValidHistory(h) && Leaves(sound, steady, decl, sources, yaml, outcome, g0, f1, f, h)
    requires Same(f0, f1, CONFIG_FILE_NAME) && Same(f0, f1, MANIFEST_FILE_NAME)
    ensures Leaves(sound, steady, decl, sources, yaml, outcome, g0, f0, f, h)
  {
    hide Trusted, Built, Covers, CanonicalOnDisk;
  }

  // An attempt is made of planning, which writes nothing, and of carrying out the plan.
  lemma AttemptOf(t: Trial, before: Snapshot, h: History, after: Snapshot)
    requires ValidHistory(before.history) && ValidHistory(after.history)
    requires Extends(before.history, h) && Extends(h, after.history)
    requires Same(before.files, t.planned, CONFIG_FILE_NAME) && Same(before.files, t.planned, MANIFEST_FILE_NAME)
    requires !t.outcome.Refused? && DeclarationOf(t.prep.sources, t.prep.remote) == BundleDeclaration(t.bundle)
    requires WellDeclared(t.prep.sources, t.prep.remote)
    requires t.prep.plan == PlanOf(t.prep.previous, t.prep.sources, t.prep.remote)
    requires t.prep.previous == EMPTY_MANIFEST || OnDisk(before.files) == Some(t.prep.previous)
    requires Leaves(Warranted(t, before), Tame(t.during, t.prep.plan.manifest), BundleDeclaration(t.bundle),
                    t.prep.sources, t.bundle.yaml, t.outcome, before.history, t.planned, after.files, after.history)
    requires Changed(t.outgoing, {}, before.files, t.planned)
    requires Changed(t.during, PlannedPaths(t.prep.plan), t.planned, after.files)
    ensures Attempt(t, before, after)
  {
    hide Changed, Trusted, Built, Tame, PlannedPaths, WellDeclared, PlanOf;
    ExtendsTransitive(before.history, h, after.history);
    LeavesSince(Warranted(t, before), Tame(t.during, t.prep.plan.manifest), BundleDeclaration(t.bundle), t.prep.sources,
                t.bundle.yaml, t.outcome, before.history, before.files, t.planned, after.files, after.history);
  }

  // An attempt that ends before anything is written.
  lemma RefusedLeaves(t: Trial, before: Snapshot, after: Snapshot)
    requires ValidHistory(before.history) && ValidHistory(after.history) && Extends(before.history, after.history)
    requires t.outcome.Refused? && t.planned == after.files && CanonicalOnDisk(before.files)
    requires Same(before.files, after.files, CONFIG_FILE_NAME) && Same(before.files, after.files, MANIFEST_FILE_NAME)
    requires Warranted(t, before) ==> Trusted(BundleDeclaration(t.bundle), after.files, after.history)
    requires Changed(t.outgoing, {}, before.files, after.files)
    ensures Attempt(t, before, after)
  {
    hide Changed, Trusted, Built, Tame, BundleDeclaration, Canonical, Warranted;
  }

  // A plan that holds nothing, for attempts that end before they have one.
  const NO_PLAN := Prepared(EMPTY_MANIFEST, [], [], Plan([], [], [], [], EMPTY_MANIFEST))

  lemma ReadyFacts(prep: Prepared, sound: bool, f: Files, g0: History, h: History)
    requires ValidHistory(h) && Ready(prep, sound, f, g0, h)
    ensures prep.plan == PlanOf(prep.previous, prep.sources, prep.remote) && WellDeclared(prep.sources, prep.remote)
    ensures prep.previous == EMPTY_MANIFEST || OnDisk(f) == Some(prep.previous)
  {}

  // However far the deletes and copies of a plan get, they stay within it.
  lemma WithinPlan(core: Core, plan: Plan, n: nat, done: nat, f0: Files, f1: Files, h1: History, f: Files, h: History)
    requires n <= |plan.requiredDeletes| && Changed(core, Members(plan.requiredDeletes[..n]), f0, f1)
    requires ValidHistory(h1) && Progress(plan.copies, done, core, f1, h1, f, h)
    ensures Changed(core, PlannedPaths(plan), f0, f)
  {
    hide Resolve, IsTempPath, Changed;
    ChangedWithin(core, Members(plan.requiredDeletes[..n]), Destinations(plan.copies[..done]), PlannedPaths(plan), f0,
                  f1, f);
  }

  // A step that writes only paths already counted.
  lemma AlsoWrote(core: Core, written: set<string>, again: set<string>, f: Files, f1: Files, f2: Files)
    requires Changed(core, written, f, f1) && again <= written
    requires forall p | p !in again :: Same(f1, f2, p)
    ensures Changed(core, written, f, f2)
  {
    forall p | p !in written && !IsTempPath(p)
      ensures CoreMayChange(core, f, f2, p)
    {
      assert CoreMayChange(core, f, f1, p) && Same(f1, f2, p);
    }
  }

  // What is removed and when, given the paths that cannot be: a stale cache that stays ends the attempt, a failed
  // commit takes the manifest away, and what is obsolete goes only after a commit.
  predicate Tidied(plan: Plan, outcome: Outcome, core: Core, stuck: set<string>, f: Files) {
    match outcome
    case Refused => true
    case Interrupted => true
    case CommitFailed(discarded) =>
      Members(plan.requiredDeletes) !! stuck && (discarded <==> MANIFEST_FILE_NAME !in stuck)
    case Committed => Members(plan.requiredDeletes) !! stuck && Swept(plan.hygieneDeletes, core, stuck, f)
  }
}
