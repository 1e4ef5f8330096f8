/**
 What a runtime generation and its sources look like on disk, and what it means for a manifest to tell
 the truth about them.
 A source is a file with a history of versions. The code identifies a version by its length and
 modification time; `ValidHistory` is the assumption that makes this sound: no two versions of one path
 share a known modification time and a length.
 */
module GenerationDisk {
  import opened Wrappers
  import opened Names
  import opened StagePlan

  /* ---------- sources ---------- */

  datatype Version = Gone | Present(bytes: seq<int>, mtime: Option<nat>)

  type History = map<string, seq<Version>>

  function Of(h: History, source: string): seq<Version> {
    if source in h then h[source] else [Gone]
  }

  function Current(h: History, source: string): Version
    requires ValidHistory(h)
  {
    Last(Of(h, source))
  }

  predicate Stamped(v: Version, id: SourceIdentity) {
    v.Present? && |v.bytes| == id.len && v.mtime == id.mtime
  }

  predicate SameStamp(a: Version, b: Version) {
    a.Present? && b.Present? && a.mtime.Some? && a.mtime == b.mtime && |a.bytes| == |b.bytes|
  }

  predicate ValidHistory(h: History) {
    forall s | s in h :: h[s] != [] && forall i, j | 0 <= i < j < |h[s]| :: !SameStamp(h[s][i], h[s][j])
  }

  predicate Extends(h: History, h': History) {
    forall s | s in h.Keys + h'.Keys :: Of(h, s) <= Of(h', s)
  }

  lemma ExtendsHolds(h: History, h': History, s: string)
    requires Extends(h, h')
    ensures Of(h, s) <= Of(h', s)
  {
    if s in h.Keys + h'.Keys {}
  }

  lemma ExtendsTransitive(h: History, h': History, h'': History)
    requires Extends(h, h') && Extends(h', h'')
    ensures Extends(h, h'')
  {
    forall s | s in h.Keys + h''.Keys
      ensures Of(h, s) <= Of(h'', s)
    {
      ExtendsHolds(h, h', s);
      ExtendsHolds(h', h'', s);
    }
  }

  lemma ExtendsReflexive(h: History)
    ensures Extends(h, h)
  {}

  // Between two equal ends a source did not change at all.
  lemma Sandwich(h: History, h': History, h'': History, s: string)
    requires Extends(h, h') && Extends(h', h'') && Of(h, s) == Of(h'', s)
    ensures Of(h', s) == Of(h, s)
  {
    ExtendsHolds(h, h', s);
    ExtendsHolds(h', h'', s);
  }

  ghost predicate Seen(h: History, id: SourceIdentity) {
    exists v | 0 <= v < |Of(h, id.source)| :: Stamped(Of(h, id.source)[v], id)
  }

  predicate IsCurrent(h: History, id: SourceIdentity)
    requires ValidHistory(h)
  {
    Stamped(Current(h, id.source), id)
  }

  lemma OneVersionPerStamp(h: History, source: string, i: nat, j: nat)
    requires ValidHistory(h) && i <= j < |Of(h, source)|
    requires SameStamp(Of(h, source)[i], Of(h, source)[j])
    ensures i == j
  {
    assert source in h ==> h[source] == Of(h, source);
  }

  // A known stamp names one version, so a source that shows the same stamp at both ends of an interval
  // did not change in between.
  lemma SameStampSameVersion(h: History, h': History, id: SourceIdentity)
    requires ValidHistory(h) && ValidHistory(h') && Extends(h, h')
    requires id.mtime.Some? && Seen(h, id) && IsCurrent(h', id)
    ensures Of(h', id.source) == Of(h, id.source)
  {
    ExtendsHolds(h, h', id.source);
    var v :| 0 <= v < |Of(h, id.source)| && Stamped(Of(h, id.source)[v], id);
    var last := |Of(h', id.source)| - 1;
    assert Stamped(Of(h', id.source)[v], id) && Stamped(Of(h', id.source)[last], id);
    OneVersionPerStamp(h', id.source, v, last);
  }

  lemma SeenLater(h: History, h': History, id: SourceIdentity)
    requires Extends(h, h') && Seen(h, id)
    ensures Seen(h', id)
  {
    ExtendsHolds(h, h', id.source);
    var v :| 0 <= v < |Of(h, id.source)| && Stamped(Of(h, id.source)[v], id);
    assert Stamped(Of(h', id.source)[v], id);
  }

  /* ---------- the generation ---------- */

  datatype Origin = FromService | Download(url: string) | Other

  datatype Content = Data(bytes: seq<int>) | Yaml(text: string) | ManifestText(manifest: Manifest)

  // `origin` records who produced a file; nothing in the code can read it.
  datatype File = File(content: Content, origin: Origin)

  type Files = map<string, File>

  predicate Same(f: Files, f': Files, p: string) {
    (p in f <==> p in f') && (p in f && p in f' ==> f[p] == f'[p])
  }

  /** `read_manifest`, when the read itself succeeds: absence is an empty manifest, other contents are an error. */
  function OnDisk(f: Files): Option<Manifest> {
    if MANIFEST_FILE_NAME !in f then Some(EMPTY_MANIFEST)
    else if f[MANIFEST_FILE_NAME].content.ManifestText? then Some(f[MANIFEST_FILE_NAME].content.manifest)
    else None
  }

  predicate HoldsBytes(f: Files, p: string, bytes: seq<int>) {
    p in f && f[p] == File(Data(bytes), FromService)
  }

  // The file at `p` is a copy of the version `id` names.
  ghost predicate MadeFrom(f: Files, p: string, id: SourceIdentity, h: History) {
    exists v | 0 <= v < |Of(h, id.source)| ::
      Stamped(Of(h, id.source)[v], id) && HoldsBytes(f, p, Of(h, id.source)[v].bytes)
  }

  lemma MadeFromLater(f: Files, f': Files, p: string, id: SourceIdentity, h: History, h': History)
    requires MadeFrom(f, p, id, h) && Extends(h, h') && Same(f, f', p)
    ensures MadeFrom(f', p, id, h')
  {
    ExtendsHolds(h, h', id.source);
    var v :| 0 <= v < |Of(h, id.source)| &&
      Stamped(Of(h, id.source)[v], id) && HoldsBytes(f, p, Of(h, id.source)[v].bytes);
    assert Stamped(Of(h', id.source)[v], id) && HoldsBytes(f', p, Of(h', id.source)[v].bytes);
  }

  // A file made from the version that is current now holds the source's current contents.
  lemma MadeFromCurrent(f: Files, p: string, id: SourceIdentity, h: History)
    requires ValidHistory(h) && id.mtime.Some? && MadeFrom(f, p, id, h) && IsCurrent(h, id)
    ensures HoldsBytes(f, p, Current(h, id.source).bytes)
  {
    var versions := Of(h, id.source);
    var v :| 0 <= v < |versions| && Stamped(versions[v], id) && HoldsBytes(f, p, versions[v].bytes);
    OneVersionPerStamp(h, id.source, v, |versions| - 1);
  }

  lemma CurrentIsMadeFrom(f: Files, p: string, id: SourceIdentity, h: History)
    requires ValidHistory(h) && IsCurrent(h, id) && HoldsBytes(f, p, Current(h, id.source).bytes)
    ensures MadeFrom(f, p, id, h) && Seen(h, id)
  {
    var v := |Of(h, id.source)| - 1;
    assert Stamped(Of(h, id.source)[v], id) && HoldsBytes(f, p, Of(h, id.source)[v].bytes);
  }

  /** Every asset a manifest vouches for is a copy of the version it names. */
  ghost predicate Honest(m: Manifest, f: Files, h: History) {
    forall d | d in m.assets && m.assets[d].mtime.Some? :: MadeFrom(f, d, m.assets[d], h)
  }

  predicate AbsentOrFrom(f: Files, p: string, url: string) {
    p in f ==> f[p].origin == Download(url)
  }

  /** Every provider cache a manifest vouches for is absent or was downloaded under the recorded URL. */
  predicate ProvidersHonest(m: Manifest, f: Files) {
    forall p | p in m.remote :: AbsentOrFrom(f, p, m.remote[p])
  }

  // What one entry may be trusted for while its destination keeps being made from `source`: it names a
  // version that has existed, and if that version is still current then the file holds it. Weaker than
  // honesty: it says nothing once the source has moved on.
  ghost predicate EntryTrusted(id: SourceIdentity, d: string, source: string, f: Files, h: History)
    requires ValidHistory(h)
  {
    id.source == source && id.mtime.Some? ==> Seen(h, id) && (IsCurrent(h, id) ==> MadeFrom(f, d, id, h))
  }

  /** What a bundle asks for: canonical destinations with their sources, and providers. */
  datatype Declaration = Declaration(assets: set<(string, string)>, remote: set<RemoteProvider>)

  /** The manifest on disk may be trusted while the generation keeps being made for `decl`. */
  ghost predicate Trusted(decl: Declaration, f: Files, h: History)
    requires ValidHistory(h)
  {
    OnDisk(f).Some? ==>
      var m := OnDisk(f).value;
      && (forall d, source | (d, source) in decl.assets && d in m.assets :: EntryTrusted(m.assets[d], d, source, f, h))
      && (forall p | p in decl.remote && SameProvider(m, p) :: AbsentOrFrom(f, p.destination, p.url))
  }

  // An honest manifest may be trusted for every declaration.
  lemma HonestIsTrusted(decl: Declaration, f: Files, h: History)
    requires ValidHistory(h)
    requires OnDisk(f).Some? ==> Honest(OnDisk(f).value, f, h) && ProvidersHonest(OnDisk(f).value, f)
    ensures Trusted(decl, f, h)
  {
    if OnDisk(f).Some? {
      var m := OnDisk(f).value;
      forall d, source | (d, source) in decl.assets && d in m.assets && m.assets[d].mtime.Some?
        ensures EntryTrusted(m.assets[d], d, source, f, h)
      {
        var id := m.assets[d];
        assert MadeFrom(f, d, id, h);
        var v :| 0 <= v < |Of(h, id.source)| && Stamped(Of(h, id.source)[v], id);
        assert Seen(h, id);
      }
    }
  }

  lemma EntryTrustedLater(id: SourceIdentity, d: string, source: string, f: Files, f': Files, h: History, h': History)
    requires ValidHistory(h) && ValidHistory(h') && Extends(h, h') && Same(f, f', d)
    requires EntryTrusted(id, d, source, f, h)
    ensures EntryTrusted(id, d, source, f', h')
  {
    if id.source == source && id.mtime.Some? {
      SeenLater(h, h', id);
      if IsCurrent(h', id) {
        SameStampSameVersion(h, h', id);
        MadeFromLater(f, f', d, id, h, h');
      }
    }
  }

  /* ---------- what else may write while the service works ---------- */

  // No core is alive, or one is: it leaves `shielded` paths alone, and at a path of `downloads` it only
  // writes what it downloaded under that URL.
  datatype Core = Stopped | Running(shielded: set<string>, downloads: map<string, string>)

  predicate CoreMayChange(core: Core, f: Files, f': Files, p: string) {
    match core
    case Stopped => Same(f, f', p)
    case Running(shielded, downloads) =>
      && (p in shielded ==> Same(f, f', p))
      && (p in downloads ==> Same(f, f', p) || (p in f' && f'[p].origin == Download(downloads[p])))
  }

  predicate CoreWrote(core: Core, f: Files, f': Files) {
    forall p | p in f.Keys + f'.Keys :: CoreMayChange(core, f, f', p)
  }

  /** The path of a staging temporary beside some file of the generation. */
  ghost predicate IsTempPath(p: string) {
    exists names: seq<string>, pid: nat, sequence: nat ::
      names != [] && (forall name | name in names :: IsName(name)) && p == TempPath(names, pid, sequence)
  }

  // Outside `written` and the temporaries, only the core changed anything.
  ghost predicate Changed(core: Core, written: set<string>, f: Files, f': Files) {
    forall p | p !in written && !IsTempPath(p) :: CoreMayChange(core, f, f', p)
  }

  lemma CoreWroteIsChanged(core: Core, f: Files, f': Files)
    requires CoreWrote(core, f, f')
    ensures Changed(core, {}, f, f')
  {
    forall p | !IsTempPath(p)
      ensures CoreMayChange(core, f, f', p)
    {
      if p !in f.Keys + f'.Keys { assert Same(f, f', p); }
    }
  }

  lemma ChangedReflexive(core: Core, f: Files)
    ensures Changed(core, {}, f, f)
  {}

  lemma ChangedTransitive(core: Core, w: set<string>, w': set<string>, f: Files, f': Files, f'': Files)
    requires Changed(core, w, f, f') && Changed(core, w', f', f'')
    ensures Changed(core, w + w', f, f'')
  {
    forall p | p !in w + w' && !IsTempPath(p)
      ensures CoreMayChange(core, f, f'', p)
    {
      assert CoreMayChange(core, f, f', p) && CoreMayChange(core, f', f'', p);
    }
  }

  /** The paths the service itself owns: canonical destinations, the configuration and the manifest. */
  predicate ServicePath(p: string) {
    IsKey(p) || p == CONFIG_FILE_NAME || p == MANIFEST_FILE_NAME
  }

  lemma TempsAreApart(p: string)
    requires ServicePath(p)
    ensures !IsTempPath(p)
  {
    forall names: seq<string>, pid: nat, sequence: nat |
      names != [] && (forall name | name in names :: IsName(name))
      ensures p != TempPath(names, pid, sequence)
    {
      if IsKey(p) {
        NoDestinationIsATemporary(p, names, pid, sequence);
      } else {
        TempPathEndsInDigit(names, pid, sequence);
      }
    }
  }

  lemma {:induction false} JoinEndsWithLast(parts: seq<string>)
    requires parts != [] && Last(parts) != ""
    ensures Join(parts) != "" && Last(Join(parts)) == Last(Last(parts))
  {
    if |parts| > 1 {
      JoinEndsWithLast(parts[1..]);
    }
  }

  lemma TempPathEndsInDigit(names: seq<string>, pid: nat, sequence: nat)
    requires names != []
    ensures TempPath(names, pid, sequence) != "" && IsDigit(Last(TempPath(names, pid, sequence)))
  {
    var temp := StagingTempName(Last(names), pid, sequence);
    var digits := Decimal(sequence);
    assert Last(digits) in digits && Last(temp) == Last(digits);
    JoinEndsWithLast(names[..|names| - 1] + [temp]);
  }

  lemma OwnPathNames(p: string)
    requires ServicePath(p)
    ensures AllNormal(Components(p)) && NamesOf(Components(p)) != []
    ensures forall name | name in NamesOf(Components(p)) :: IsName(name)
  {
    if IsKey(p) {
      AcceptedKeyShape(p);
    } else {
      OwnNamesAreNames();
      OneName(p);
    }
  }

  lemma OneName(p: string)
    requires IsName(p)
    ensures AllNormal(Components(p)) && NamesOf(Components(p)) == [p]
  {
    ComponentsOfJoin([p]);
  }
}
