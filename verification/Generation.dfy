/**
 The runtime generation as the object the service works on, one file operation at a time
 (`copy_staged_file`, `write_atomically`, `replace_staged_file`, `remove_staged_file`,
 `source_identity_changed`, `commit_staged_config`). Any operation may fail, and between any two of them
 sources move on and a live core may write.
 */
module GenerationFiles {
  import opened Wrappers
  import opened Names
  import opened StagePlan
  import opened GenerationDisk

  // Between two of our operations `f` became `f'` while sources went from `h0` to `h`: the destination of
  // `c` holds a copy, and an exact one unless its source changed.
  predicate Copied(c: PlannedCopy, f: Files, h0: History, h: History)
    requires ValidHistory(h0)
  {
    && c.destination in f && f[c.destination].origin == FromService && f[c.destination].content.Data?
    && (Of(h, c.source) == Of(h0, c.source) ==>
          Current(h0, c.source).Present? && HoldsBytes(f, c.destination, Current(h0, c.source).bytes))
  }

  ghost predicate Recorded(c: PlannedCopy, f: Files, h: History) {
    c.identity.mtime.Some? ==> MadeFrom(f, c.destination, c.identity, h)
  }

  lemma CopiedLater(c: PlannedCopy, f: Files, f': Files, h0: History, h: History, h': History)
    requires ValidHistory(h0) && Copied(c, f, h0, h) && Same(f, f', c.destination)
    requires Extends(h0, h) && Extends(h, h')
    ensures Copied(c, f', h0, h')
  {
    if Of(h', c.source) == Of(h0, c.source) {
      Sandwich(h0, h, h', c.source);
    }
  }

  lemma RecordedLater(c: PlannedCopy, f: Files, f': Files, h: History, h': History)
    requires Recorded(c, f, h) && Same(f, f', c.destination) && Extends(h, h')
    ensures Recorded(c, f', h')
  {
    if c.identity.mtime.Some? {
      MadeFromLater(f, f', c.destination, c.identity, h, h');
    }
  }

  // The core leaves alone every path in `paths`.
  predicate Spares(core: Core, paths: set<string>) {
    core.Stopped? || paths <= core.shielded
  }

  // The copy of `c` is intact unless the core may have written over it.
  predicate CopiedIfSpared(core: Core, c: PlannedCopy, f: Files, h0: History, h: History)
    requires ValidHistory(h0)
  {
    Spares(core, {c.destination}) ==> Copied(c, f, h0, h)
  }

  ghost predicate RecordedIfSpared(core: Core, c: PlannedCopy, f: Files, h: History) {
    Spares(core, {c.destination}) ==> Recorded(c, f, h)
  }

  // A copy that was begun at the moment `begun` can succeed.
  predicate Copyable(c: PlannedCopy, broken: set<string>, begun: History)
    requires ValidHistory(begun)
  {
    c.destination !in broken && Current(begun, c.source).Present?
  }

  // At the moment `checked` its source does not look as planned, or cannot be looked at.
  predicate Moved(c: PlannedCopy, unreadable: set<string>, checked: History)
    requires ValidHistory(checked)
  {
    c.source in unreadable || !Stamped(Current(checked, c.source), c.identity)
  }

  // A path that was removed is still missing, or the core has written it again: from its own URL, if it has one.
  predicate GoneOrRefilled(core: Core, f: Files, d: string) {
    d in f ==>
      && core.Running? && d !in core.shielded
      && (d in core.downloads ==> f[d].origin == Download(core.downloads[d]))
  }

  function Members(s: seq<string>): set<string> {
    set d | d in s
  }

  // The recorded paths a sweep accepts: those that still validate.
  function Sweepable(obsolete: seq<string>): set<string> {
    set d | d in obsolete && Resolve(d).Ok?
  }

  // What a sweep accepts is gone, unless it could not be removed or the core has written it again.
  predicate Swept(obsolete: seq<string>, core: Core, stuck: set<string>, f: Files) {
    forall d | d in obsolete && Resolve(d).Ok? && d !in stuck && Spares(core, {d}) :: d !in f
  }

  lemma StaysSwept(obsolete: seq<string>, i: nat, core: Core, stuck: set<string>, f: Files, f': Files)
    requires i <= |obsolete| && forall d | d in obsolete && Resolve(d).Ok? :: IsKey(d)
    requires Swept(obsolete[..i], core, stuck, f) && Changed(core, {}, f, f')
    ensures Swept(obsolete[..i], core, stuck, f')
  {
    hide Resolve, IsTempPath;
    forall d | d in obsolete[..i] && Resolve(d).Ok? && d !in stuck && Spares(core, {d})
      ensures d !in f'
    {
      assert d in obsolete;
      TempsAreApart(d);
      assert CoreMayChange(core, f, f', d);
    }
  }

  // After waiting from `f` to `f1`, one operation wrote `written` by way of the temporary `temp`.
  lemma OnlyWrote(core: Core, temp: string, written: set<string>, f: Files, f1: Files, f': Files)
    requires IsTempPath(temp) && Changed(core, {}, f, f1)
    requires forall p | p != temp && p !in written :: Same(f1, f', p)
    ensures Changed(core, written, f, f')
  {
    forall p | p !in written && !IsTempPath(p)
      ensures CoreMayChange(core, f, f', p)
    {
      assert CoreMayChange(core, f, f1, p) && Same(f1, f', p);
    }
  }

  class Generation {
    var history: History
    var files: Files
    var sequence: nat
    const processId: nat

    ghost predicate Valid()
      reads this
    {
      ValidHistory(history)
    }

    constructor (history: History, files: Files, processId: nat)
      requires ValidHistory(history)
      ensures Valid() && this.history == history && this.files == files && sequence == 0
    {
      this.history, this.files, this.processId, sequence := history, files, processId, 0;
    }

    /** Time passes: sources evolve and a live core writes. */
    method Elapse(core: Core)
      requires Valid()
      modifies this`history, this`files
      ensures Valid() && Extends(old(history), history) && Changed(core, {}, old(files), files)
    {
      var h: History := *;
      var f: Files := *;
      if ValidHistory(h) && Extends(history, h) {
        history := h;
      }
      if CoreWrote(core, files, f) {
        CoreWroteIsChanged(core, files, f);
        files := f;
      }
    }

    /** `remove_staged_file`: a missing file counts as removed. `stuck` holds the paths that cannot be removed now. */
    method RemoveStagedFile(path: string, stuck: set<string>) returns (ok: bool)
      modifies this`files
      ensures ok <==> path !in stuck
      ensures files == if ok then old(files) - {path} else old(files)
    {
      ok := path !in stuck;
      if ok {
        files := files - {path};
      }
    }

    /** `staging_temp_path`. */
    method NextTempPath(destination: string) returns (temp: string)
      requires ServicePath(destination)
      modifies this`sequence
      ensures sequence == old(sequence) + 1
      ensures AllNormal(Components(destination)) && NamesOf(Components(destination)) != []
      ensures temp == TempPath(NamesOf(Components(destination)), processId, old(sequence))
      ensures IsTempPath(temp) && temp != destination
    {
      OwnPathNames(destination);
      var names := NamesOf(Components(destination));
      temp := TempPath(names, processId, sequence);
      assert IsTempPath(temp);
      TempsAreApart(destination);
      sequence := sequence + 1;
    }

    /** `replace_staged_file`: a failed rename changed nothing, and the temporary is then removed if it can be. */
    method ReplaceStagedFile(temp: string, destination: string, fails: bool, removable: bool) returns (ok: bool)
      requires temp in files && temp != destination
      modifies this`files
      ensures ok <==> !fails
      ensures ok ==> destination in files && files[destination] == old(files)[temp]
      ensures ok || removable ==> temp !in files
      ensures forall p | p != temp && (ok ==> p != destination) :: Same(old(files), files, p)
    {
      hide Resolve, IsTempPath;
      ok := !fails;
      if ok {
        files := (files - {temp})[destination := files[temp]];
      } else {
        var _ := RemoveStagedFile(temp, if removable then {} else {temp});
      }
    }

    // What a failed write leaves: perhaps a partial temporary, removed again if it can be.
    method AbandonTemp(temp: string, removable: bool)
      modifies this`files
      ensures removable ==> temp !in files
      ensures forall p | p != temp :: Same(old(files), files, p)
    {
      hide Resolve, IsTempPath;
      var partial: bool, bytes: seq<int> := *, *;
      if partial {
        files := files[temp := File(Data(bytes), FromService)];
      }
      var _ := RemoveStagedFile(temp, if removable then {} else {temp});
    }

    // The `fs::copy` into the temporary: the source is opened at some moment, if it is there then, and read until it
    // is done. The bytes read are the source's only if it did not change meanwhile.
    method CopyIntoTemp(source: string, temp: string, core: Core, fails: bool) returns (ok: bool, ghost begun: History)
      requires Valid() && IsTempPath(temp)
      modifies this`history, this`files
      ensures Valid() && Extends(old(history), history) && Changed(core, {}, old(files), files)
      ensures ValidHistory(begun) && Extends(old(history), begun) && Extends(begun, history)
      ensures ok <==> !fails && Current(begun, source).Present?
      ensures ok ==> temp in files && files[temp].origin == FromService && files[temp].content.Data?
      ensures ok && Of(history, source) == Of(old(history), source) ==>
                Current(history, source).Present? && HoldsBytes(files, temp, Current(history, source).bytes)
    {
      hide Resolve, IsTempPath, Changed;
      var before := history;
      Elapse(core);
      begun := history;
      ghost var atOpening := files;
      var there := Current(history, source).Present?;
      Elapse(core);
      ghost var waited := files;
      ChangedTransitive(core, {}, {}, old(files), atOpening, files);
      var none: set<string> := {};
      assert none + none == none;
      ExtendsTransitive(before, begun, history);
      ok := there && !fails;
      var bytes: seq<int> := *;
      if Of(history, source) == Of(before, source) {
        Sandwich(before, begun, history, source);
        match Current(history, source)
        case Gone =>
        case Present(current, _) => bytes := current;
      }
      if ok {
        files := files[temp := File(Data(bytes), FromService)];
      } else {
        var removable: bool := *;
        AbandonTemp(temp, removable);
      }
      OnlyWrote(core, temp, {}, old(files), waited, files);
    }

    /** `copy_staged_file`. `broken` holds the paths that cannot be written now, at whatever step that fails. */
    method CopyStagedFile(source: string, destination: string, core: Core, broken: set<string>)
      returns (ok: bool, ghost begun: History)
      requires Valid() && ServicePath(destination)
      modifies this
      ensures Valid() && Extends(old(history), history)
      ensures ValidHistory(begun) && Extends(old(history), begun) && Extends(begun, history)
      ensures ok <==> destination !in broken && Current(begun, source).Present?
      ensures Changed(core, if ok then {destination} else {}, old(files), files)
      ensures ok ==>
                destination in files && files[destination].origin == FromService && files[destination].content.Data?
      ensures ok && Of(history, source) == Of(old(history), source) ==>
                Current(history, source).Present? && HoldsBytes(files, destination, Current(history, source).bytes)
    {
      hide Resolve, IsTempPath;
      var fails := destination in broken;
      var noDirectory: bool, noRename: bool, removable: bool := *, *, *;
      if fails && noDirectory {
        ExtendsReflexive(history);
        return false, history;
      }
      var temp := NextTempPath(destination);
      ok, begun := CopyIntoTemp(source, temp, core, fails && !noRename);
      if !ok {
        return;
      }
      ghost var copied := files;
      ok := ReplaceStagedFile(temp, destination, fails, removable);
      OnlyWrote(core, temp, if ok then {destination} else {}, old(files), copied, files);
    }

    /** `write_atomically`. */
    method WriteAtomically(destination: string, content: Content, core: Core, broken: set<string>) returns (ok: bool)
      requires Valid() && ServicePath(destination)
      modifies this
      ensures Valid() && Extends(old(history), history)
      ensures ok <==> destination !in broken
      ensures Changed(core, if ok then {destination} else {}, old(files), files)
      ensures ok ==> destination in files && files[destination] == File(content, FromService)
    {
      hide Resolve, IsTempPath;
      var fails := destination in broken;
      var noRename: bool, removable: bool := *, *;
      var temp := NextTempPath(destination);
      TempsAreApart(destination);
      Elapse(core);
      label elapsed:
      if fails && !noRename {
        AbandonTemp(temp, removable);
        OnlyWrote(core, temp, {}, old(files), old@elapsed(files), files);
        return false;
      }
      files := files[temp := File(content, FromService)];
      ghost var staged := files;
      OnlyWrote(core, temp, {}, old(files), old@elapsed(files), staged);
      ok := ReplaceStagedFile(temp, destination, fails, removable);
      OnlyWrote(core, temp, if ok then {destination} else {}, old(files), staged, files);
    }

    /** `source_identity_changed`: a source that cannot be inspected counts as changed. */
    method SourceIdentityChanged(source: string, identity: SourceIdentity, core: Core,
                                 unreadable: set<string>) returns (changed: bool)
      requires Valid()
      modifies this`history, this`files
      ensures Valid() && Extends(old(history), history) && Changed(core, {}, old(files), files)
      ensures changed <==> source in unreadable || !Stamped(Current(history, source), identity)
    {
      Elapse(core);
      match Current(history, source)
      case Gone => changed := true;
      case Present(bytes, mtime) =>
        changed := source in unreadable || |bytes| != identity.len || mtime != identity.mtime;
    }

    /** One copy of a plan, and the check that follows it. */
    method CopyAndCheck(c: PlannedCopy, core: Core, broken: set<string>, unreadable: set<string>)
      returns (ok: bool, changed: bool, ghost begun: History)
      requires Valid() && IsKey(c.destination)
      requires c.identity.source == c.source && (c.identity.mtime.Some? ==> Seen(history, c.identity))
      modifies this
      ensures Valid() && Extends(old(history), history)
      ensures ValidHistory(begun) && Extends(old(history), begun) && Extends(begun, history)
      ensures ok <==> Copyable(c, broken, begun)
      ensures Changed(core, if ok then {c.destination} else {}, old(files), files)
      ensures ok ==> CopiedIfSpared(core, c, files, old(history), history)
      ensures ok && !changed ==> RecordedIfSpared(core, c, files, history)
      ensures ok ==> (changed <==> Moved(c, unreadable, history))
    {
      hide Resolve, IsTempPath;
      changed := false;
      ok, begun := CopyStagedFile(c.source, c.destination, core, broken);
      if !ok {
        return;
      }
      label copied:
      assert Copied(c, files, old(history), history);
      changed := SourceIdentityChanged(c.source, c.identity, core, unreadable);
      ExtendsTransitive(begun, old@copied(history), history);
      ChangedTransitive(core, {c.destination}, {}, old(files), old@copied(files), files);
      assert {c.destination} + {} == {c.destination};
      TempsAreApart(c.destination);
      assert CoreMayChange(core, old@copied(files), files, c.destination);
      ExtendsTransitive(old(history), old@copied(history), history);
      if Spares(core, {c.destination}) {
        CopiedLater(c, old@copied(files), files, old(history), old@copied(history), history);
        if !changed && c.identity.mtime.Some? {
          SameStampSameVersion(old(history), history, c.identity);
          Sandwich(old(history), old@copied(history), history, c.source);
          CurrentIsMadeFrom(files, c.destination, c.identity, history);
        }
      }
    }

    /** The required-delete loop: stale provider caches go first. */
    method DiscardStaleCaches(deletes: seq<string>, core: Core, stuck: set<string>) returns (ok: bool, ghost done: nat)
      requires Valid() && forall d | d in deletes :: IsKey(d)
      modifies this
      ensures Valid() && Extends(old(history), history)
      ensures done <= |deletes| && (ok ==> done == |deletes|)
      ensures ok <==> Members(deletes) !! stuck
      ensures Changed(core, Members(deletes[..done]), old(files), files)
      ensures forall d | d in deletes[..done] :: GoneOrRefilled(core, files, d)
    {
      hide Resolve, IsTempPath;
      done := 0;
      for i := 0 to |deletes|
        invariant Valid() && Extends(old(history), history)
        invariant done == i && Changed(core, Members(deletes[..i]), old(files), files)
        invariant Members(deletes[..i]) !! stuck
        invariant forall d | d in deletes[..i] :: GoneOrRefilled(core, files, d)
      {
        ghost var start := files;
        ghost var h := history;
        Elapse(core);
        ghost var waited := files;
        ExtendsTransitive(old(history), h, history);
        ChangedTransitive(core, Members(deletes[..i]), {}, old(files), start, files);
        assert Members(deletes[..i]) + {} == Members(deletes[..i]);
        forall d | d in deletes[..i]
          ensures GoneOrRefilled(core, files, d)
        {
          assert d in deletes;
          TempsAreApart(d);
          assert CoreMayChange(core, start, files, d);
        }
        assert deletes[i] in deletes;
        var target := Resolve(deletes[i]);
        // The error exit of this call is dead: a planned path always resolves, to itself.
        assert target == Ok(deletes[i]);
        var removed := RemoveStagedFile(target.value, stuck);
        if !removed {
          return false, i;
        }
        forall d | d in deletes[..i + 1]
          ensures GoneOrRefilled(core, files, d)
        {
          assert d in deletes[..i] ==> GoneOrRefilled(core, waited, d);
        }
        assert Changed(core, {deletes[i]}, waited, files);
        ChangedTransitive(core, Members(deletes[..i]), {deletes[i]}, old(files), waited, files);
        assert Members(deletes[..i + 1]) == Members(deletes[..i]) + {deletes[i]};
        done := i + 1;
      }
      ok := true;
      assert deletes[..|deletes|] == deletes;
    }

    /** The sweep after a commit: best effort, and only paths that still validate. */
    method SweepObsolete(obsolete: seq<string>, core: Core, stuck: set<string>)
      requires Valid() && forall d | d in obsolete && Resolve(d).Ok? :: IsKey(d)
      modifies this
      ensures Valid() && Extends(old(history), history)
      ensures Changed(core, Sweepable(obsolete), old(files), files)
      ensures Swept(obsolete, core, stuck, files)
    {
      hide Resolve, IsTempPath;
      for i := 0 to |obsolete|
        invariant Valid() && Extends(old(history), history)
        invariant Changed(core, Sweepable(obsolete), old(files), files)
        invariant Swept(obsolete[..i], core, stuck, files)
      {
        ghost var start := files;
        ghost var h := history;
        Elapse(core);
        ghost var waited := files;
        ExtendsTransitive(old(history), h, history);
        ChangedTransitive(core, Sweepable(obsolete), {}, old(files), start, files);
        assert Sweepable(obsolete) + {} == Sweepable(obsolete);
        assert obsolete[i] in obsolete;
        StaysSwept(obsolete, i, core, stuck, start, files);
        assert obsolete[..i + 1] == obsolete[..i] + [obsolete[i]];
        var target := Resolve(obsolete[i]);
        if target.Ok? {
          assert target.value == obsolete[i];
          var _ := RemoveStagedFile(target.value, stuck);
          assert Changed(core, {obsolete[i]}, waited, files);
          ChangedTransitive(core, Sweepable(obsolete), {obsolete[i]}, old(files), waited, files);
          assert Sweepable(obsolete) + {obsolete[i]} == Sweepable(obsolete);
        }
      }
      assert obsolete[..|obsolete|] == obsolete;
    }

    /** `commit_staged_config`: the manifest first, the configuration last. */
    method CommitStagedConfig(manifest: Manifest, yaml: string, core: Core, broken: set<string>) returns (ok: bool)
      requires Valid() && Spares(core, {CONFIG_FILE_NAME, MANIFEST_FILE_NAME})
      modifies this
      ensures Valid() && Extends(old(history), history)
      ensures Changed(core, {MANIFEST_FILE_NAME, CONFIG_FILE_NAME}, old(files), files)
      ensures ok <==> MANIFEST_FILE_NAME !in broken && CONFIG_FILE_NAME !in broken
      ensures MANIFEST_FILE_NAME !in broken ==> OnDisk(files) == Some(manifest)
      ensures ok ==> CONFIG_FILE_NAME in files && files[CONFIG_FILE_NAME] == File(Yaml(yaml), FromService)
      ensures !ok ==> Same(old(files), files, CONFIG_FILE_NAME)
      ensures MANIFEST_FILE_NAME in broken ==> Same(old(files), files, MANIFEST_FILE_NAME)
    {
      hide Resolve, IsTempPath;
      TempsAreApart(CONFIG_FILE_NAME);
      TempsAreApart(MANIFEST_FILE_NAME);
      assert MANIFEST_FILE_NAME[0] != CONFIG_FILE_NAME[0];
      ok := WriteAtomically(MANIFEST_FILE_NAME, ManifestText(manifest), core, broken);
      label recorded:
      assert CoreMayChange(core, old(files), files, CONFIG_FILE_NAME);
      if !ok {
        assert CoreMayChange(core, old(files), files, MANIFEST_FILE_NAME);
        assert Changed(core, {MANIFEST_FILE_NAME, CONFIG_FILE_NAME}, old(files), files);
        return;
      }
      ok := WriteAtomically(CONFIG_FILE_NAME, Yaml(yaml), core, broken);
      assert CoreMayChange(core, old@recorded(files), files, MANIFEST_FILE_NAME);
      if !ok { assert CoreMayChange(core, old@recorded(files), files, CONFIG_FILE_NAME); }
      ExtendsTransitive(old(history), old@recorded(history), history);
      ChangedTransitive(core, {MANIFEST_FILE_NAME}, if ok then {CONFIG_FILE_NAME} else {}, old(files),
                        old@recorded(files), files);
    }
  }
}
