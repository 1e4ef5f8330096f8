/**
 Gathering a bundle (`gather_bundle`, `declared_remote_providers`): from what a client declares and
 what its source files look like, to the sources and providers a plan is made of.
 */
module Bundle {
  import opened Wrappers
  import opened StringOrder
  import opened Names
  import opened StagePlan

  datatype DeclaredAsset = DeclaredAsset(source: string, destination: string)

  // What `validate_source` and the metadata call say about one declared source. A validated source is
  // its own canonical path.
  datatype Probe = Rejected | Unreadable | Found(len: nat, mtime: Option<nat>)

  datatype BundleError =
    | BadSource
    | BadDestination(error: NameError)
    | CannotInspect
    | DeclaredTwice(key: string)
    | AssetAndProvider(key: string)
    | TwoProviderSources(key: string)

  datatype Gathered = Gathered(sources: seq<AssetSource>, remote: seq<RemoteProvider>)

  // Every destination validates, none is an asset's, and no key is given two URLs.
  predicate Consistent(declared: seq<RemoteProvider>, assetKeys: set<string>) {
    && (forall p | p in declared :: Resolve(p.destination).Ok? && Resolve(p.destination).value !in assetKeys)
    && (forall p, q | p in declared && q in declared && Resolve(p.destination) == Resolve(q.destination) ::
        p.url == q.url)
  }

  // The providers a declaration asks for, under their canonical keys.
  ghost predicate IsDeclaredAs(declared: seq<RemoteProvider>, key: string, url: string) {
    exists p | p in declared :: Resolve(p.destination) == Ok(key) && p.url == url
  }

  predicate InKeyOrder(remote: seq<RemoteProvider>) {
    forall i, j | 0 <= i < j < |remote| :: Less(remote[i].destination, remote[j].destination)
  }

  function ListProviders(seen: map<string, string>): (r: seq<RemoteProvider>)
    ensures InKeyOrder(r)
    ensures forall p :: p in r <==> p.destination in seen && seen[p.destination] == p.url
  {
    var keys := KeysInOrder(seen.Keys);
    assert forall i | 0 <= i < |keys| :: keys[i] in keys;
    var r := seq(|keys|, i requires 0 <= i < |keys| => RemoteProvider(keys[i], seen[keys[i]]));
    assert forall p: RemoteProvider :: p.destination in seen && seen[p.destination] == p.url ==> p in r by {
      forall p: RemoteProvider | p.destination in seen && seen[p.destination] == p.url
        ensures p in r
      {
        assert p.destination in keys;
        var i :| 0 <= i < |keys| && keys[i] == p.destination;
        assert r[i] == p;
      }
    }
    r
  }

  lemma InKeyOrderIsDistinct(remote: seq<RemoteProvider>)
    requires InKeyOrder(remote)
    ensures DistinctProviders(remote)
  {
    forall i, j | 0 <= i < j < |remote|
      ensures remote[i].destination != remote[j].destination
    {
      LessIsTotal(remote[i].destination, remote[j].destination);
    }
  }

  // The fault among the declared providers that an error names is really there.
  ghost predicate ProvidersAtFault(declared: seq<RemoteProvider>, assetKeys: set<string>, e: BundleError) {
    match e
    case BadDestination(error) => exists p | p in declared :: Resolve(p.destination) == Err(error)
    case AssetAndProvider(key) => key in assetKeys && exists p | p in declared :: Resolve(p.destination) == Ok(key)
    case TwoProviderSources(key) =>
      exists p, q | p in declared && q in declared ::
        Resolve(p.destination) == Ok(key) && Resolve(q.destination) == Ok(key) && p.url != q.url
    case _ => false
  }

  /**
   `declared_remote_providers`: succeeds exactly on consistent declarations, with their graph in key order, and
   otherwise names a fault that is there.
   */
  method DeclaredRemoteProviders(declared: seq<RemoteProvider>, assetKeys: set<string>)
    returns (r: Result<seq<RemoteProvider>, BundleError>)
    ensures r.Ok? <==> Consistent(declared, assetKeys)
    ensures r.Ok? ==> InKeyOrder(r.value)
    ensures r.Ok? ==> forall k, u :: RemoteProvider(k, u) in r.value <==> IsDeclaredAs(declared, k, u)
    ensures r.Err? ==> ProvidersAtFault(declared, assetKeys, r.error)
  {
    var seen: map<string, string> := map[];
    for i := 0 to |declared|
      invariant forall p | p in declared[..i] ::
                  && Resolve(p.destination).Ok? && Resolve(p.destination).value !in assetKeys
                  && Resolve(p.destination).value in seen && seen[Resolve(p.destination).value] == p.url
      invariant forall k | k in seen :: IsDeclaredAs(declared[..i], k, seen[k])
    {
      var provider := declared[i];
      assert provider in declared;
      assert declared[..i + 1] == declared[..i] + [provider];
      var resolved := Resolve(provider.destination);
      if resolved.Err? {
        return Err(BadDestination(resolved.error));
      }
      var key := resolved.value;
      if key in assetKeys {
        return Err(AssetAndProvider(key));
      }
      if key !in seen {
        seen := seen[key := provider.url];
      } else if seen[key] != provider.url {
        assert IsDeclaredAs(declared[..i], key, seen[key]);
        var first :| first in declared[..i] && Resolve(first.destination) == Ok(key) && first.url == seen[key];
        assert first in declared;
        return Err(TwoProviderSources(key));
      }
    }
    assert declared[..|declared|] == declared;
    r := Ok(ListProviders(seen));
  }

  function KeysOf(assets: seq<DeclaredAsset>): set<string> {
    set a | a in assets && Resolve(a.destination).Ok? :: Resolve(a.destination).value
  }

  // Every destination of an asset validates, and no two assets share a key.
  predicate DistinctDestinations(assets: seq<DeclaredAsset>) {
    && (forall a | a in assets :: Resolve(a.destination).Ok?)
    && (forall i, j | 0 <= i < j < |assets| :: Resolve(assets[i].destination) != Resolve(assets[j].destination))
  }

  function SourceOf(asset: DeclaredAsset, probe: Probe): AssetSource
    requires probe.Found? && Resolve(asset.destination).Ok?
  {
    AssetSource(asset.source, Resolve(asset.destination).value, probe.len, probe.mtime)
  }

  // The same for a whole bundle: of its sources, of its destinations, or of its providers.
  ghost predicate AtFault(assets: seq<DeclaredAsset>, probes: seq<Probe>, declared: seq<RemoteProvider>,
                          e: BundleError) {
    match e
    case BadSource => Rejected in probes
    case CannotInspect => Unreadable in probes
    case DeclaredTwice(key) =>
      exists i, j | 0 <= i < j < |assets| ::
        Resolve(assets[i].destination) == Ok(key) && Resolve(assets[j].destination) == Ok(key)
    case _ =>
      || ProvidersAtFault(declared, KeysOf(assets), e)
      || (e.BadDestination? && exists a | a in assets :: Resolve(a.destination) == Err(e.error))
  }

  /** `gather_bundle`. */
  method GatherBundle(assets: seq<DeclaredAsset>, probes: seq<Probe>, declared: seq<RemoteProvider>)
    returns (r: Result<Gathered, BundleError>)
    requires |probes| == |assets|
    ensures r.Ok? <==>
            && (forall probe | probe in probes :: probe.Found?)
            && DistinctDestinations(assets)
            && Consistent(declared, KeysOf(assets))
    ensures r.Ok? ==>
            && |r.value.sources| == |assets|
            && (forall i | 0 <= i < |assets| ::
                  probes[i].Found? && Resolve(assets[i].destination).Ok? &&
                  r.value.sources[i] == SourceOf(assets[i], probes[i]))
            && InKeyOrder(r.value.remote)
            && (forall k, u :: RemoteProvider(k, u) in r.value.remote <==> IsDeclaredAs(declared, k, u))
    ensures r.Err? ==> AtFault(assets, probes, declared, r.error)
  {
    hide Resolve;
    var sources: seq<AssetSource> := [];
    var assetKeys: set<string> := {};
    for i := 0 to |assets|
      invariant |sources| == i
      invariant forall j | 0 <= j < i ::
                  probes[j].Found? && Resolve(assets[j].destination).Ok? && sources[j] == SourceOf(assets[j], probes[j])
      invariant forall k :: k in assetKeys <==> exists j | 0 <= j < i :: sources[j].destination == k
      invariant DistinctAssets(sources)
    {
      var asset := assets[i];
      assert asset in assets && probes[i] in probes;
      if probes[i].Rejected? {
        return Err(BadSource);
      }
      var resolved := Resolve(asset.destination);
      if resolved.Err? {
        return Err(BadDestination(resolved.error));
      }
      if probes[i].Unreadable? {
        return Err(CannotInspect);
      }
      var key := resolved.value;
      if key in assetKeys {
        var j :| 0 <= j < i && sources[j].destination == key;
        assert Resolve(assets[j].destination) == Resolve(assets[i].destination);
        return Err(DeclaredTwice(key));
      }
      assetKeys := assetKeys + {key};
      sources := sources + [AssetSource(asset.source, key, probes[i].len, probes[i].mtime)];
    }
    assert assetKeys == KeysOf(assets) by { KeysOfSources(assets, probes, sources, assetKeys); }
    assert DistinctDestinations(assets) by {
      forall i, j | 0 <= i < j < |assets|
        ensures Resolve(assets[i].destination) != Resolve(assets[j].destination)
      {
        assert sources[i].destination != sources[j].destination;
      }
    }
    var remote := DeclaredRemoteProviders(declared, assetKeys);
    if remote.Err? {
      return Err(remote.error);
    }
    r := Ok(Gathered(sources, remote.value));
  }

  lemma KeysOfSources(assets: seq<DeclaredAsset>, probes: seq<Probe>, sources: seq<AssetSource>, keys: set<string>)
    requires |probes| == |assets| == |sources|
    requires forall j | 0 <= j < |assets| ::
               probes[j].Found? && Resolve(assets[j].destination).Ok? && sources[j] == SourceOf(assets[j], probes[j])
    requires forall k :: k in keys <==> exists j | 0 <= j < |assets| :: sources[j].destination == k
    ensures keys == KeysOf(assets)
  {
    forall k
      ensures k in keys <==> k in KeysOf(assets)
    {
      if k in keys {
        var j :| 0 <= j < |assets| && sources[j].destination == k;
        assert assets[j] in assets;
      }
      if k in KeysOf(assets) {
        var a :| a in assets && Resolve(a.destination) == Ok(k);
        var j :| 0 <= j < |assets| && assets[j] == a;
        assert sources[j].destination == k;
      }
    }
  }

  // What planning and the executors need from a gathered bundle: no destination is declared twice, and
  // every destination is a canonical key.
  lemma GatheredIsWellDeclared(assets: seq<DeclaredAsset>, probes: seq<Probe>, declared: seq<RemoteProvider>,
                               g: Gathered)
    requires |probes| == |assets| == |g.sources|
    requires DistinctDestinations(assets) && Consistent(declared, KeysOf(assets))
    requires forall i | 0 <= i < |assets| :: probes[i].Found? && g.sources[i] == SourceOf(assets[i], probes[i])
    requires InKeyOrder(g.remote)
    requires forall k, u :: RemoteProvider(k, u) in g.remote <==> IsDeclaredAs(declared, k, u)
    ensures WellDeclared(g.sources, g.remote)
    ensures forall s | s in g.sources :: IsKey(s.destination)
    ensures forall p | p in g.remote :: IsKey(p.destination)
  {
    InKeyOrderIsDistinct(g.remote);
    forall i, j | 0 <= i < j < |g.sources|
      ensures g.sources[i].destination != g.sources[j].destination
    {
      assert Resolve(assets[i].destination) != Resolve(assets[j].destination);
    }
    forall s | s in g.sources
      ensures IsKey(s.destination) && s.destination in KeysOf(assets)
    {
      var i :| 0 <= i < |g.sources| && g.sources[i] == s;
      assert assets[i] in assets;
      PlannedPathsResolve(assets[i].destination);
    }
    forall p | p in g.remote
      ensures IsKey(p.destination) && p.destination !in KeysOf(assets)
    {
      assert RemoteProvider(p.destination, p.url) == p;
      assert IsDeclaredAs(declared, p.destination, p.url);
      var q :| q in declared && Resolve(q.destination) == Ok(p.destination);
      PlannedPathsResolve(q.destination);
    }
  }
}
