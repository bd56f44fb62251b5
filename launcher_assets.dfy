// Game assets of the Go library launcher (pkg/launcher/assets.go): each
// index object becomes an asset with a resources URL and a runtime path, the
// ones whose file is missing or corrupt are kept for download, and the
// index itself is reused when its cached copy has the expected SHA-1.
module LauncherAssets {
  import opened Wrappers
  import opened FileSystem
  import opened MetaMinecraft
  import opened Collections
  import Network
  import NetworkCaches

  /** A game asset at runtime: the index object, where it is fetched from
      and where it lives. */
  datatype Asset = Asset(obj: AssetObject, url: string, runtimePath: string)

  /** `newAsset`: the URL resources/<h[:2]>/<h> and the path
      <assets>/objects/<h[:2]>/<h>. */
  function NewAsset(assetsDir: string, obj: AssetObject): (a: Asset)
    requires |obj.hash| >= 2
    ensures a.obj == obj
    ensures a.url == MinecraftResourcesURL + "/" + obj.hash[..2] + "/" + obj.hash
    ensures a.runtimePath == PathJoin(PathJoin(PathJoin(assetsDir, "objects"), obj.hash[..2]), obj.hash)
  {
    Asset(obj, AssetURL(obj.hash), AssetPath(assetsDir, obj.hash))
  }

  /** `isDownloaded`: the file is readable and its hex SHA-1 is the hash. */
  predicate IsDownloaded(files: map<string, Bytes>, sha1: Sha1, a: Asset)
  {
    a.runtimePath in files && a.obj.hash == HexSha1(sha1, files[a.runtimePath])
  }

  /** An asset is downloaded exactly when the object is present in the
      sense the current generation's download list uses. */
  lemma IsDownloadedIsPresent(files: map<string, Bytes>, sha1: Sha1, assetsDir: string, obj: AssetObject)
    requires |obj.hash| >= 2
    ensures IsDownloaded(files, sha1, NewAsset(assetsDir, obj)) <==> AssetPresent(files, sha1, assetsDir, obj)
  {
  }

  /** `downloadEntry`: the asset's URL and runtime path, nothing else. */
  function DownloadEntry(a: Asset): (e: Network.DownloadEntry)
    ensures e.url == a.url && e.path == a.runtimePath
    ensures e.sha1 == "" && e.fileMode == 0
  {
    Network.DownloadEntry(a.url, a.runtimePath, "", 0)
  }

  /** Whether an object still has to be fetched. */
  predicate Missing(files: map<string, Bytes>, sha1: Sha1, assetsDir: string, obj: AssetObject)
  {
    |obj.hash| >= 2 && !IsDownloaded(files, sha1, NewAsset(assetsDir, obj))
  }

  /** The assets of the objects, in order. */
  function Assets(assetsDir: string, objects: seq<AssetObject>): (r: seq<Asset>)
    requires WellFormedHashes(objects)
    ensures |r| == |objects|
    ensures forall k :: 0 <= k < |objects| ==> r[k] == NewAsset(assetsDir, objects[k])
  {
    seq(|objects|, k requires 0 <= k < |objects| && |objects[k].hash| >= 2 => NewAsset(assetsDir, objects[k]))
  }

  /** What `filterAssets` computes over the objects in iteration order: the
      assets not yet downloaded, or Go's panic at the first hash too short to
      slice. */
  function Required(files: map<string, Bytes>, sha1: Sha1, assetsDir: string, objects: seq<AssetObject>): Result<seq<Asset>>
  {
    if |objects| == 0 then Ok([])
    else
      var rest := Required(files, sha1, assetsDir, objects[..|objects| - 1]);
      var obj := objects[|objects| - 1];
      if rest.Err? then rest
      else if |obj.hash| < 2 then Err(SlicePanic(obj.hash))
      else if IsDownloaded(files, sha1, NewAsset(assetsDir, obj)) then rest
      else Ok(rest.value + [NewAsset(assetsDir, obj)])
  }

  /** `filterAssets`. */
  method FilterAssets(disk: Disk, sha1: Sha1, assetsDir: string, objects: seq<AssetObject>)
    returns (r: Result<seq<Asset>>)
    ensures r == Required(disk.files, sha1, assetsDir, objects)
  {
    var required: seq<Asset> := [];
    for i := 0 to |objects|
      invariant Required(disk.files, sha1, assetsDir, objects[..i]) == Ok(required)
    {
      assert objects[..i + 1][..i] == objects[..i];
      var obj := objects[i];
      if |obj.hash| < 2 {
        assert objects[..|objects|] == objects;
        RequiredStopsAtPanic(disk.files, sha1, assetsDir, objects, i);
        return Err(SlicePanic(obj.hash));
      }
      var asset := NewAsset(assetsDir, obj);
      var data := disk.Read(asset.runtimePath);
      var downloaded := data.Ok? && asset.obj.hash == HexSha1(sha1, data.value);
      if !downloaded {
        required := required + [asset];
      }
    }
    assert objects[..|objects|] == objects;
    return Ok(required);
  }

  /** The first hash too short to slice decides the outcome. */
  lemma {:induction false} RequiredStopsAtPanic(files: map<string, Bytes>, sha1: Sha1, assetsDir: string,
                                                objects: seq<AssetObject>, i: nat)
    requires i < |objects| && |objects[i].hash| < 2
    requires Required(files, sha1, assetsDir, objects[..i]).Ok?
    ensures Required(files, sha1, assetsDir, objects) == Err(SlicePanic(objects[i].hash))
    decreases |objects|
  {
    if |objects| - 1 == i {
      assert objects[..|objects| - 1] == objects[..i];
    } else {
      var init := objects[..|objects| - 1];
      assert init[..i] == objects[..i];
      RequiredStopsAtPanic(files, sha1, assetsDir, init, i);
    }
  }

  /** Filtering keeps hashes well formed. */
  lemma FilterWellFormed(objects: seq<AssetObject>, p: AssetObject -> bool)
    requires WellFormedHashes(objects)
    ensures WellFormedHashes(Filter(objects, p))
  {
    var kept := Filter(objects, p);
    FilterMembers(objects, p);
    forall k | 0 <= k < |kept| ensures |kept[k].hash| >= 2 {
      assert kept[k] in kept;
    }
  }

  /** Assets of a sequence with one more object. */
  lemma AssetsAppend(assetsDir: string, objects: seq<AssetObject>, o: AssetObject)
    requires WellFormedHashes(objects) && |o.hash| >= 2
    ensures WellFormedHashes(objects + [o])
    ensures Assets(assetsDir, objects + [o]) == Assets(assetsDir, objects) + [NewAsset(assetsDir, o)]
  {
    assert forall k :: 0 <= k < |objects| ==> (objects + [o])[k] == objects[k];
  }

  /** With every hash long enough, the required assets are exactly those of
      the missing objects, each once and in index order. */
  lemma {:induction false} RequiredIsFilter(files: map<string, Bytes>, sha1: Sha1, assetsDir: string, objects: seq<AssetObject>)
    requires WellFormedHashes(objects)
    ensures WellFormedHashes(Filter(objects, o => Missing(files, sha1, assetsDir, o)))
    ensures Required(files, sha1, assetsDir, objects) == Ok(Assets(assetsDir, Filter(objects, o => Missing(files, sha1, assetsDir, o))))
    decreases |objects|
  {
    var p := (o: AssetObject) => Missing(files, sha1, assetsDir, o);
    FilterWellFormed(objects, p);
    if |objects| > 0 {
      var init := objects[..|objects| - 1];
      var o := objects[|objects| - 1];
      RequiredIsFilter(files, sha1, assetsDir, init);
      FilterAppend(init, o, p);
      assert init + [o] == objects;
      FilterWellFormed(init, p);
      assert objects[..|objects| - 1] == init;
      assert |o.hash| >= 2;
      if p(o) {
        AssetsAppend(assetsDir, Filter(init, p), o);
      } else {
        assert IsDownloaded(files, sha1, NewAsset(assetsDir, o));
        assert Filter(objects, p) == Filter(init, p);
      }
    }
  }

  /** The cache of the version's asset index: <assets>/indexes/<id>.json,
      fetched from the index URL. */
  function IndexCache(assetsDir: string, v: VersionMeta): NetworkCaches.JSONCache
  {
    NetworkCaches.JSONCache(PathJoin(PathJoin(assetsDir, "indexes"), v.assetIndex.id + ".json"), v.assetIndex.url, "")
  }

  /** Whether the cached index is used: it reads and decodes into an empty
      index, and the hex SHA-1 of the file is the one the version names. */
  predicate IndexReusable(files: map<string, Bytes>, sha1: Sha1, assetsDir: string, v: VersionMeta,
                          into: NetworkCaches.DecoderInto<seq<AssetObject>>)
  {
    var cache := IndexCache(assetsDir, v);
    NetworkCaches.Read(files, cache, NetworkCaches.Over(into, [])).Ok?
    && (var sum := NetworkCaches.Sha1Of(files, sha1, cache); (if sum.Ok? then sum.value else "") == v.assetIndex.sha1)
  }

  /** `downloadAssetIndex`: the cached index when it is reusable, otherwise
      the result of refreshing the cache and decoding it into the index the
      stale cache filled (an empty one when it did not decode), whose error
      is returned. */
  method DownloadAssetIndex(disk: Disk, web: Web.Client, sha1: Sha1, assetsDir: string, v: VersionMeta,
                            into: NetworkCaches.DecoderInto<seq<AssetObject>>)
    returns (r: Result<seq<AssetObject>>)
    modifies disk
    ensures old(IndexReusable(disk.files, sha1, assetsDir, v, into)) ==>
      r == NetworkCaches.Read(old(disk.files), IndexCache(assetsDir, v), NetworkCaches.Over(into, []))
      && disk.files == old(disk.files)
    ensures !old(IndexReusable(disk.files, sha1, assetsDir, v, into)) ==>
      && r == NetworkCaches.FetchOutcome(web, sha1, IndexCache(assetsDir, v),
                                         NetworkCaches.Over(into, NetworkCaches.ReadTarget(old(disk.files), IndexCache(assetsDir, v), into, [])))
      && disk.files == NetworkCaches.FilesAfterFetch(old(disk.files), web, IndexCache(assetsDir, v).path, v.assetIndex.url)
  {
    var cache := IndexCache(assetsDir, v);
    var download := true;
    var target := [];
    var assetIndex := NetworkCaches.Read(disk.files, cache, NetworkCaches.Over(into, []));
    if assetIndex.Ok? {
      target := assetIndex.value;
      var sum := NetworkCaches.Sha1Of(disk.files, sha1, cache);
      var hex := if sum.Ok? then sum.value else "";
      if hex == v.assetIndex.sha1 {
        download := false;
      }
    }
    if download {
      r := NetworkCaches.FetchAndRead(disk, web, sha1, cache, NetworkCaches.Over(into, target));
      return r;
    }
    return assetIndex;
  }

  /** The cache is reused exactly when the file decodes and hashes to the
      version's SHA-1; an empty expected SHA-1 never matches a present file,
      so the index is then always refetched. */
  lemma IndexReuseCases(files: map<string, Bytes>, sha1: Sha1, assetsDir: string, v: VersionMeta,
                        into: NetworkCaches.DecoderInto<seq<AssetObject>>)
    ensures var path := IndexCache(assetsDir, v).path;
      IndexReusable(files, sha1, assetsDir, v, into)
      <==> path in files && into([], files[path]).Ok? && HexSha1(sha1, files[path]) == v.assetIndex.sha1
    ensures v.assetIndex.sha1 == "" ==> !IndexReusable(files, sha1, assetsDir, v, into)
  {
    var cache := IndexCache(assetsDir, v);
    if cache.path in files {
      var h := NetworkCaches.Sha1Of(files, sha1, cache).value;
      assert |h| == 40;
    }
  }
}
