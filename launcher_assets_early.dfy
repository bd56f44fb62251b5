// Game assets of the earliest Go launcher (internal/launcher/assets.go):
// the objects still to fetch, the download of every object with failures
// ignored, and the asset index kept in <assets>/indexes/<id>.json. The
// two-argument download of this generation is the existence-gated one of
// internal/util.go; the index fetch and the JSON codec are parameters.
module EarlyAssets {
  import opened Wrappers
  import opened FileSystem
  import opened Web
  import opened MetaMinecraft
  import GoUtil

  /** An asset index: object name to object. */
  type AssetIndex = map<string, AssetObject>

  /** An object to fetch: its file is missing, or its hex SHA-1 (that of no
      bytes when missing) is not the hash. */
  predicate Stale(files: map<string, Bytes>, sha1: Sha1, assetsDir: string, o: AssetObject)
    requires |o.hash| >= 2
  {
    var path := AssetPath(assetsDir, o.hash);
    var data := if path in files then files[path] else [];
    path !in files || o.hash != HexSha1(sha1, data)
  }

  /** The objects of the index that are stale, under the same names. */
  function RequiredAssets(files: map<string, Bytes>, sha1: Sha1, assetsDir: string, index: AssetIndex): AssetIndex
    requires forall name :: name in index ==> |index[name].hash| >= 2
  {
    map name | name in index && Stale(files, sha1, assetsDir, index[name]) :: index[name]
  }

  /** `getRequiredAssets`: Go panics on the first object met whose hash is
      too short to slice; otherwise the stale objects. */
  method GetRequiredAssets(disk: Disk, sha1: Sha1, assetsDir: string, index: AssetIndex)
    returns (r: Result<AssetIndex>)
    ensures r.Ok? <==> forall name :: name in index ==> |index[name].hash| >= 2
    ensures r.Ok? ==> r.value == RequiredAssets(disk.files, sha1, assetsDir, index)
    ensures r.Err? ==> exists name :: name in index && r.error == SlicePanic(index[name].hash)
  {
    var assets: AssetIndex := map[];
    var todo := index.Keys;
    while todo != {}
      invariant todo <= index.Keys
      invariant forall name :: name in index && name !in todo ==> |index[name].hash| >= 2
      invariant assets == map name | name in index && name !in todo && Stale(disk.files, sha1, assetsDir, index[name]) :: index[name]
      decreases todo
    {
      var name :| name in todo;
      var o := index[name];
      if |o.hash| < 2 {
        return Err(SlicePanic(o.hash));
      }
      var path := AssetPath(assetsDir, o.hash);
      var data := disk.Read(path);
      if data.Err? {
        assets := assets[name := o];
      }
      var bytes := if data.Ok? then data.value else [];
      if o.hash != HexSha1(sha1, bytes) {
        assets := assets[name := o];
      }
      todo := todo - {name};
    }
    return Ok(assets);
  }

  /** The stale objects are exactly those not present in the sense of the
      current generation's download list. */
  lemma RequiredAssetsExact(files: map<string, Bytes>, sha1: Sha1, assetsDir: string, index: AssetIndex)
    requires forall name :: name in index ==> |index[name].hash| >= 2
    ensures var req := RequiredAssets(files, sha1, assetsDir, index);
      && (forall name :: name in req <==> name in index && !AssetPresent(files, sha1, assetsDir, index[name]))
      && (forall name :: name in req ==> req[name] == index[name])
  {
  }

  /** The object loop: each object downloaded from resources/<h[:2]>/<h> to
      <assets>/objects/<h[:2]>/<h>, every failure ignored; a hash too short
      to slice stops it with Go's panic. */
  function FetchAssets(fs: Fs, web: Client, assetsDir: string, objects: seq<AssetObject>): (Option<string>, Fs)
    decreases |objects|
  {
    if |objects| == 0 then (None, fs)
    else if |objects[0].hash| < 2 then (Some(SlicePanic(objects[0].hash)), fs)
    else
      var fs1 := GoUtil.Download(fs, web, AssetURL(objects[0].hash), AssetPath(assetsDir, objects[0].hash)).1;
      FetchAssets(fs1, web, assetsDir, objects[1..])
  }

  /** `downloadAssets`, over the index's objects in the order the map is
      iterated. */
  method DownloadAssets(disk: Disk, web: Client, assetsDir: string, objects: seq<AssetObject>)
    returns (err: Option<string>)
    modifies disk
    ensures (err, disk.State()) == FetchAssets(old(disk.State()), web, assetsDir, objects)
  {
    if |objects| < 1 {
      return None;
    }
    ghost var fs0 := disk.State();
    for i := 0 to |objects|
      invariant FetchAssets(fs0, web, assetsDir, objects) == FetchAssets(disk.State(), web, assetsDir, objects[i..])
    {
      assert objects[i..][1..] == objects[i + 1..];
      var hash := objects[i].hash;
      if |hash| < 2 {
        return Some(SlicePanic(hash));
      }
      var _ := GoUtil.DownloadFile(disk, web, AssetURL(hash), AssetPath(assetsDir, hash));
    }
    return None;
  }

  /** Download failures never surface: the loop fails exactly when some hash
      is too short, with the panic of such a hash. */
  lemma {:induction false} FetchAssetsPanics(fs: Fs, web: Client, assetsDir: string, objects: seq<AssetObject>)
    ensures FetchAssets(fs, web, assetsDir, objects).0.Some? <==> exists i :: 0 <= i < |objects| && |objects[i].hash| < 2
    ensures FetchAssets(fs, web, assetsDir, objects).0.Some? ==>
      exists i :: 0 <= i < |objects| && FetchAssets(fs, web, assetsDir, objects).0 == Some(SlicePanic(objects[i].hash))
    decreases |objects|
  {
    if |objects| > 0 && |objects[0].hash| >= 2 {
      var fs1 := GoUtil.Download(fs, web, AssetURL(objects[0].hash), AssetPath(assetsDir, objects[0].hash)).1;
      FetchAssetsPanics(fs1, web, assetsDir, objects[1..]);
      assert forall i :: 1 <= i < |objects| ==> objects[i] == objects[1..][i - 1];
      if exists i :: 0 <= i < |objects| && |objects[i].hash| < 2 {
        var i :| 0 <= i < |objects| && |objects[i].hash| < 2;
        assert objects[1..][i - 1] == objects[i];
      }
    }
  }

  /** The object loop deletes nothing: a file present before is present
      after. */
  lemma {:induction false} FetchAssetsKeepsFiles(fs: Fs, web: Client, assetsDir: string, objects: seq<AssetObject>, p: string)
    requires p in fs.files
    ensures p in FetchAssets(fs, web, assetsDir, objects).1.files
    decreases |objects|
  {
    if |objects| > 0 && |objects[0].hash| >= 2 {
      var fs1 := GoUtil.Download(fs, web, AssetURL(objects[0].hash), AssetPath(assetsDir, objects[0].hash)).1;
      FetchAssetsKeepsFiles(fs1, web, assetsDir, objects[1..], p);
    }
  }

  /** <assets>/indexes/<id>.json */
  function IndexPath(assetsDir: string, v: VersionMeta): string
  {
    PathJoin(PathJoin(assetsDir, "indexes"), v.assetIndex.id + ".json")
  }

  /** What `downloadAssetIndex` returns and leaves on disk: without a cached
      file the index is fetched and written back (marshalled, mode 0644);
      with one, the file is decoded and a decode error is returned rather
      than refetching. */
  function IndexOutcome(fs: Fs, assetsDir: string, v: VersionMeta, fetch: string -> Result<AssetIndex>,
                        marshal: AssetIndex -> Bytes, unmarshal: Bytes -> Result<AssetIndex>): (Result<AssetIndex>, Fs)
  {
    var path := IndexPath(assetsDir, v);
    if path !in fs.files then
      var fetched := fetch(v.assetIndex.url);
      if fetched.Err? then (Err(Wrapped("failed to fetch asset index", fetched.error)), fs)
      else (Ok(fetched.value), fs.Mkdir(Dir(path)).WritePerm(path, marshal(fetched.value), 0x1a4))
    else
      var decoded := unmarshal(fs.files[path]);
      if decoded.Err? then (Err(Wrapped("failed to read cached asset index", decoded.error)), fs)
      else (decoded, fs)
  }

  /** `downloadAssetIndex`. */
  method DownloadAssetIndex(disk: Disk, assetsDir: string, v: VersionMeta, fetch: string -> Result<AssetIndex>,
                            marshal: AssetIndex -> Bytes, unmarshal: Bytes -> Result<AssetIndex>)
    returns (r: Result<AssetIndex>)
    modifies disk
    ensures (r, disk.State()) == IndexOutcome(old(disk.State()), assetsDir, v, fetch, marshal, unmarshal)
  {
    var path := IndexPath(assetsDir, v);
    var data := disk.Read(path);
    if data.Err? {
      var assetIndex := fetch(v.assetIndex.url);
      if assetIndex.Err? {
        return Err(Wrapped("failed to fetch asset index", assetIndex.error));
      }
      var bytes := marshal(assetIndex.value);
      disk.MkdirAll(Dir(path));
      disk.WriteFilePerm(path, bytes, 0x1a4);
      return Ok(assetIndex.value);
    }
    var assetIndex := unmarshal(data.value);
    if assetIndex.Err? {
      return Err(Wrapped("failed to read cached asset index", assetIndex.error));
    }
    return assetIndex;
  }

  /** The index written after a fetch is the one later calls read: when the
      codec round-trips, a second call returns the same index without
      fetching and changes nothing. */
  lemma IndexCacheRoundTrip(fs: Fs, assetsDir: string, v: VersionMeta, fetch: string -> Result<AssetIndex>,
                            fetch2: string -> Result<AssetIndex>,
                            marshal: AssetIndex -> Bytes, unmarshal: Bytes -> Result<AssetIndex>)
    requires IndexPath(assetsDir, v) !in fs.files && fetch(v.assetIndex.url).Ok?
    requires unmarshal(marshal(fetch(v.assetIndex.url).value)) == Ok(fetch(v.assetIndex.url).value)
    ensures var (r, fs1) := IndexOutcome(fs, assetsDir, v, fetch, marshal, unmarshal);
      && r == Ok(fetch(v.assetIndex.url).value)
      && IndexOutcome(fs1, assetsDir, v, fetch2, marshal, unmarshal) == (r, fs1)
  {
  }

  /** A cached file is never refetched, even when it does not decode. */
  lemma CachedIndexNotRefetched(fs: Fs, assetsDir: string, v: VersionMeta, fetch: string -> Result<AssetIndex>,
                                fetch2: string -> Result<AssetIndex>,
                                marshal: AssetIndex -> Bytes, unmarshal: Bytes -> Result<AssetIndex>)
    requires IndexPath(assetsDir, v) in fs.files
    ensures IndexOutcome(fs, assetsDir, v, fetch, marshal, unmarshal) == IndexOutcome(fs, assetsDir, v, fetch2, marshal, unmarshal)
    ensures IndexOutcome(fs, assetsDir, v, fetch, marshal, unmarshal).1 == fs
    ensures IndexOutcome(fs, assetsDir, v, fetch, marshal, unmarshal).0.Err?
      <==> unmarshal(fs.files[IndexPath(assetsDir, v)]).Err?
  {
  }
}
