// The Deno generation's Mojang API helpers (api.ts, api/game.ts,
// api/mojang.ts): the version manifest, version data looked up by id, the
// asset index, and the existence-gated library and asset downloads.
module DenoApi {
  import opened Wrappers
  import opened FileSystem
  import opened Web
  import opened DenoFs
  import opened Manifest
  import Collections
  import MetaMinecraft

  const ManifestURL := "https://launchermeta.mojang.com/mc/game/version_manifest.json"
  const ResourcesURL := "https://resources.download.minecraft.net/"

  /** `library.downloads.artifact` with the library's name. */
  datatype Library = Library(name: string, path: string, url: string)

  /** `versionData.assetIndex`: the index id and where to fetch it. */
  datatype AssetIndexRef = AssetIndexRef(id: string, url: string)

  /** `(await fetch(url)).json()`: a failed request or a body that does not
      parse throws; the status is never looked at. */
  function FetchJSON<T>(web: Client, url: string, decode: Bytes -> Result<T>): Result<T>
  {
    match web(url)
    case Err(e) => Err(e)
    case Ok(resp) => decode(resp.body)
  }

  function GetVersionManifest(web: Client, decode: Bytes -> Result<VersionManifest>): Result<VersionManifest>
  {
    FetchJSON(web, ManifestURL, decode)
  }

  /** `if (!version) version = data.latest.release`: both null and the empty
      string ask for the latest release. */
  function Requested(m: VersionManifest, version: Option<string>): (id: string)
    ensures version.None? || version == Some("") ==> id == m.latestRelease
    ensures version.Some? && version.value != "" ==> id == version.value
  {
    if version.None? || version.value == "" then m.latestRelease else version.value
  }

  /** The data of the first manifest entry with exactly this id, or
      "Invalid version". */
  function DataOf<T>(web: Client, m: VersionManifest, id: string, decode: Bytes -> Result<T>): (r: Result<T>)
    ensures FindVersion(m.versions, id).None? <==> r == Err("Invalid version") && forall j :: 0 <= j < |m.versions| ==> m.versions[j].id != id
    ensures FindVersion(m.versions, id).Some? ==> r == FetchJSON(web, m.versions[FindVersion(m.versions, id).value].url, decode)
  {
    match FindVersion(m.versions, id)
    case None => Err("Invalid version")
    case Some(k) => FetchJSON(web, m.versions[k].url, decode)
  }

  /** `getVersionData(version)` of api.ts and api/mojang.ts: the manifest,
      then the entry of the requested id (the latest release when none is
      given), then its data. */
  function GetVersionData<T>(web: Client, decodeManifest: Bytes -> Result<VersionManifest>, decode: Bytes -> Result<T>, version: Option<string>): (r: Result<T>)
    ensures GetVersionManifest(web, decodeManifest).Err? ==> r == Err(GetVersionManifest(web, decodeManifest).error)
    ensures GetVersionManifest(web, decodeManifest).Ok? ==>
      var m := GetVersionManifest(web, decodeManifest).value;
      r == DataOf(web, m, Requested(m, version), decode)
  {
    match GetVersionManifest(web, decodeManifest)
    case Err(e) => Err(e)
    case Ok(m) => DataOf(web, m, Requested(m, version), decode)
  }

  /** `getVersionData(version)` of api/game.ts: the id is looked up as given,
      with no default. */
  function GetVersionDataExact<T>(web: Client, decodeManifest: Bytes -> Result<VersionManifest>, decode: Bytes -> Result<T>, version: string): (r: Result<T>)
    ensures GetVersionManifest(web, decodeManifest).Ok? ==>
      r == DataOf(web, GetVersionManifest(web, decodeManifest).value, version, decode)
  {
    match GetVersionManifest(web, decodeManifest)
    case Err(e) => Err(e)
    case Ok(m) => DataOf(web, m, version, decode)
  }

  /** Null, the empty string and the latest release's own id all fetch the
      same data; any other id behaves as in the api/game.ts lookup. */
  lemma LatestWhenUnset<T>(web: Client, decodeManifest: Bytes -> Result<VersionManifest>, decode: Bytes -> Result<T>, v: string)
    ensures GetVersionData(web, decodeManifest, decode, None) == GetVersionData(web, decodeManifest, decode, Some(""))
    ensures GetVersionManifest(web, decodeManifest).Ok? ==>
      GetVersionData(web, decodeManifest, decode, None)
        == GetVersionDataExact(web, decodeManifest, decode, GetVersionManifest(web, decodeManifest).value.latestRelease)
    ensures v != "" ==> GetVersionData(web, decodeManifest, decode, Some(v)) == GetVersionDataExact(web, decodeManifest, decode, v)
  {
  }

  /** The api/game.ts lookup has no default: the empty id is invalid unless
      some entry's id is empty. */
  lemma ExactHasNoDefault<T>(web: Client, decodeManifest: Bytes -> Result<VersionManifest>, decode: Bytes -> Result<T>)
    requires GetVersionManifest(web, decodeManifest).Ok?
    requires forall e :: e in GetVersionManifest(web, decodeManifest).value.versions ==> e.id != ""
    ensures GetVersionDataExact(web, decodeManifest, decode, "") == Err("Invalid version")
  {
    var m := GetVersionManifest(web, decodeManifest).value;
    assert forall j :: 0 <= j < |m.versions| ==> m.versions[j] in m.versions;
  }

  /** `getAssetData(versionData)` of api/game.ts. */
  function GetAssetData<T>(web: Client, index: AssetIndexRef, decode: Bytes -> Result<T>): Result<T>
  {
    FetchJSON(web, index.url, decode)
  }

  /** `filterVersions(filter)`: the manifest entries of one type. */
  function FilterVersions(web: Client, decodeManifest: Bytes -> Result<VersionManifest>, filter: string): (r: Result<seq<ManifestEntry>>)
    ensures r.Ok? <==> GetVersionManifest(web, decodeManifest).Ok?
  {
    match GetVersionManifest(web, decodeManifest)
    case Err(e) => Err(e)
    case Ok(m) => Ok(Collections.Filter(m.versions, (e: ManifestEntry) => e.versionType == filter))
  }

  /** `filterVersions` keeps exactly the entries of the requested type. */
  lemma FilterVersionsMembers(web: Client, decodeManifest: Bytes -> Result<VersionManifest>, filter: string)
    requires GetVersionManifest(web, decodeManifest).Ok?
    ensures forall e :: e in FilterVersions(web, decodeManifest, filter).value <==>
      e in GetVersionManifest(web, decodeManifest).value.versions && e.versionType == filter
  {
    Collections.FilterMembers(GetVersionManifest(web, decodeManifest).value.versions, (e: ManifestEntry) => e.versionType == filter);
  }

  /** `hash.slice(0, 2)`: JavaScript clamps the end, so a short hash is
      taken whole. */
  function Prefix2(hash: string): (p: string)
    ensures |p| == if |hash| < 2 then |hash| else 2
    ensures p <= hash
  {
    if |hash| < 2 then hash else hash[..2]
  }

  /** `<first two characters>/<hash>`. */
  function ObjectPath(hash: string): string
  {
    Prefix2(hash) + "/" + hash
  }

  /** Where an object is downloaded from: the Go generation's URL whenever
      the hash has two characters, and a URL rather than a panic otherwise. */
  lemma ObjectURLAgrees(hash: string)
    ensures |hash| >= 2 ==> ResourcesURL + ObjectPath(hash) == MetaMinecraft.AssetURL(hash)
    ensures |hash| < 2 ==> ObjectPath(hash) == hash + "/" + hash
  {
    if |hash| >= 2 {
      assert ResourcesURL == MetaMinecraft.MinecraftResourcesURL + "/";
    }
  }

  /** `download(url, dest)` of api.ts, into a path relative to the working
      directory; it always overwrites. */
  method DownloadLibrary(disk: Disk, web: Client, lib: Library) returns (err: Option<string>)
    modifies disk
    ensures (err, disk.State()) == Downloaded(old(disk.State()), web, lib.url, "libraries/" + lib.path)
  {
    err := Download(disk, web, lib.url, "libraries/" + lib.path);
  }

  /** `downloadAsset(asset)` of api.ts: always overwrites. */
  method DownloadAsset(disk: Disk, web: Client, asset: MetaMinecraft.AssetObject) returns (err: Option<string>)
    modifies disk
    ensures (err, disk.State()) == Downloaded(old(disk.State()), web, ResourcesURL + ObjectPath(asset.hash), "assets/objects/" + ObjectPath(asset.hash))
  {
    err := Download(disk, web, ResourcesURL + ObjectPath(asset.hash), "assets/objects/" + ObjectPath(asset.hash));
  }

  /** Something, a file or a directory, exists at `path`. */
  predicate Present(fs: Fs, path: string)
  {
    path in fs.files || path in fs.dirs
  }

  /** Every file of `fs` is still in `after` with the same content, and no
      directory is gone. */
  predicate Keeps(fs: Fs, after: Fs)
  {
    (forall q :: q in fs.files ==> q in after.files && after.files[q] == fs.files[q])
    && fs.dirs <= after.dirs
  }

  /** A download that happens only when nothing exists at `path` yet. */
  function Fetched(fs: Fs, web: Client, url: string, path: string): (r: (Option<string>, Fs))
    ensures Present(fs, path) ==> r == (None, fs)
    ensures r.0.None? ==> Present(r.1, path)
    ensures Keeps(fs, r.1)
  {
    if path in fs.files || path in fs.dirs then (None, fs) else Downloaded(fs, web, url, path)
  }

  /** A gated download that succeeded is not repeated: a second one changes
      nothing. */
  lemma FetchedOnce(fs: Fs, web: Client, url: string, path: string)
    requires Fetched(fs, web, url, path).0.None?
    ensures Fetched(Fetched(fs, web, url, path).1, web, url, path) == (None, Fetched(fs, web, url, path).1)
  {
  }

  /** One gated download: where from and where to. */
  datatype Fetch = Fetch(url: string, path: string)

  function Paths(items: seq<Fetch>): (r: seq<string>)
    ensures |r| == |items|
    ensures forall i :: 0 <= i < |items| ==> r[i] == items[i].path
  {
    seq(|items|, i requires 0 <= i < |items| => items[i].path)
  }

  /** A loop of gated downloads in order, stopping at the first failure; on
      success the destination of every item, in order. */
  function FetchAll(fs: Fs, web: Client, items: seq<Fetch>): (r: (Result<seq<string>>, Fs))
    ensures r.0.Ok? ==> r.0.value == Paths(items)
    ensures r.0.Ok? ==> forall i :: 0 <= i < |items| ==> Present(r.1, items[i].path)
    ensures Keeps(fs, r.1)
    decreases |items|
  {
    if |items| == 0 then (Ok([]), fs)
    else
      var (err, fs1) := Fetched(fs, web, items[0].url, items[0].path);
      if err.Some? then (Err(err.value), fs1)
      else
        var (rest, fs2) := FetchAll(fs1, web, items[1..]);
        KeepsTrans(fs, fs1, fs2);
        if rest.Err? then (rest, fs2)
        else
          assert Present(fs2, items[0].path) by { KeepsPresent(fs1, fs2, items[0].path); }
          assert forall i :: 1 <= i < |items| ==> items[i] == items[1..][i - 1];
          (Ok([items[0].path] + rest.value), fs2)
  }

  lemma KeepsTrans(a: Fs, b: Fs, c: Fs)
    requires Keeps(a, b) && Keeps(b, c)
    ensures Keeps(a, c)
  {
  }

  lemma KeepsPresent(a: Fs, b: Fs, path: string)
    requires Keeps(a, b) && Present(a, path)
    ensures Present(b, path)
  {
  }

  /** The accumulated paths put in front of a loop's remaining outcome. */
  function Prepend(paths: seq<string>, r: (Result<seq<string>>, Fs)): (Result<seq<string>>, Fs)
  {
    if r.0.Err? then r else (Ok(paths + r.0.value), r.1)
  }

  /** One turn of the download loop: a successful gated download moves its
      destination from the remaining outcome to the accumulated paths. */
  lemma PrependStep(paths: seq<string>, fs: Fs, web: Client, items: seq<Fetch>, i: nat)
    requires i < |items|
    requires Fetched(fs, web, items[i].url, items[i].path).0.None?
    ensures Prepend(paths, FetchAll(fs, web, items[i..]))
      == Prepend(paths + [items[i].path], FetchAll(Fetched(fs, web, items[i].url, items[i].path).1, web, items[i + 1..]))
  {
    assert items[i..][1..] == items[i + 1..];
    var tail := FetchAll(Fetched(fs, web, items[i].url, items[i].path).1, web, items[i + 1..]);
    if tail.0.Ok? {
      assert paths + ([items[i].path] + tail.0.value) == (paths + [items[i].path]) + tail.0.value;
    }
  }

  /** One gated download: nothing is fetched when the destination exists. */
  method FetchOne(disk: Disk, web: Client, url: string, path: string) returns (err: Option<string>)
    modifies disk
    ensures (err, disk.State()) == Fetched(old(disk.State()), web, url, path)
  {
    err := None;
    if !Exists(disk, path) {
      err := Download(disk, web, url, path);
    }
  }

  /** The download loop of launcher.ts: each destination is fetched only
      when absent and collected whether or not it was downloaded. */
  method FetchEach(disk: Disk, web: Client, items: seq<Fetch>) returns (r: Result<seq<string>>)
    modifies disk
    ensures (r, disk.State()) == FetchAll(old(disk.State()), web, items)
  {
    var paths: seq<string> := [];
    var i := 0;
    assert items[0..] == items;
    var all := FetchAll(disk.State(), web, items);
    if all.0.Ok? {
      assert [] + all.0.value == all.0.value;
    }
    while i < |items|
      invariant 0 <= i <= |items|
      invariant FetchAll(old(disk.State()), web, items) == Prepend(paths, FetchAll(disk.State(), web, items[i..]))
      decreases |items| - i
    {
      var cur := disk.State();
      var err := FetchOne(disk, web, items[i].url, items[i].path);
      if err.Some? {
        assert items[i..][0] == items[i];
        return Err(err.value);
      }
      PrependStep(paths, cur, web, items, i);
      paths := paths + [items[i].path];
      i := i + 1;
    }
    assert paths + [] == paths;
    r := Ok(paths);
  }

  function LibraryFile(lib: Library, rootDir: string): string
  {
    rootDir + "/libraries/" + lib.path
  }

  /** `fetchLibrary(library, rootDir)`: the local path, downloading only when
      nothing is there yet. */
  method FetchLibrary(disk: Disk, web: Client, lib: Library, rootDir: string) returns (r: Result<string>)
    modifies disk
    ensures var (err, fs) := Fetched(old(disk.State()), web, lib.url, LibraryFile(lib, rootDir));
      disk.State() == fs && r == (if err.Some? then Err(err.value) else Ok(LibraryFile(lib, rootDir)))
  {
    var path := LibraryFile(lib, rootDir);
    var err := FetchOne(disk, web, lib.url, path);
    if err.Some? {
      return Err(err.value);
    }
    return Ok(path);
  }

  function AssetFile(asset: MetaMinecraft.AssetObject, rootDir: string): string
  {
    rootDir + "/assets/objects/" + ObjectPath(asset.hash)
  }

  /** `fetchAsset(asset, rootDir)`: the object is downloaded only when
      nothing is there yet. */
  method FetchAsset(disk: Disk, web: Client, asset: MetaMinecraft.AssetObject, rootDir: string) returns (err: Option<string>)
    modifies disk
    ensures (err, disk.State()) == Fetched(old(disk.State()), web, ResourcesURL + ObjectPath(asset.hash), AssetFile(asset, rootDir))
  {
    var path := AssetFile(asset, rootDir);
    if !Exists(disk, path) {
      err := Download(disk, web, ResourcesURL + ObjectPath(asset.hash), path);
    } else {
      err := None;
    }
  }

  function IndexFile(index: AssetIndexRef, rootDir: string): string
  {
    rootDir + "/assets/indexes/" + index.id + ".json"
  }

  /** The outcome of `getAndSaveAssetData(assetIndex, rootDir)`: the index is
      always fetched and its objects returned; it is saved only when no file
      is there yet. */
  function SavedAssetData<T>(fs: Fs, web: Client, index: AssetIndexRef, rootDir: string, decode: Bytes -> Result<T>, stringify: T -> Bytes, objects: T -> seq<MetaMinecraft.AssetObject>): (r: (Result<seq<MetaMinecraft.AssetObject>>, Fs))
    ensures GetAssetData(web, index, decode).Err? ==> r == (Err(GetAssetData(web, index, decode).error), fs)
    ensures GetAssetData(web, index, decode).Ok? ==>
      && r.0 == Ok(objects(GetAssetData(web, index, decode).value))
      && (IndexFile(index, rootDir) in r.1.files || IndexFile(index, rootDir) in fs.dirs)
      && (IndexFile(index, rootDir) in fs.files ==> r.1 == fs)
  {
    match GetAssetData(web, index, decode)
    case Err(e) => (Err(e), fs)
    case Ok(data) =>
      var path := IndexFile(index, rootDir);
      if path in fs.files || path in fs.dirs then (Ok(objects(data)), fs)
      else (Ok(objects(data)), Saved(fs, path, stringify(data)))
  }

  method GetAndSaveAssetData<T>(disk: Disk, web: Client, index: AssetIndexRef, rootDir: string, decode: Bytes -> Result<T>, stringify: T -> Bytes, objects: T -> seq<MetaMinecraft.AssetObject>)
    returns (r: Result<seq<MetaMinecraft.AssetObject>>)
    modifies disk
    ensures (r, disk.State()) == SavedAssetData(old(disk.State()), web, index, rootDir, decode, stringify, objects)
  {
    var data := FetchJSON(web, index.url, decode);
    if data.Err? {
      return Err(data.error);
    }
    var path := IndexFile(index, rootDir);
    if !Exists(disk, path) {
      SaveFile(disk, stringify(data.value), path);
    }
    return Ok(objects(data.value));
  }

  /** A saved index is never refreshed: a later call returns the objects
      just fetched but leaves the file of an earlier index in place. */
  lemma StaleIndexKept<T>(fs: Fs, web: Client, index: AssetIndexRef, rootDir: string, decode: Bytes -> Result<T>, stringify: T -> Bytes, objects: T -> seq<MetaMinecraft.AssetObject>)
    requires IndexFile(index, rootDir) in fs.files
    requires GetAssetData(web, index, decode).Ok?
    ensures SavedAssetData(fs, web, index, rootDir, decode, stringify, objects).1.files[IndexFile(index, rootDir)] == fs.files[IndexFile(index, rootDir)]
    ensures SavedAssetData(fs, web, index, rootDir, decode, stringify, objects).0 == Ok(objects(GetAssetData(web, index, decode).value))
  {
  }
}
