// Launching a version in the second Go generation
// (internal/launcher/launcher.go): libraries filtered on their first rule's
// OS and downloaded when absent, version and loader metadata read from the
// version directory when cached there, assets fetched with their errors
// ignored, the client jar, and `java` started in the version directory.
// `util.GetInstanceDir` and `api.GetLoaderMeta` are parameters, as are the
// network, the JSON codecs and the process.
module InternalLauncher {
  import opened Wrappers
  import opened Process
  import opened Strs
  import opened FileSystem
  import opened Web
  import opened MetaMinecraft
  import opened InternalApi
  import Manifest
  import GoUtil
  import PkgApi

  datatype LaunchOptions = LaunchOptions(modLoader: string, quickPlayServer: string)

  /** One library download: the URL and the destination. */
  datatype Item = Item(url: string, path: string)

  /** A library is skipped when its first rule names an OS ("osx" read as
      "darwin") other than the host; the rule's action is not looked at. */
  predicate Skipped(lib: GenLibrary, goos: string)
  {
    |lib.rules| > 0 && OsName(lib.rules[0].osName) != "" && OsName(lib.rules[0].osName) != goos
  }

  /** <root>/libraries/<path> */
  function LibraryPath(rootDir: string, path: string): string
  {
    PathJoin(PathJoin(rootDir, "libraries"), path)
  }

  /** The download of a library: a loader library's URL is its repository
      URL followed directly by the Maven path (no separator); any other
      library uses its artifact. A loader library whose name has fewer than
      three fields is the panic of `GetPathFromMaven`. */
  function LibraryItem(lib: GenLibrary, rootDir: string): (r: Result<Item>)
    ensures lib.url == "" ==> r == Ok(Item(lib.artifactURL, LibraryPath(rootDir, lib.artifactPath)))
    ensures lib.url != "" ==> (r.Ok? <==> GoUtil.MavenPath(lib.name).Ok?)
    ensures lib.url != "" && r.Ok? ==>
      var p := GoUtil.MavenPath(lib.name).value;
      r.value == Item(lib.url + p, LibraryPath(rootDir, p))
  {
    if lib.url != "" then
      match GoUtil.MavenPath(lib.name)
      case Ok(p) => Ok(Item(lib.url + p, LibraryPath(rootDir, p)))
      case Err(e) => Err(e)
    else Ok(Item(lib.artifactURL, LibraryPath(rootDir, lib.artifactPath)))
  }

  /** The libraries that are not skipped, in order. */
  function Kept(libs: seq<GenLibrary>, goos: string): (r: seq<GenLibrary>)
    ensures forall lib :: lib in r <==> lib in libs && !Skipped(lib, goos)
    decreases |libs|
  {
    if |libs| == 0 then []
    else if Skipped(libs[0], goos) then Kept(libs[1..], goos)
    else [libs[0]] + Kept(libs[1..], goos)
  }

  /** `getLibraries`: the paths of the libraries downloaded so far, the
      error that stopped the loop, and the disk. */
  function GetLibraries(fs: Fs, web: Client, libs: seq<GenLibrary>, rootDir: string, goos: string)
    : (seq<string>, Option<string>, Fs)
    decreases |libs|
  {
    if |libs| == 0 then ([], None, fs)
    else if Skipped(libs[0], goos) then GetLibraries(fs, web, libs[1..], rootDir, goos)
    else
      match LibraryItem(libs[0], rootDir)
      case Err(e) => ([], Some(e), fs)
      case Ok(item) =>
        var (err, fs1) := GoUtil.Download(fs, web, item.url, item.path);
        if err.Some? then ([], Some("error while downloading " + libs[0].name + ": " + err.value), fs1)
        else
          var (paths, err2, fs2) := GetLibraries(fs1, web, libs[1..], rootDir, goos);
          ([item.path] + paths, err2, fs2)
  }

  method DownloadLibraries(disk: Disk, web: Client, libs: seq<GenLibrary>, rootDir: string, goos: string)
    returns (paths: seq<string>, err: Option<string>)
    modifies disk
    ensures (paths, err, disk.State()) == GetLibraries(old(disk.State()), web, libs, rootDir, goos)
  {
    paths := [];
    ghost var fs0 := disk.State();
    assert libs[0..] == libs;
    assert [] + GetLibraries(fs0, web, libs, rootDir, goos).0 == GetLibraries(fs0, web, libs, rootDir, goos).0;
    for i := 0 to |libs|
      invariant var (ps, e, fs) := GetLibraries(disk.State(), web, libs[i..], rootDir, goos);
        GetLibraries(fs0, web, libs, rootDir, goos) == (paths + ps, e, fs)
    {
      assert libs[i..][1..] == libs[i + 1..];
      var library := libs[i];
      if Skipped(library, goos) {
        continue;
      }
      var item := LibraryItem(library, rootDir);
      if item.Err? {
        assert paths + [] == paths;
        return paths, Some(item.error);
      }
      var e := GoUtil.DownloadFile(disk, web, item.value.url, item.value.path);
      if e.Some? {
        assert paths + [] == paths;
        return paths, Some("error while downloading " + library.name + ": " + e.value);
      }
      ghost var rest := GetLibraries(disk.State(), web, libs[i + 1..], rootDir, goos);
      assert paths + ([item.value.path] + rest.0) == paths + [item.value.path] + rest.0;
      paths := paths + [item.value.path];
    }
    assert paths + [] == paths;
    return paths, None;
  }

  /** The loop keeps the input order: the paths are those of the leading
      libraries that are not skipped, all of them exactly when nothing
      failed. */
  lemma {:induction false} GetLibrariesPaths(fs: Fs, web: Client, libs: seq<GenLibrary>, rootDir: string, goos: string)
    ensures var (paths, err, _) := GetLibraries(fs, web, libs, rootDir, goos);
      var kept := Kept(libs, goos);
      && |paths| <= |kept|
      && (forall i :: 0 <= i < |paths| ==> LibraryItem(kept[i], rootDir).Ok? && paths[i] == LibraryItem(kept[i], rootDir).value.path)
      && (err.None? <==> |paths| == |kept|)
    decreases |libs|
  {
    if |libs| > 0 {
      if Skipped(libs[0], goos) {
        GetLibrariesPaths(fs, web, libs[1..], rootDir, goos);
      } else if LibraryItem(libs[0], rootDir).Ok? {
        var item := LibraryItem(libs[0], rootDir).value;
        var fs1 := GoUtil.Download(fs, web, item.url, item.path).1;
        GetLibrariesPaths(fs1, web, libs[1..], rootDir, goos);
      }
    }
  }

  /** The loop only ever adds files: every file that was there is left as
      it was. */
  lemma {:induction false} GetLibrariesKeepsFiles(fs: Fs, web: Client, libs: seq<GenLibrary>, rootDir: string, goos: string)
    ensures var fs1 := GetLibraries(fs, web, libs, rootDir, goos).2;
      forall p :: p in fs.files ==> p in fs1.files && fs1.files[p] == fs.files[p]
    decreases |libs|
  {
    if |libs| > 0 {
      if Skipped(libs[0], goos) {
        GetLibrariesKeepsFiles(fs, web, libs[1..], rootDir, goos);
      } else if LibraryItem(libs[0], rootDir).Ok? {
        var item := LibraryItem(libs[0], rootDir).value;
        GoUtil.DownloadKeepsFiles(fs, web, item.url, item.path);
        var fs1 := GoUtil.Download(fs, web, item.url, item.path).1;
        GetLibrariesKeepsFiles(fs1, web, libs[1..], rootDir, goos);
      }
    }
  }

  /** Only the OS of the first rule decides: a rule that disallows the host
      does not skip the library, and later rules are never read. */
  lemma RuleActionIgnored(lib: GenLibrary, goos: string, action: string, later: seq<Rule>)
    requires |lib.rules| > 0
    ensures Skipped(lib, goos)
        == Skipped(lib.(rules := [Rule(action, lib.rules[0].osName)] + later), goos)
  {
  }

  // ---------------------------------------------------------------------
  // Assets

  /** <root>/assets/indexes/<id>.json */
  function IndexPath(rootDir: string, id: string): string
  {
    PathJoin(PathJoin(PathJoin(rootDir, "assets"), "indexes"), id + ".json")
  }

  /** What `getAssets` ends with: success, its error, or the panic of a hash
      shorter than two characters. */
  datatype AssetsStatus = Done | Failed(error: string) | Panicked(message: string)

  /** The asset index: the cached file when it can be read (a file that does
      not decode is an empty index), otherwise the one at the index URL. */
  function AssetIndex(fs: Fs, web: Client, meta: GenMeta, rootDir: string,
                      decodeIndex: Bytes -> Result<seq<AssetObject>>): (r: Result<seq<AssetObject>>)
    ensures IndexPath(rootDir, meta.assetIndexID) in fs.files ==> r.Ok?
    ensures IndexPath(rootDir, meta.assetIndexID) !in fs.files ==>
      (r.Ok? <==> GoUtil.CheckResponse(web(meta.assetIndexURL), "GET", meta.assetIndexURL).None?)
  {
    var indexPath := IndexPath(rootDir, meta.assetIndexID);
    if indexPath in fs.files then
      var decoded := decodeIndex(fs.files[indexPath]);
      Ok(if decoded.Ok? then decoded.value else [])
    else
      var (err, index) := GoUtil.GetJSON(web, meta.assetIndexURL, decodeIndex, []);
      if err.Some? then Err(err.value) else Ok(index)
  }

  /** The object loop: download errors are ignored. */
  function GetObjects(fs: Fs, web: Client, rootDir: string, objects: seq<AssetObject>): (Option<string>, Fs)
    decreases |objects|
  {
    if |objects| == 0 then (None, fs)
    else
      var hash := objects[0].hash;
      if |hash| < 2 then (Some(SlicePanic(hash)), fs)
      else GetObjects(GoUtil.Download(fs, web, AssetURL(hash), AssetPath(PathJoin(rootDir, "assets"), hash)).1,
                      web, rootDir, objects[1..])
  }

  /** `getAssets`: the index, its objects in the order the map is visited,
      then the index file downloaded when it is not on disk. */
  function GetAssets(fs: Fs, web: Client, meta: GenMeta, rootDir: string,
                     decodeIndex: Bytes -> Result<seq<AssetObject>>): (AssetsStatus, Fs)
  {
    var index := AssetIndex(fs, web, meta, rootDir, decodeIndex);
    if index.Err? then (Failed("error while getting asset index: " + index.error), fs)
    else
      var (panic, fs1) := GetObjects(fs, web, rootDir, index.value);
      if panic.Some? then (Panicked(panic.value), fs1)
      else (Done, GoUtil.Download(fs1, web, meta.assetIndexURL, IndexPath(rootDir, meta.assetIndexID)).1)
  }

  /** The object loop of `getAssets`: each object fetched in turn, errors
      ignored, stopping at a hash too short to slice. */
  method DownloadObjects(disk: Disk, web: Client, rootDir: string, objects: seq<AssetObject>) returns (panic: Option<string>)
    modifies disk
    ensures (panic, disk.State()) == GetObjects(old(disk.State()), web, rootDir, objects)
  {
    assert objects[0..] == objects;
    for i := 0 to |objects|
      invariant GetObjects(old(disk.State()), web, rootDir, objects) == GetObjects(disk.State(), web, rootDir, objects[i..])
    {
      assert objects[i..][1..] == objects[i + 1..];
      var hash := objects[i].hash;
      if |hash| < 2 {
        return Some(SlicePanic(hash));
      }
      var _ := GoUtil.DownloadFile(disk, web, AssetURL(hash), AssetPath(PathJoin(rootDir, "assets"), hash));
    }
    return None;
  }

  method DownloadAssets(disk: Disk, web: Client, meta: GenMeta, rootDir: string,
                        decodeIndex: Bytes -> Result<seq<AssetObject>>) returns (status: AssetsStatus)
    modifies disk
    ensures (status, disk.State()) == GetAssets(old(disk.State()), web, meta, rootDir, decodeIndex)
  {
    var indexPath := IndexPath(rootDir, meta.assetIndexID);
    var objects: seq<AssetObject>;
    var data := disk.Read(indexPath);
    if data.Ok? {
      var decoded := decodeIndex(data.value);
      objects := if decoded.Ok? then decoded.value else [];
    } else {
      var fetched := GoUtil.GetJSON(web, meta.assetIndexURL, decodeIndex, []);
      if fetched.0.Some? {
        return Failed("error while getting asset index: " + fetched.0.value);
      }
      objects := fetched.1;
    }
    var panic := DownloadObjects(disk, web, rootDir, objects);
    if panic.Some? {
      return Panicked(panic.value);
    }
    var _ := GoUtil.DownloadFile(disk, web, meta.assetIndexURL, indexPath);
    return Done;
  }

  /** Asset downloads never fail `getAssets`: with the index in hand the only
      outcome other than success is the panic on a short hash, which comes
      exactly when there is one. */
  lemma {:induction false} GetObjectsOnlyPanics(fs: Fs, web: Client, rootDir: string, objects: seq<AssetObject>)
    ensures var (err, _) := GetObjects(fs, web, rootDir, objects);
      err.None? <==> WellFormedHashes(objects)
    decreases |objects|
  {
    if |objects| > 0 && |objects[0].hash| >= 2 {
      var hash := objects[0].hash;
      var fs1 := GoUtil.Download(fs, web, AssetURL(hash), AssetPath(PathJoin(rootDir, "assets"), hash)).1;
      GetObjectsOnlyPanics(fs1, web, rootDir, objects[1..]);
      assert forall k :: 0 <= k < |objects[1..]| ==> objects[1..][k] == objects[k + 1];
    }
  }

  /** Objects are only added: every file already there is left as it was. */
  lemma {:induction false} GetObjectsKeepsFiles(fs: Fs, web: Client, rootDir: string, objects: seq<AssetObject>)
    ensures var fs1 := GetObjects(fs, web, rootDir, objects).1;
      forall p :: p in fs.files ==> p in fs1.files && fs1.files[p] == fs.files[p]
    decreases |objects|
  {
    if |objects| > 0 && |objects[0].hash| >= 2 {
      var hash := objects[0].hash;
      GoUtil.DownloadKeepsFiles(fs, web, AssetURL(hash), AssetPath(PathJoin(rootDir, "assets"), hash));
      var fs1 := GoUtil.Download(fs, web, AssetURL(hash), AssetPath(PathJoin(rootDir, "assets"), hash)).1;
      GetObjectsKeepsFiles(fs1, web, rootDir, objects[1..]);
    }
  }

  /** A cached index is never fetched again nor rewritten: the outcome does
      not depend on what the index URL answers, and the index file is left
      as it was. */
  lemma CachedIndexKept(fs: Fs, web: Client, meta: GenMeta, rootDir: string,
                        decodeIndex: Bytes -> Result<seq<AssetObject>>)
    requires IndexPath(rootDir, meta.assetIndexID) in fs.files
    ensures var (status, fs1) := GetAssets(fs, web, meta, rootDir, decodeIndex);
      var indexPath := IndexPath(rootDir, meta.assetIndexID);
      && !status.Failed?
      && indexPath in fs1.files && fs1.files[indexPath] == fs.files[indexPath]
  {
    var index := AssetIndex(fs, web, meta, rootDir, decodeIndex).value;
    GetObjectsKeepsFiles(fs, web, rootDir, index);
    var fs1 := GetObjects(fs, web, rootDir, index).1;
    GoUtil.DownloadKeepsFiles(fs1, web, meta.assetIndexURL, IndexPath(rootDir, meta.assetIndexID));
  }

  // ---------------------------------------------------------------------
  // Launch

  /** The Fabric/Quilt metadata service of a loader name, if it is one. */
  function LoaderPrefix(modLoader: string): (r: Option<string>)
    ensures r.Some? <==> modLoader == "fabric" || modLoader == "quilt"
  {
    if modLoader == "fabric" then Some(FabricURLPrefix)
    else if modLoader == "quilt" then Some(QuiltURLPrefix)
    else None
  }

  const FabricURLPrefix := "https://meta.fabricmc.net/v2/versions/loader"
  const QuiltURLPrefix := "https://meta.quiltmc.org/v3/versions/loader"

  /** Permission bits of the loader metadata cache file. */
  const LoaderCacheMode: nat := 0x1a4   // 0644

  /** What `Launch` needs besides the disk: the network, the directory of a
      version, the loader metadata lookup (prefix, game version), the JSON
      codecs, and what waiting for the started process reports. */
  datatype Env = Env(web: Client,
                     instanceDir: (string, string) -> string,
                     loaderMeta: (string, string) -> Result<GenFabricMeta>,
                     decodeManifest: Bytes -> Result<Manifest.VersionManifest>,
                     decodeMeta: Bytes -> Result<GenMeta>,
                     decodeLoader: Bytes -> Result<GenFabricMeta>,
                     encodeLoader: GenFabricMeta -> Bytes,
                     decodeIndex: Bytes -> Result<seq<AssetObject>>,
                     run: Runner)

  /** The version metadata and the version it names: read from
      <versionDir>/<version>.json when that file exists (a file that does
      not decode is the zero value) and the version kept; otherwise fetched,
      and the version becomes the fetched id. The fetched metadata is not
      written to the cache. */
  function VersionMeta(fs: Fs, versionDir: string, version: string, env: Env): (r: Result<(GenMeta, string)>)
    ensures PathJoin(versionDir, version + ".json") in fs.files ==> r.Ok? && r.value.1 == version
    ensures PathJoin(versionDir, version + ".json") !in fs.files ==>
      && (r.Ok? <==> GetVersionMeta(env.web, version, env.decodeManifest, env.decodeMeta).Ok?)
      && (r.Ok? ==> r.value == (GetVersionMeta(env.web, version, env.decodeManifest, env.decodeMeta).value,
                                GetVersionMeta(env.web, version, env.decodeManifest, env.decodeMeta).value.id))
  {
    var metaPath := PathJoin(versionDir, version + ".json");
    if metaPath in fs.files then
      var decoded := env.decodeMeta(fs.files[metaPath]);
      Ok((if decoded.Ok? then decoded.value else InternalApi.ZeroMeta, version))
    else
      match GetVersionMeta(env.web, version, env.decodeManifest, env.decodeMeta)
      case Err(e) => Err(e)
      case Ok(meta) => Ok((meta, meta.id))
  }

  /** The loader metadata of a valid loader: read from
      <versionDir>/<loader>.json when that file exists, otherwise looked up
      for the version and written there (mode 0644). */
  function LoaderMeta(fs: Fs, versionDir: string, version: string, modLoader: string, prefix: string, env: Env)
    : (r: (Result<GenFabricMeta>, Fs))
    ensures PathJoin(versionDir, modLoader + ".json") in fs.files ==> r.0.Ok? && r.1 == fs
    ensures PathJoin(versionDir, modLoader + ".json") !in fs.files ==>
      && (r.0.Ok? <==> env.loaderMeta(prefix, version).Ok?)
      && (r.0.Ok? ==> r.0.value == env.loaderMeta(prefix, version).value)
  {
    var path := PathJoin(versionDir, modLoader + ".json");
    if path in fs.files then
      var decoded := env.decodeLoader(fs.files[path]);
      (Ok(if decoded.Ok? then decoded.value else ZeroFabricMeta), fs)
    else
      match env.loaderMeta(prefix, version)
      case Err(e) => (Err(e), fs)
      case Ok(lm) => (Ok(lm), fs.WritePerm(path, env.encodeLoader(lm), LoaderCacheMode))
  }

  /** What `Launch` has before the assets: the metadata, the version (the
      fetched id when the metadata was fetched), the loader metadata when a
      loader is asked for, and the library paths. */
  datatype Installation = Installation(meta: GenMeta, version: string, loader: Option<GenFabricMeta>,
                                       paths: seq<string>)

  /** The loader part of `Launch`: nothing without a loader; an unknown
      loader name is refused. */
  function LoaderStep(fs: Fs, versionDir: string, version: string, rootDir: string, modLoader: string,
                      goos: string, env: Env): (r: (Result<Option<GenFabricMeta>>, seq<string>, Fs))
    ensures modLoader == "" ==> r == (Ok(None), [], fs)
    ensures modLoader != "" && LoaderPrefix(modLoader).None? ==> r == (Err("invalid mod loader"), [], fs)
    ensures r.0.Ok? ==> (r.0.value.Some? <==> modLoader != "")
  {
    if modLoader == "" then (Ok(None), [], fs)
    else if LoaderPrefix(modLoader).None? then (Err("invalid mod loader"), [], fs)
    else
      var (lm, fs1) := LoaderMeta(fs, versionDir, version, modLoader, LoaderPrefix(modLoader).value, env);
      if lm.Err? then (Err(lm.error), [], fs1)
      else
        var (paths, err, fs2) := GetLibraries(fs1, env.web, lm.value.libraries, rootDir, goos);
        if err.Some? then (Err("error downloading loader libraries: " + err.value), paths, fs2)
        else (Ok(Some(lm.value)), paths, fs2)
  }

  /** The first part of `Launch`: the version directory, the metadata, the
      libraries and the loader. */
  function Installed(fs: Fs, version: string, rootDir: string, modLoader: string, goos: string, env: Env)
    : (r: (Result<Installation>, Fs))
    ensures r.0.Ok? ==> (r.0.value.loader.Some? <==> modLoader != "")
  {
    var versionDir := env.instanceDir(rootDir, version);
    var fs1 := fs.Mkdir(versionDir);
    var vm := VersionMeta(fs1, versionDir, version, env);
    if vm.Err? then (Err(vm.error), fs1)
    else
      var (meta, version1) := vm.value;
      var (paths, err, fs2) := GetLibraries(fs1, env.web, meta.libraries, rootDir, goos);
      if err.Some? then (Err("error downloading libraries: " + err.value), fs2)
      else
        var (loader, loaderPaths, fs3) := LoaderStep(fs2, versionDir, version1, rootDir, modLoader, goos, env);
        if loader.Err? then (Err(loader.error), fs3)
        else (Ok(Installation(meta, version1, loader.value, paths + loaderPaths)), fs3)
  }

  /** The JVM arguments: the classpath, the macOS first-thread flag, then
      the loader's JVM arguments and main class, or the version's main
      class. */
  function JvmArgs(classPath: string, goos: string, meta: GenMeta, loader: Option<GenFabricMeta>): seq<string>
  {
    ["-cp", classPath]
    + (if goos == "darwin" then ["-XstartOnFirstThread"] else [])
    + (if loader.Some? then loader.value.jvm + [loader.value.mainClass] else [meta.mainClass])
  }

  /** The game arguments: an empty --version value, and --uuid only when
      there is one. */
  function GameArgs(versionDir: string, rootDir: string, meta: GenMeta, auth: PkgApi.AuthData): (r: seq<string>)
    ensures |r| == (if auth.uuid != "" then 14 else 12)
  {
    ["--username", auth.username, "--accessToken", auth.token, "--gameDir", versionDir,
     "--assetsDir", PathJoin(rootDir, "assets"), "--assetIndex", meta.assetIndexID, "--version", ""]
    + (if auth.uuid != "" then ["--uuid", auth.uuid] else [])
  }

  /** The error `Launch` returns, the disk it leaves, and the command it
      starts when every step before it succeeded. */
  datatype Outcome = Outcome(err: Option<string>, fs: Fs, cmd: Option<Command>)

  /** The rest of `Launch`: the assets, the client jar, then the game,
      started in the version directory. */
  function LaunchedAfter(fs: Fs, inst: Installation, versionDir: string, rootDir: string, goos: string,
                         auth: PkgApi.AuthData, env: Env): Outcome
  {
    var meta := inst.meta;
    var (status, fs1) := GetAssets(fs, env.web, meta, rootDir, env.decodeIndex);
    if status.Failed? then Outcome(Some("error downloading assets: " + status.error), fs1, None)
    else if status.Panicked? then Outcome(Some(status.message), fs1, None)
    else
      var jar := PathJoin(versionDir, inst.version + ".jar");
      var (clientErr, fs2) := GoUtil.Download(fs1, env.web, meta.clientURL, jar);
      if clientErr.Some? then Outcome(Some("error downloading client: " + clientErr.value), fs2, None)
      else
        var cmd := Command("java", JvmArgs(Join(inst.paths + [jar], ":"), goos, meta, inst.loader)
                                   + GameArgs(versionDir, rootDir, meta, auth), versionDir);
        Outcome(env.run(cmd), fs2, Some(cmd))
  }

  /** `Launch`. */
  function Launched(fs: Fs, version: string, rootDir: string, options: LaunchOptions, goos: string,
                    auth: PkgApi.AuthData, env: Env): Outcome
  {
    var (inst, fs1) := Installed(fs, version, rootDir, options.modLoader, goos, env);
    if inst.Err? then Outcome(Some(inst.error), fs1, None)
    else LaunchedAfter(fs1, inst.value, env.instanceDir(rootDir, version), rootDir, goos, auth, env)
  }

  method ReadLoaderMeta(disk: Disk, versionDir: string, version: string, modLoader: string, prefix: string, env: Env)
    returns (r: Result<GenFabricMeta>)
    modifies disk
    ensures (r, disk.State()) == LoaderMeta(old(disk.State()), versionDir, version, modLoader, prefix, env)
  {
    var path := PathJoin(versionDir, modLoader + ".json");
    var data := disk.Read(path);
    if data.Ok? {
      var decoded := env.decodeLoader(data.value);
      return Ok(if decoded.Ok? then decoded.value else ZeroFabricMeta);
    }
    var lm := env.loaderMeta(prefix, version);
    if lm.Err? {
      return Err(lm.error);
    }
    disk.WriteFilePerm(path, env.encodeLoader(lm.value), LoaderCacheMode);
    return Ok(lm.value);
  }

  method FetchLoader(disk: Disk, versionDir: string, version: string, rootDir: string, modLoader: string,
                     goos: string, env: Env) returns (loader: Result<Option<GenFabricMeta>>, paths: seq<string>)
    modifies disk
    ensures (loader, paths, disk.State()) == LoaderStep(old(disk.State()), versionDir, version, rootDir, modLoader, goos, env)
  {
    if modLoader == "" {
      return Ok(None), [];
    }
    var prefix := LoaderPrefix(modLoader);
    if prefix.None? {
      return Err("invalid mod loader"), [];
    }
    var lm := ReadLoaderMeta(disk, versionDir, version, modLoader, prefix.value, env);
    if lm.Err? {
      return Err(lm.error), [];
    }
    var err;
    paths, err := DownloadLibraries(disk, env.web, lm.value.libraries, rootDir, goos);
    if err.Some? {
      return Err("error downloading loader libraries: " + err.value), paths;
    }
    return Ok(Some(lm.value)), paths;
  }

  /** `Launch` up to the loader's libraries. */
  method Install(disk: Disk, version: string, rootDir: string, modLoader: string, goos: string, env: Env)
    returns (r: Result<Installation>)
    modifies disk
    ensures (r, disk.State()) == Installed(old(disk.State()), version, rootDir, modLoader, goos, env)
  {
    var versionDir := env.instanceDir(rootDir, version);
    disk.MkdirAll(versionDir);
    var meta: GenMeta;
    var data := disk.Read(PathJoin(versionDir, version + ".json"));
    var version1 := version;
    if data.Ok? {
      var decoded := env.decodeMeta(data.value);
      meta := if decoded.Ok? then decoded.value else InternalApi.ZeroMeta;
    } else {
      var fetched := GetVersionMeta(env.web, version, env.decodeManifest, env.decodeMeta);
      if fetched.Err? {
        return Err(fetched.error);
      }
      meta := fetched.value;
      version1 := meta.id;
    }
    var paths, err := DownloadLibraries(disk, env.web, meta.libraries, rootDir, goos);
    if err.Some? {
      return Err("error downloading libraries: " + err.value);
    }
    var loader, loaderPaths := FetchLoader(disk, versionDir, version1, rootDir, modLoader, goos, env);
    if loader.Err? {
      return Err(loader.error);
    }
    return Ok(Installation(meta, version1, loader.value, paths + loaderPaths));
  }

  /** `Launch` after the libraries: the assets, the client jar, the game. */
  method StartGame(disk: Disk, inst: Installation, versionDir: string, rootDir: string, goos: string,
                   auth: PkgApi.AuthData, env: Env) returns (err: Option<string>)
    modifies disk
    ensures err == LaunchedAfter(old(disk.State()), inst, versionDir, rootDir, goos, auth, env).err
    ensures disk.State() == LaunchedAfter(old(disk.State()), inst, versionDir, rootDir, goos, auth, env).fs
  {
    var meta := inst.meta;
    var status := DownloadAssets(disk, env.web, meta, rootDir, env.decodeIndex);
    if status.Failed? {
      return Some("error downloading assets: " + status.error);
    }
    if status.Panicked? {
      return Some(status.message);
    }
    var jar := PathJoin(versionDir, inst.version + ".jar");
    var clientErr := GoUtil.DownloadFile(disk, env.web, meta.clientURL, jar);
    if clientErr.Some? {
      return Some("error downloading client: " + clientErr.value);
    }
    var libraries := inst.paths + [jar];
    var jvm := ["-cp", Join(libraries, ":")];
    if goos == "darwin" {
      jvm := jvm + ["-XstartOnFirstThread"];
    }
    if inst.loader.Some? {
      jvm := jvm + inst.loader.value.jvm;
      jvm := jvm + [inst.loader.value.mainClass];
    } else {
      jvm := jvm + [meta.mainClass];
    }
    var game := ["--username", auth.username, "--accessToken", auth.token, "--gameDir", versionDir,
                 "--assetsDir", PathJoin(rootDir, "assets"), "--assetIndex", meta.assetIndexID, "--version", ""];
    if auth.uuid != "" {
      game := game + ["--uuid", auth.uuid];
    }
    assert jvm == JvmArgs(Join(libraries, ":"), goos, meta, inst.loader);
    assert game == GameArgs(versionDir, rootDir, meta, auth);
    err := env.run(Command("java", jvm + game, versionDir));
  }

  method Launch(disk: Disk, version: string, rootDir: string, options: LaunchOptions, goos: string,
                auth: PkgApi.AuthData, env: Env) returns (err: Option<string>)
    modifies disk
    ensures err == Launched(old(disk.State()), version, rootDir, options, goos, auth, env).err
    ensures disk.State() == Launched(old(disk.State()), version, rootDir, options, goos, auth, env).fs
  {
    var inst := Install(disk, version, rootDir, options.modLoader, goos, env);
    if inst.Err? {
      return Some(inst.error);
    }
    err := StartGame(disk, inst.value, env.instanceDir(rootDir, version), rootDir, goos, auth, env);
  }

  /** The layout of the whole argument list. */
  lemma ArgsLayout(classPath: string, goos: string, meta: GenMeta, loader: Option<GenFabricMeta>,
                   versionDir: string, rootDir: string, auth: PkgApi.AuthData)
    ensures var r := JvmArgs(classPath, goos, meta, loader) + GameArgs(versionDir, rootDir, meta, auth);
      var d := if goos == "darwin" then 1 else 0;
      var n := 2 + d + (if loader.Some? then |loader.value.jvm| + 1 else 1);
      && |r| == n + (if auth.uuid != "" then 14 else 12)
      && r[..2] == ["-cp", classPath]
      && (goos == "darwin" ==> r[2] == "-XstartOnFirstThread")
      && (loader.Some? ==> r[2 + d..n] == loader.value.jvm + [loader.value.mainClass])
      && (loader.None? ==> r[2 + d] == meta.mainClass)
      && r[n + 10..n + 12] == ["--version", ""]
      && (auth.uuid != "" ==> r[n + 12..] == ["--uuid", auth.uuid])
  {
    var flag: seq<string> := if goos == "darwin" then ["-XstartOnFirstThread"] else [];
    var tail := if loader.Some? then loader.value.jvm + [loader.value.mainClass] else [meta.mainClass];
    var jvm := JvmArgs(classPath, goos, meta, loader);
    var game := GameArgs(versionDir, rootDir, meta, auth);
    assert jvm == ["-cp", classPath] + flag + tail;
    var n := |jvm|;
    assert (jvm + game)[..2] == jvm[..2];
    assert (jvm + game)[2 + |flag|..n] == tail;
    assert (jvm + game)[n..] == game;
  }

  /** The command `Launch` starts once everything is in place. */
  lemma StartedCommand(fs: Fs, inst: Installation, versionDir: string, rootDir: string, goos: string,
                       auth: PkgApi.AuthData, env: Env)
    requires LaunchedAfter(fs, inst, versionDir, rootDir, goos, auth, env).cmd.Some?
    ensures LaunchedAfter(fs, inst, versionDir, rootDir, goos, auth, env).cmd.value
         == Command("java", JvmArgs(Join(inst.paths + [PathJoin(versionDir, inst.version + ".jar")], ":"), goos, inst.meta, inst.loader)
                            + GameArgs(versionDir, rootDir, inst.meta, auth), versionDir)
  {
  }

  /** The command line: `java` in the version directory; -cp with the
      library paths then <versionDir>/<version>.jar last (the fetched id
      when the metadata was fetched); the macOS flag only on darwin; the
      loader's JVM arguments and main class, or the version's main class;
      then the game arguments, with an empty --version value and --uuid
      only when there is one. */
  lemma LaunchCommand(fs: Fs, version: string, rootDir: string, options: LaunchOptions, goos: string,
                      auth: PkgApi.AuthData, env: Env)
    requires Launched(fs, version, rootDir, options, goos, auth, env).cmd.Some?
    ensures var cmd := Launched(fs, version, rootDir, options, goos, auth, env).cmd.value;
      var inst := Installed(fs, version, rootDir, options.modLoader, goos, env).0.value;
      var versionDir := env.instanceDir(rootDir, version);
      var d := if goos == "darwin" then 1 else 0;
      var n := 2 + d + (if inst.loader.Some? then |inst.loader.value.jvm| + 1 else 1);
      && cmd.path == "java" && cmd.dir == versionDir
      && |cmd.args| == n + (if auth.uuid != "" then 14 else 12)
      && cmd.args[..2] == ["-cp", Join(inst.paths + [PathJoin(versionDir, inst.version + ".jar")], ":")]
      && (goos == "darwin" ==> cmd.args[2] == "-XstartOnFirstThread")
      && (inst.loader.Some? ==>
            cmd.args[2 + d..n] == inst.loader.value.jvm + [inst.loader.value.mainClass])
      && (inst.loader.None? ==> cmd.args[2 + d] == inst.meta.mainClass)
      && cmd.args[n + 10..n + 12] == ["--version", ""]
      && (auth.uuid != "" ==> cmd.args[n + 12..] == ["--uuid", auth.uuid])
  {
    var r := Installed(fs, version, rootDir, options.modLoader, goos, env);
    var inst := r.0.value;
    var versionDir := env.instanceDir(rootDir, version);
    assert Launched(fs, version, rootDir, options, goos, auth, env) == LaunchedAfter(r.1, inst, versionDir, rootDir, goos, auth, env);
    StartedCommand(r.1, inst, versionDir, rootDir, goos, auth, env);
    ArgsLayout(Join(inst.paths + [PathJoin(versionDir, inst.version + ".jar")], ":"), goos, inst.meta, inst.loader,
               versionDir, rootDir, auth);
  }

  /** A cached version.json keeps the version name and never consults the
      manifest; without one the version becomes the fetched metadata's id. */
  lemma CachedMetaSkipsManifest(fs: Fs, version: string, rootDir: string, modLoader: string, goos: string,
                                env: Env, decodeManifest: Bytes -> Result<Manifest.VersionManifest>)
    requires PathJoin(env.instanceDir(rootDir, version), version + ".json") in fs.files
    ensures Installed(fs, version, rootDir, modLoader, goos, env)
         == Installed(fs, version, rootDir, modLoader, goos, env.(decodeManifest := decodeManifest))
    ensures Installed(fs, version, rootDir, modLoader, goos, env).0.Ok? ==>
      Installed(fs, version, rootDir, modLoader, goos, env).0.value.version == version
  {
    var env2 := env.(decodeManifest := decodeManifest);
    var versionDir := env.instanceDir(rootDir, version);
    var fs1 := fs.Mkdir(versionDir);
    assert VersionMeta(fs1, versionDir, version, env) == VersionMeta(fs1, versionDir, version, env2);
    var vm := VersionMeta(fs1, versionDir, version, env);
    var (paths, err, fs2) := GetLibraries(fs1, env.web, vm.value.0.libraries, rootDir, goos);
    LoaderStepIgnoresManifest(fs2, versionDir, version, rootDir, modLoader, goos, env, decodeManifest);
  }

  // The loader step never reads the version manifest.
  lemma LoaderStepIgnoresManifest(fs: Fs, versionDir: string, version: string, rootDir: string, modLoader: string,
                                  goos: string, env: Env, decodeManifest: Bytes -> Result<Manifest.VersionManifest>)
    ensures LoaderStep(fs, versionDir, version, rootDir, modLoader, goos, env)
         == LoaderStep(fs, versionDir, version, rootDir, modLoader, goos, env.(decodeManifest := decodeManifest))
  {
  }

  /** An unknown loader is refused only after the version's libraries have
      been downloaded: the error is "invalid mod loader" and the disk is the
      one the library loop left. */
  lemma InvalidLoaderAfterLibraries(fs: Fs, version: string, rootDir: string, modLoader: string, goos: string, env: Env)
    requires modLoader != "" && modLoader != "fabric" && modLoader != "quilt"
    requires var versionDir := env.instanceDir(rootDir, version);
      var vm := VersionMeta(fs.Mkdir(versionDir), versionDir, version, env);
      vm.Ok? && GetLibraries(fs.Mkdir(versionDir), env.web, vm.value.0.libraries, rootDir, goos).1.None?
    ensures var versionDir := env.instanceDir(rootDir, version);
      var meta := VersionMeta(fs.Mkdir(versionDir), versionDir, version, env).value.0;
      Installed(fs, version, rootDir, modLoader, goos, env)
      == (Err("invalid mod loader"), GetLibraries(fs.Mkdir(versionDir), env.web, meta.libraries, rootDir, goos).2)
  {
  }

  /** A loader lookup that succeeds with no cache file on disk leaves the
      cache file holding the encoded metadata, whatever the loader's
      libraries do afterwards. */
  lemma LoaderCacheWritten(fs: Fs, versionDir: string, version: string, rootDir: string, modLoader: string,
                           goos: string, env: Env)
    requires LoaderPrefix(modLoader).Some?
    requires PathJoin(versionDir, modLoader + ".json") !in fs.files
    requires env.loaderMeta(LoaderPrefix(modLoader).value, version).Ok?
    ensures var fs1 := LoaderStep(fs, versionDir, version, rootDir, modLoader, goos, env).2;
      var path := PathJoin(versionDir, modLoader + ".json");
      && path in fs1.files
      && fs1.files[path] == env.encodeLoader(env.loaderMeta(LoaderPrefix(modLoader).value, version).value)
  {
    var prefix := LoaderPrefix(modLoader).value;
    var (lm, fs1) := LoaderMeta(fs, versionDir, version, modLoader, prefix, env);
    GetLibrariesKeepsFiles(fs1, env.web, lm.value.libraries, rootDir, goos);
  }
}
