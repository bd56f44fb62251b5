// Launching a version in the first Go generation (pkg/launcher/launch.go):
// every library, the Fabric/Quilt libraries and the client jar are
// downloaded only when absent, assets are fetched with their errors
// ignored, and the game is started as `java` with a fixed argument layout.
// The network, the loader metadata service, the JSON decoders and the
// process are parameters.
module PkgLaunch {
  import opened Wrappers
  import opened Process
  import opened Strs
  import opened FileSystem
  import opened Web
  import opened MetaMinecraft
  import opened PkgApi
  import Manifest
  import GoUtil

  /** A Fabric/Quilt library: a Maven name and the repository URL. */
  datatype FabricLibrary = FabricLibrary(name: string, url: string)

  /** The fields of the loader metadata `Launch` reads. */
  datatype FabricMeta = FabricMeta(mainClass: string, libraries: seq<FabricLibrary>)

  const FabricURLPrefix := "https://meta.fabricmc.net/v2/versions/loader"
  const QuiltURLPrefix := "https://meta.quiltmc.org/v3/versions/loader"

  /** One download of a library loop: the name the error reports, the URL
      and the destination. */
  datatype Item = Item(name: string, url: string, path: string)

  /** <root>/libraries/<path>, by string concatenation. */
  function LibraryPath(rootDir: string, path: string): string
  {
    rootDir + "/libraries/" + path
  }

  /** The downloads of `fetchLibraries`. */
  function LibraryItems(libs: seq<ApiLibrary>, rootDir: string): (items: seq<Result<Item>>)
    ensures |items| == |libs|
    ensures forall i :: 0 <= i < |libs| ==> items[i] == Ok(Item(libs[i].name, libs[i].url, LibraryPath(rootDir, libs[i].path)))
  {
    seq(|libs|, i requires 0 <= i < |libs| => Ok(Item(libs[i].name, libs[i].url, LibraryPath(rootDir, libs[i].path))))
  }

  /** The downloads of `fetchFabricLibraries`: the URL is the repository URL
      followed directly by the Maven path, with no separator. A name with
      fewer than three fields is the panic of `GetPathFromMaven`. */
  function FabricItems(libs: seq<FabricLibrary>, rootDir: string): (items: seq<Result<Item>>)
    ensures |items| == |libs|
    ensures forall i :: 0 <= i < |libs| ==>
      match GoUtil.MavenPath(libs[i].name)
      case Ok(p) => items[i] == Ok(Item(libs[i].name, libs[i].url + p, LibraryPath(rootDir, p)))
      case Err(e) => items[i] == Err(e)
  {
    seq(|libs|, i requires 0 <= i < |libs| =>
      match GoUtil.MavenPath(libs[i].name)
      case Ok(p) => Ok(Item(libs[i].name, libs[i].url + p, LibraryPath(rootDir, p)))
      case Err(e) => Err(e))
  }

  /** A library loop: downloads in order; the first failure stops it with the
      paths so far and an error naming the library (`what` says which kind). */
  function FetchAll(fs: Fs, web: Client, items: seq<Result<Item>>, what: string): (seq<string>, Option<string>, Fs)
    decreases |items|
  {
    if |items| == 0 then ([], None, fs)
    else if items[0].Err? then ([], Some(items[0].error), fs)
    else
      var item := items[0].value;
      var (err, fs1) := GoUtil.Download(fs, web, item.url, item.path);
      if err.Some? then ([], Some("Error while downloading " + what + " " + item.name + ": " + err.value), fs1)
      else
        var (paths, err2, fs2) := FetchAll(fs1, web, items[1..], what);
        ([item.path] + paths, err2, fs2)
  }

  method FetchItems(disk: Disk, web: Client, items: seq<Result<Item>>, what: string)
    returns (paths: seq<string>, err: Option<string>)
    modifies disk
    ensures (paths, err, disk.State()) == FetchAll(old(disk.State()), web, items, what)
  {
    paths := [];
    ghost var fs0 := disk.State();
    assert items[0..] == items;
    assert [] + FetchAll(fs0, web, items, what).0 == FetchAll(fs0, web, items, what).0;
    for i := 0 to |items|
      invariant var (ps, e, fs) := FetchAll(disk.State(), web, items[i..], what);
        FetchAll(fs0, web, items, what) == (paths + ps, e, fs)
    {
      assert items[i..][1..] == items[i + 1..];
      if items[i].Err? {
        assert paths + [] == paths;
        return paths, Some(items[i].error);
      }
      var item := items[i].value;
      var e := GoUtil.DownloadFile(disk, web, item.url, item.path);
      if e.Some? {
        assert paths + [] == paths;
        return paths, Some("Error while downloading " + what + " " + item.name + ": " + e.value);
      }
      ghost var rest := FetchAll(disk.State(), web, items[i + 1..], what);
      assert paths + ([item.path] + rest.0) == paths + [item.path] + rest.0;
      paths := paths + [item.path];
    }
    assert paths + [] == paths;
    return paths, None;
  }

  /** The loops run in order: the paths are those of the leading items, all
      of them exactly when nothing failed. */
  lemma {:induction false} FetchAllPaths(fs: Fs, web: Client, items: seq<Result<Item>>, what: string)
    ensures var (paths, err, _) := FetchAll(fs, web, items, what);
      && |paths| <= |items|
      && (forall i :: 0 <= i < |paths| ==> items[i].Ok? && paths[i] == items[i].value.path)
      && (err.None? <==> |paths| == |items|)
    decreases |items|
  {
    if |items| > 0 && items[0].Ok? {
      var fs1 := GoUtil.Download(fs, web, items[0].value.url, items[0].value.path).1;
      FetchAllPaths(fs1, web, items[1..], what);
    }
  }

  // ---------------------------------------------------------------------
  // Assets

  /** <root>/assets/objects/<h[:2]>/<h> */
  function ObjectPath(rootDir: string, hash: string): string
    requires |hash| >= 2
  {
    rootDir + "/assets/objects/" + hash[..2] + "/" + hash
  }

  /** The object loop of `fetchAssets`: download errors are ignored; a hash
      shorter than two characters is the panic of `asset.Hash[:2]`. */
  function FetchObjects(fs: Fs, web: Client, rootDir: string, objects: seq<AssetObject>): (Option<string>, Fs)
    decreases |objects|
  {
    if |objects| == 0 then (None, fs)
    else
      var hash := objects[0].hash;
      if |hash| < 2 then (Some(SlicePanic(hash)), fs)
      else FetchObjects(GoUtil.Download(fs, web, AssetURL(hash), ObjectPath(rootDir, hash)).1, web, rootDir, objects[1..])
  }

  /** `fetchAssets`: the index's objects, in the order the map is visited,
      then the index file itself under assets/indexes/<id>.json. Only a
      panic comes out of it. */
  function FetchAssets(fs: Fs, web: Client, meta: ApiMeta, rootDir: string,
                       decodeIndex: Bytes -> Result<seq<AssetObject>>): (Option<string>, Fs)
  {
    var (_, objects) := GoUtil.GetJSON(web, meta.assetIndexURL, decodeIndex, []);
    var (panic, fs1) := FetchObjects(fs, web, rootDir, objects);
    if panic.Some? then (panic, fs1)
    else (None, GoUtil.Download(fs1, web, meta.assetIndexURL, rootDir + "/assets/indexes/" + meta.assetIndexID + ".json").1)
  }

  method FetchAssetObjects(disk: Disk, web: Client, meta: ApiMeta, rootDir: string,
                           decodeIndex: Bytes -> Result<seq<AssetObject>>) returns (panic: Option<string>)
    modifies disk
    ensures (panic, disk.State()) == FetchAssets(old(disk.State()), web, meta, rootDir, decodeIndex)
  {
    var (_, objects) := GoUtil.GetJSON(web, meta.assetIndexURL, decodeIndex, []);
    ghost var fs0 := disk.State();
    assert objects[0..] == objects;
    for i := 0 to |objects|
      invariant FetchObjects(fs0, web, rootDir, objects) == FetchObjects(disk.State(), web, rootDir, objects[i..])
    {
      assert objects[i..][1..] == objects[i + 1..];
      var hash := objects[i].hash;
      if |hash| < 2 {
        return Some(SlicePanic(hash));
      }
      var _ := GoUtil.DownloadFile(disk, web, AssetURL(hash), ObjectPath(rootDir, hash));
    }
    var _ := GoUtil.DownloadFile(disk, web, meta.assetIndexURL, rootDir + "/assets/indexes/" + meta.assetIndexID + ".json");
    return None;
  }

  /** Asset download failures never surface: the only outcome besides
      success is the panic on a short hash, and only when one is there. */
  lemma {:induction false} FetchObjectsOnlyPanics(fs: Fs, web: Client, rootDir: string, objects: seq<AssetObject>)
    ensures var (err, _) := FetchObjects(fs, web, rootDir, objects);
      && (err.Some? ==> exists i :: 0 <= i < |objects| && |objects[i].hash| < 2 && err.value == SlicePanic(objects[i].hash))
      && ((forall i :: 0 <= i < |objects| ==> |objects[i].hash| >= 2) ==> err.None?)
    decreases |objects|
  {
    if |objects| > 0 && |objects[0].hash| >= 2 {
      var fs1 := GoUtil.Download(fs, web, AssetURL(objects[0].hash), ObjectPath(rootDir, objects[0].hash)).1;
      FetchObjectsOnlyPanics(fs1, web, rootDir, objects[1..]);
      var err := FetchObjects(fs1, web, rootDir, objects[1..]).0;
      if err.Some? {
        var i :| 0 <= i < |objects[1..]| && |objects[1..][i].hash| < 2 && err.value == SlicePanic(objects[1..][i].hash);
        assert objects[i + 1] == objects[1..][i];
      }
      assert forall i :: 0 <= i < |objects[1..]| ==> objects[1..][i] == objects[i + 1];
    }
  }

  // ---------------------------------------------------------------------
  // Launch

  /** The loaders `Launch` recognises. */
  predicate IsLoader(modLoader: string)
  {
    modLoader == "fabric" || modLoader == "quilt"
  }

  /** <root>/instances/<version> */
  function InstanceDir(rootDir: string, version: string): string
  {
    rootDir + "/instances/" + version
  }

  /** The JVM arguments: always -XstartOnFirstThread and the classpath;
      with a loader the FabricMcEmu flag and the loader's main class,
      otherwise the version's main class. */
  function JvmArgs(classPath: string, meta: ApiMeta, loaderMain: Option<string>): seq<string>
  {
    ["-XstartOnFirstThread", "-cp", classPath]
    + (if loaderMain.Some? then ["-DFabricMcEmu= net.minecraft.client.main.Main", loaderMain.value] else [meta.mainClass])
  }

  /** The game arguments: a fixed list, with an empty version and always a
      UUID. */
  function GameArgs(rootDir: string, meta: ApiMeta, auth: AuthData): (r: seq<string>)
    ensures |r| == 12
  {
    ["--accessToken", auth.token, "--version", "", "--assetsDir", rootDir + "/assets",
     "--assetIndex", meta.assetIndexID, "--username", auth.username, "--uuid", auth.uuid]
  }

  /** What `Launch` needs besides the disk: the network, the loader metadata
      lookup (prefix, game version), the decoders, and what waiting for the
      started process reports. */
  datatype Env = Env(web: Client,
                     loaderMeta: (string, string) -> Result<FabricMeta>,
                     decodeManifest: Bytes -> Result<Manifest.VersionManifest>,
                     decodeMeta: Bytes -> Result<ApiMeta>,
                     decodeIndex: Bytes -> Result<seq<AssetObject>>,
                     run: Runner)

  /** The loader's metadata and libraries, when there is a loader. */
  function LoaderStep(fs: Fs, version: string, rootDir: string, modLoader: string, env: Env)
    : (Result<Option<FabricMeta>>, seq<string>, Fs)
  {
    if !IsLoader(modLoader) then (Ok(None), [], fs)
    else
      var prefix := if modLoader == "fabric" then FabricURLPrefix else QuiltURLPrefix;
      var lm := env.loaderMeta(prefix, version);
      if lm.Err? then (Err(lm.error), [], fs)
      else
        var (paths, err, fs1) := FetchAll(fs, env.web, FabricItems(lm.value.libraries, rootDir), "Fabric/Quilt library");
        if err.Some? then (Err(err.value), paths, fs1) else (Ok(Some(lm.value)), paths, fs1)
  }

  /** The error `Launch` returns, the disk it leaves, and the command it
      starts when every step before it succeeded. */
  datatype Outcome = Outcome(err: Option<string>, fs: Fs, cmd: Option<Command>)

  /** What `Launch` has once everything but the assets is in place: the
      metadata, the loader's metadata when there is a loader, and the
      classpath entries. */
  datatype Installation = Installation(meta: ApiMeta, loader: Option<FabricMeta>, paths: seq<string>)

  /** The first part of `Launch`: the instance directory, the metadata, the
      libraries, the loader and the client jar. */
  function Installed(fs: Fs, version: string, rootDir: string, modLoader: string, env: Env): (r: (Result<Installation>, Fs))
    ensures r.0.Ok? ==> (r.0.value.loader.Some? <==> IsLoader(modLoader))
  {
    var instanceDir := InstanceDir(rootDir, version);
    var fs1 := fs.Mkdir(instanceDir);
    var meta := GetVersionMeta(env.web, version, env.decodeManifest, env.decodeMeta);
    if meta.Err? then (Err(meta.error), fs1)
    else
      var (paths, err, fs2) := FetchAll(fs1, env.web, LibraryItems(meta.value.libraries, rootDir), "library");
      if err.Some? then (Err(err.value), fs2)
      else
        var (loader, loaderPaths, fs3) := LoaderStep(fs2, version, rootDir, modLoader, env);
        if loader.Err? then (Err(loader.error), fs3)
        else
          var (clientErr, fs4) := GoUtil.Download(fs3, env.web, meta.value.clientURL, instanceDir + "/client.jar");
          if clientErr.Some? then (Err("Error while downloading game client: " + clientErr.value), fs4)
          else (Ok(Installation(meta.value, loader.value, paths + loaderPaths + [instanceDir + "/client.jar"])), fs4)
  }

  /** `Launch`. */
  function Launched(fs: Fs, version: string, rootDir: string, modLoader: string, auth: AuthData, env: Env): Outcome
  {
    var (inst, fs4) := Installed(fs, version, rootDir, modLoader, env);
    if inst.Err? then Outcome(Some(inst.error), fs4, None)
    else LaunchedAfter(fs4, inst.value, version, rootDir, auth, env)
  }

  /** The rest of `Launch`: the assets, then the game. */
  function LaunchedAfter(fs4: Fs, inst: Installation, version: string, rootDir: string, auth: AuthData, env: Env): Outcome
  {
    var meta := inst.meta;
    var (panic, fs5) := FetchAssets(fs4, env.web, meta, rootDir, env.decodeIndex);
    if panic.Some? then Outcome(panic, fs5, None)
    else
      var loaderMain := if inst.loader.Some? then Some(inst.loader.value.mainClass) else None;
      var cmd := Command("java", JvmArgs(Join(inst.paths, ":"), meta, loaderMain) + GameArgs(rootDir, meta, auth),
                     InstanceDir(rootDir, version));
      var waitErr := env.run(cmd);
      Outcome(if waitErr.Some? then Some("Error waiting for command: " + waitErr.value) else None, fs5, Some(cmd))
  }

  /** The loader part of `Launch`. */
  method FetchLoader(disk: Disk, version: string, rootDir: string, modLoader: string, env: Env)
    returns (loader: Result<Option<FabricMeta>>, paths: seq<string>)
    modifies disk
    ensures (loader, paths, disk.State()) == LoaderStep(old(disk.State()), version, rootDir, modLoader, env)
  {
    if !IsLoader(modLoader) {
      return Ok(None), [];
    }
    var prefix := if modLoader == "fabric" then FabricURLPrefix else QuiltURLPrefix;
    var lm := env.loaderMeta(prefix, version);
    if lm.Err? {
      return Err(lm.error), [];
    }
    var err;
    paths, err := FetchItems(disk, env.web, FabricItems(lm.value.libraries, rootDir), "Fabric/Quilt library");
    if err.Some? {
      return Err(err.value), paths;
    }
    return Ok(Some(lm.value)), paths;
  }

  /** `Launch` up to the client jar. */
  method Install(disk: Disk, version: string, rootDir: string, modLoader: string, env: Env)
    returns (r: Result<Installation>)
    modifies disk
    ensures (r, disk.State()) == Installed(old(disk.State()), version, rootDir, modLoader, env)
  {
    var instanceDir := InstanceDir(rootDir, version);
    disk.MkdirAll(instanceDir);
    var meta := GetVersionMeta(env.web, version, env.decodeManifest, env.decodeMeta);
    if meta.Err? {
      return Err(meta.error);
    }
    var paths, err := FetchItems(disk, env.web, LibraryItems(meta.value.libraries, rootDir), "library");
    if err.Some? {
      return Err(err.value);
    }
    var loader, loaderPaths := FetchLoader(disk, version, rootDir, modLoader, env);
    paths := paths + loaderPaths;
    if loader.Err? {
      return Err(loader.error);
    }
    var clientErr := GoUtil.DownloadFile(disk, env.web, meta.value.clientURL, instanceDir + "/client.jar");
    if clientErr.Some? {
      return Err("Error while downloading game client: " + clientErr.value);
    }
    paths := paths + [instanceDir + "/client.jar"];
    return Ok(Installation(meta.value, loader.value, paths));
  }

  /** `Launch` after the client jar: the assets, then the game. */
  method StartGame(disk: Disk, inst: Installation, version: string, rootDir: string, modLoader: string,
                   auth: AuthData, env: Env) returns (err: Option<string>)
    requires inst.loader.Some? <==> IsLoader(modLoader)
    modifies disk
    ensures err == LaunchedAfter(old(disk.State()), inst, version, rootDir, auth, env).err
    ensures disk.State() == LaunchedAfter(old(disk.State()), inst, version, rootDir, auth, env).fs
  {
    var meta := inst.meta;
    var panic := FetchAssetObjects(disk, env.web, meta, rootDir, env.decodeIndex);
    if panic.Some? {
      return panic;
    }
    var classPath := Join(inst.paths, ":");
    var jvm := ["-XstartOnFirstThread", "-cp", classPath];
    if IsLoader(modLoader) {
      jvm := jvm + ["-DFabricMcEmu= net.minecraft.client.main.Main"];
    }
    if IsLoader(modLoader) {
      jvm := jvm + [inst.loader.value.mainClass];
    } else {
      jvm := jvm + [meta.mainClass];
    }
    assert jvm == JvmArgs(classPath, meta, if inst.loader.Some? then Some(inst.loader.value.mainClass) else None);
    var waitErr := env.run(Command("java", jvm + GameArgs(rootDir, meta, auth), InstanceDir(rootDir, version)));
    if waitErr.Some? {
      return Some("Error waiting for command: " + waitErr.value);
    }
    return None;
  }

  method Launch(disk: Disk, version: string, rootDir: string, modLoader: string, auth: AuthData, env: Env)
    returns (err: Option<string>)
    modifies disk
    ensures err == Launched(old(disk.State()), version, rootDir, modLoader, auth, env).err
    ensures disk.State() == Launched(old(disk.State()), version, rootDir, modLoader, auth, env).fs
  {
    var inst := Install(disk, version, rootDir, modLoader, env);
    if inst.Err? {
      return Some(inst.error);
    }
    err := StartGame(disk, inst.value, version, rootDir, modLoader, auth, env);
  }

  /** The command line: -XstartOnFirstThread then -cp on every OS, the
      classpath ending with the instance's client.jar after the base and
      loader libraries, the FabricMcEmu flag right before the loader's main
      class, and the game arguments with --uuid last. */
  lemma LaunchCommand(fs: Fs, version: string, rootDir: string, modLoader: string, auth: AuthData, env: Env)
    requires Launched(fs, version, rootDir, modLoader, auth, env).cmd.Some?
    ensures var cmd := Launched(fs, version, rootDir, modLoader, auth, env).cmd.value;
      var n := if IsLoader(modLoader) then 5 else 4;
      && cmd.path == "java" && cmd.dir == InstanceDir(rootDir, version)
      && |cmd.args| == n + 12
      && cmd.args[..2] == ["-XstartOnFirstThread", "-cp"]
      && (IsLoader(modLoader) ==> cmd.args[3] == "-DFabricMcEmu= net.minecraft.client.main.Main")
      && (!IsLoader(modLoader) ==>
            cmd.args[3] == GetVersionMeta(env.web, version, env.decodeManifest, env.decodeMeta).value.mainClass)
      && cmd.args[n + 10..] == ["--uuid", auth.uuid]
  {
  }

  /** Without a loader, the lookup of loader metadata is never made and the
      classpath is the base libraries then the client jar. */
  lemma VanillaIgnoresLoader(fs: Fs, version: string, rootDir: string, modLoader: string, auth: AuthData,
                             env: Env, loaderMeta: (string, string) -> Result<FabricMeta>)
    requires !IsLoader(modLoader)
    ensures Launched(fs, version, rootDir, modLoader, auth, env)
         == Launched(fs, version, rootDir, modLoader, auth, env.(loaderMeta := loaderMeta))
  {
  }

  /** The classpath: the base libraries' paths in order, then the loader's
      libraries' paths when there is a loader, then the instance's
      client.jar last. */
  lemma InstalledClasspath(fs: Fs, version: string, rootDir: string, modLoader: string, env: Env)
    requires Installed(fs, version, rootDir, modLoader, env).0.Ok?
    ensures var inst := Installed(fs, version, rootDir, modLoader, env).0.value;
      var libs := inst.meta.libraries;
      var extra := if inst.loader.Some? then |inst.loader.value.libraries| else 0;
      && |inst.paths| == |libs| + extra + 1
      && (forall i :: 0 <= i < |libs| ==> inst.paths[i] == LibraryPath(rootDir, libs[i].path))
      && (inst.loader.Some? ==> forall j :: 0 <= j < extra ==>
            && GoUtil.MavenPath(inst.loader.value.libraries[j].name).Ok?
            && inst.paths[|libs| + j] == LibraryPath(rootDir, GoUtil.MavenPath(inst.loader.value.libraries[j].name).value))
      && inst.paths[|inst.paths| - 1] == InstanceDir(rootDir, version) + "/client.jar"
  {
    var client := InstanceDir(rootDir, version) + "/client.jar";
    var fs1 := fs.Mkdir(InstanceDir(rootDir, version));
    var meta := GetVersionMeta(env.web, version, env.decodeManifest, env.decodeMeta).value;
    var (paths, err, fs2) := FetchAll(fs1, env.web, LibraryItems(meta.libraries, rootDir), "library");
    var (loader, loaderPaths, fs3) := LoaderStep(fs2, version, rootDir, modLoader, env);
    var inst := Installed(fs, version, rootDir, modLoader, env).0.value;
    assert inst == Installation(meta, loader.value, paths + loaderPaths + [client]);
    BasePaths(fs1, env.web, meta.libraries, rootDir);
    LoaderPaths(fs2, version, rootDir, modLoader, env);
    ConcatIndex(paths, loaderPaths, client);
  }

  /** Indexing into the classpath's three parts. */
  lemma ConcatIndex(a: seq<string>, b: seq<string>, c: string)
    ensures |a + b + [c]| == |a| + |b| + 1
    ensures forall i :: 0 <= i < |a| ==> (a + b + [c])[i] == a[i]
    ensures forall j :: 0 <= j < |b| ==> (a + b + [c])[|a| + j] == b[j]
    ensures (a + b + [c])[|a| + |b|] == c
  {
  }

  /** A successful library download yields the libraries' paths in order. */
  lemma BasePaths(fs: Fs, web: Client, libs: seq<ApiLibrary>, rootDir: string)
    ensures var (paths, err, _) := FetchAll(fs, web, LibraryItems(libs, rootDir), "library");
      err.None? ==> |paths| == |libs| && forall i :: 0 <= i < |libs| ==> paths[i] == LibraryPath(rootDir, libs[i].path)
  {
    FetchAllPaths(fs, web, LibraryItems(libs, rootDir), "library");
  }

  /** A successful loader step yields the loader libraries' Maven paths in
      order, and no path without a loader. */
  lemma LoaderPaths(fs: Fs, version: string, rootDir: string, modLoader: string, env: Env)
    ensures var (loader, paths, _) := LoaderStep(fs, version, rootDir, modLoader, env);
      && (loader.Ok? && loader.value.None? ==> paths == [])
      && (loader.Ok? && loader.value.Some? ==>
            && |paths| == |loader.value.value.libraries|
            && forall j :: 0 <= j < |paths| ==>
                 && GoUtil.MavenPath(loader.value.value.libraries[j].name).Ok?
                 && paths[j] == LibraryPath(rootDir, GoUtil.MavenPath(loader.value.value.libraries[j].name).value))
  {
    if IsLoader(modLoader) {
      var prefix := if modLoader == "fabric" then FabricURLPrefix else QuiltURLPrefix;
      var lm := env.loaderMeta(prefix, version);
      if lm.Ok? {
        FetchAllPaths(fs, env.web, FabricItems(lm.value.libraries, rootDir), "Fabric/Quilt library");
      }
    }
  }
}
