// The launch of internal/launcher/run.go: "latest" resolved first, the
// version directory <root>/versions/<version>, version and Fabric metadata
// read from that directory when cached and written there after a fetch,
// and `java` started there. The helpers it calls with signatures found
// nowhere in the repository (`installLibraries`, `downloadAssets`,
// `downloadClient`) and `api.GetLoaderMeta` are parameters; so are the
// network lookups, the JSON codecs and the process.
module InternalRun {
  import opened Wrappers
  import opened Process
  import opened Strs
  import opened FileSystem
  import opened Manifest
  import opened InternalApi
  import NetworkApi
  import PkgApi
  import InternalLauncher

  /** `GetVersionDir`: <root>/versions/<version>. */
  function GetVersionDir(rootDir: string, version: string): (r: string)
    ensures HasPrefix(r, rootDir + "/versions/")
  {
    PathJoin(PathJoin(rootDir, "versions"), version)
  }

  /** Permission bits of the metadata cache files. */
  const CacheMode: nat := 0x1a4   // 0644

  /** What `Launch` needs besides the disk. */
  datatype Env = Env(rootDir: string,
                     fetchManifest: NetworkApi.Fetcher<VersionManifest>,
                     fetchMeta: NetworkApi.Fetcher<GenMeta>,
                     loaderMeta: string -> Result<GenFabricMeta>,
                     decodeMeta: Bytes -> Result<GenMeta>,
                     encodeMeta: GenMeta -> Bytes,
                     decodeLoader: Bytes -> Result<GenFabricMeta>,
                     encodeLoader: GenFabricMeta -> Bytes,
                     installLibraries: (Fs, seq<GenLibrary>) -> (Result<seq<string>>, Fs),
                     downloadAssets: (Fs, GenMeta) -> (Option<string>, Fs),
                     downloadClient: (Fs, GenMeta, string) -> (Option<string>, Fs),
                     run: Runner)

  /** The version launched: "latest" is the manifest's latest release. */
  function ResolvedVersion(version: string, env: Env): (r: Result<string>)
    ensures version != "latest" ==> r == Ok(version)
    ensures version == "latest" ==> r == NetworkApi.GetLatestRelease(env.fetchManifest)
  {
    if version == "latest" then NetworkApi.GetLatestRelease(env.fetchManifest) else Ok(version)
  }

  /** A read-through cache file: its decoded contents when it exists (a file
      that does not decode is `zero`); otherwise the lookup, written there
      (mode 0644) when it succeeds. */
  function ReadThrough<T>(fs: Fs, path: string, decode: Bytes -> Result<T>, zero: T, lookup: Result<T>,
                          encode: T -> Bytes): (r: (Result<T>, Fs))
    ensures path in fs.files ==> r.1 == fs && r.0.Ok?
    ensures path !in fs.files ==> r.0 == lookup
    ensures path !in fs.files && lookup.Ok? ==> r.1 == fs.WritePerm(path, encode(lookup.value), CacheMode)
    ensures path !in fs.files && lookup.Err? ==> r.1 == fs
  {
    if path in fs.files then
      var decoded := decode(fs.files[path]);
      (Ok(if decoded.Ok? then decoded.value else zero), fs)
    else if lookup.Err? then (lookup, fs)
    else (lookup, fs.WritePerm(path, encode(lookup.value), CacheMode))
  }

  method ReadThroughFile<T>(disk: Disk, path: string, decode: Bytes -> Result<T>, zero: T, lookup: Result<T>,
                            encode: T -> Bytes) returns (r: Result<T>)
    modifies disk
    ensures (r, disk.State()) == ReadThrough(old(disk.State()), path, decode, zero, lookup, encode)
  {
    var data := disk.Read(path);
    if data.Ok? {
      var decoded := decode(data.value);
      return Ok(if decoded.Ok? then decoded.value else zero);
    }
    if lookup.Err? {
      return lookup;
    }
    disk.WriteFilePerm(path, encode(lookup.value), CacheMode);
    return lookup;
  }

  /** The loader part: only "fabric" has one, cached in fabric.json. */
  function LoaderStep(fs: Fs, versionDir: string, version: string, modLoader: string, env: Env)
    : (r: (Result<Option<GenFabricMeta>>, seq<string>, Fs))
    ensures modLoader != "fabric" ==> r == (Ok(None), [], fs)
    ensures r.0.Ok? ==> (r.0.value.Some? <==> modLoader == "fabric")
  {
    if modLoader != "fabric" then (Ok(None), [], fs)
    else
      var (lm, fs1) := ReadThrough(fs, PathJoin(versionDir, "fabric.json"), env.decodeLoader, ZeroFabricMeta,
                                   env.loaderMeta(version), env.encodeLoader);
      if lm.Err? then (Err(lm.error), [], fs1)
      else
        var (paths, fs2) := env.installLibraries(fs1, lm.value.libraries);
        if paths.Err? then (Err(paths.error), [], fs2) else (Ok(Some(lm.value)), paths.value, fs2)
  }

  /** The first part of `Launch`: the version, its directory, the metadata,
      the libraries and the loader. */
  function Installed(fs: Fs, version: string, modLoader: string, env: Env): (r: (Result<InternalLauncher.Installation>, Fs))
    ensures r.0.Ok? ==> (r.0.value.loader.Some? <==> modLoader == "fabric")
    ensures r.0.Ok? ==> ResolvedVersion(version, env) == Ok(r.0.value.version)
  {
    var resolved := ResolvedVersion(version, env);
    if resolved.Err? then (Err(resolved.error), fs)
    else
      var v := resolved.value;
      var versionDir := GetVersionDir(env.rootDir, v);
      var fs1 := fs.Mkdir(versionDir);
      var (meta, fs2) := ReadThrough(fs1, PathJoin(versionDir, v + ".json"), env.decodeMeta, ZeroMeta,
                                     NetworkApi.GetVersionMeta(env.fetchManifest, env.fetchMeta, v), env.encodeMeta);
      if meta.Err? then (Err(meta.error), fs2)
      else
        var (paths, fs3) := env.installLibraries(fs2, meta.value.libraries);
        if paths.Err? then (Err(paths.error), fs3)
        else
          var (loader, loaderPaths, fs4) := LoaderStep(fs3, versionDir, v, modLoader, env);
          if loader.Err? then (Err(loader.error), fs4)
          else (Ok(InternalLauncher.Installation(meta.value, v, loader.value, paths.value + loaderPaths)), fs4)
  }

  /** The game arguments: the version and its type, and --uuid only when
      there is one. */
  function GameArgs(versionDir: string, rootDir: string, version: string, meta: GenMeta, auth: PkgApi.AuthData)
    : (r: seq<string>)
    ensures |r| == (if auth.uuid != "" then 16 else 14)
    ensures r[4..6] == ["--gameDir", versionDir]
    ensures r[10..14] == ["--version", version, "--versionType", meta.versionType]
    ensures auth.uuid != "" ==> r[14..] == ["--uuid", auth.uuid]
  {
    ["--username", auth.username, "--accessToken", auth.token, "--gameDir", versionDir,
     "--assetsDir", PathJoin(rootDir, "assets"), "--assetIndex", meta.assetIndexID,
     "--version", version, "--versionType", meta.versionType]
    + (if auth.uuid != "" then ["--uuid", auth.uuid] else [])
  }

  /** The rest of `Launch`: the assets, the client, then the game, started
      in the version directory. */
  function LaunchedAfter(fs: Fs, inst: InternalLauncher.Installation, goos: string, auth: PkgApi.AuthData, env: Env)
    : InternalLauncher.Outcome
  {
    var versionDir := GetVersionDir(env.rootDir, inst.version);
    var (assetsErr, fs1) := env.downloadAssets(fs, inst.meta);
    if assetsErr.Some? then InternalLauncher.Outcome(assetsErr, fs1, None)
    else
      var (clientErr, fs2) := env.downloadClient(fs1, inst.meta, inst.version);
      if clientErr.Some? then InternalLauncher.Outcome(clientErr, fs2, None)
      else
        var classPath := Join(inst.paths + [PathJoin(versionDir, inst.version + ".jar")], ":");
        var cmd := Command("java", InternalLauncher.JvmArgs(classPath, goos, inst.meta, inst.loader)
                                   + GameArgs(versionDir, env.rootDir, inst.version, inst.meta, auth), versionDir);
        InternalLauncher.Outcome(env.run(cmd), fs2, Some(cmd))
  }

  /** `Launch`. */
  function Launched(fs: Fs, version: string, options: InternalLauncher.LaunchOptions, goos: string,
                    auth: PkgApi.AuthData, env: Env): InternalLauncher.Outcome
  {
    var (inst, fs1) := Installed(fs, version, options.modLoader, env);
    if inst.Err? then InternalLauncher.Outcome(Some(inst.error), fs1, None)
    else LaunchedAfter(fs1, inst.value, goos, auth, env)
  }

  method Install(disk: Disk, version: string, modLoader: string, env: Env) returns (r: Result<InternalLauncher.Installation>)
    modifies disk
    ensures (r, disk.State()) == Installed(old(disk.State()), version, modLoader, env)
  {
    var v := version;
    if version == "latest" {
      var latest := NetworkApi.GetLatestRelease(env.fetchManifest);
      if latest.Err? {
        return Err(latest.error);
      }
      v := latest.value;
    }
    var versionDir := GetVersionDir(env.rootDir, v);
    disk.MkdirAll(versionDir);
    var meta := ReadThroughFile(disk, PathJoin(versionDir, v + ".json"), env.decodeMeta, ZeroMeta,
                                NetworkApi.GetVersionMeta(env.fetchManifest, env.fetchMeta, v), env.encodeMeta);
    if meta.Err? {
      return Err(meta.error);
    }
    var (libraries, fs3) := env.installLibraries(disk.State(), meta.value.libraries);
    disk.files, disk.modes, disk.dirs := fs3.files, fs3.modes, fs3.dirs;
    if libraries.Err? {
      return Err(libraries.error);
    }
    var loader, loaderPaths := FetchLoader(disk, versionDir, v, modLoader, env);
    if loader.Err? {
      return Err(loader.error);
    }
    return Ok(InternalLauncher.Installation(meta.value, v, loader.value, libraries.value + loaderPaths));
  }

  method FetchLoader(disk: Disk, versionDir: string, version: string, modLoader: string, env: Env)
    returns (loader: Result<Option<GenFabricMeta>>, paths: seq<string>)
    modifies disk
    ensures (loader, paths, disk.State()) == LoaderStep(old(disk.State()), versionDir, version, modLoader, env)
  {
    if modLoader != "fabric" {
      return Ok(None), [];
    }
    var lm := ReadThroughFile(disk, PathJoin(versionDir, "fabric.json"), env.decodeLoader, ZeroFabricMeta,
                              env.loaderMeta(version), env.encodeLoader);
    if lm.Err? {
      return Err(lm.error), [];
    }
    var (loaderLibraries, fs4) := env.installLibraries(disk.State(), lm.value.libraries);
    disk.files, disk.modes, disk.dirs := fs4.files, fs4.modes, fs4.dirs;
    if loaderLibraries.Err? {
      return Err(loaderLibraries.error), [];
    }
    return Ok(Some(lm.value)), loaderLibraries.value;
  }

  /** `Launch` after the libraries: the assets, the client, the game. */
  method StartGame(disk: Disk, i: InternalLauncher.Installation, goos: string, auth: PkgApi.AuthData, env: Env)
    returns (err: Option<string>)
    modifies disk
    ensures err == LaunchedAfter(old(disk.State()), i, goos, auth, env).err
    ensures disk.State() == LaunchedAfter(old(disk.State()), i, goos, auth, env).fs
  {
    var versionDir := GetVersionDir(env.rootDir, i.version);
    var (assetsErr, fs1) := env.downloadAssets(disk.State(), i.meta);
    disk.files, disk.modes, disk.dirs := fs1.files, fs1.modes, fs1.dirs;
    if assetsErr.Some? {
      return assetsErr;
    }
    var (clientErr, fs2) := env.downloadClient(disk.State(), i.meta, i.version);
    disk.files, disk.modes, disk.dirs := fs2.files, fs2.modes, fs2.dirs;
    if clientErr.Some? {
      return clientErr;
    }
    var libraries := i.paths + [PathJoin(versionDir, i.version + ".jar")];
    var jvm := ["-cp", Join(libraries, ":")];
    if goos == "darwin" {
      jvm := jvm + ["-XstartOnFirstThread"];
    }
    if i.loader.Some? {
      jvm := jvm + i.loader.value.jvm + [i.loader.value.mainClass];
    } else {
      jvm := jvm + [i.meta.mainClass];
    }
    var game := ["--username", auth.username, "--accessToken", auth.token, "--gameDir", versionDir,
                 "--assetsDir", PathJoin(env.rootDir, "assets"), "--assetIndex", i.meta.assetIndexID,
                 "--version", i.version, "--versionType", i.meta.versionType];
    if auth.uuid != "" {
      game := game + ["--uuid", auth.uuid];
    }
    assert jvm == InternalLauncher.JvmArgs(Join(libraries, ":"), goos, i.meta, i.loader);
    assert game == GameArgs(versionDir, env.rootDir, i.version, i.meta, auth);
    err := env.run(Command("java", jvm + game, versionDir));
  }

  method Launch(disk: Disk, version: string, options: InternalLauncher.LaunchOptions, goos: string,
                auth: PkgApi.AuthData, env: Env) returns (err: Option<string>)
    modifies disk
    ensures err == Launched(old(disk.State()), version, options, goos, auth, env).err
    ensures disk.State() == Launched(old(disk.State()), version, options, goos, auth, env).fs
  {
    var inst := Install(disk, version, options.modLoader, env);
    if inst.Err? {
      return Some(inst.error);
    }
    err := StartGame(disk, inst.value, goos, auth, env);
  }

  /** "latest" is resolved before anything else: launching it is launching
      the latest release; when the manifest cannot be read nothing happens
      and the manifest error is returned. */
  lemma LatestIsLatestRelease(fs: Fs, options: InternalLauncher.LaunchOptions, goos: string,
                              auth: PkgApi.AuthData, env: Env)
    ensures var latest := NetworkApi.GetLatestRelease(env.fetchManifest);
      && (latest.Ok? ==> Launched(fs, "latest", options, goos, auth, env) == Launched(fs, latest.value, options, goos, auth, env))
      && (latest.Err? ==> Launched(fs, "latest", options, goos, auth, env) == InternalLauncher.Outcome(Some(latest.error), fs, None))
  {
    var latest := NetworkApi.GetLatestRelease(env.fetchManifest);
    if latest.Ok? {
      assert ResolvedVersion("latest", env) == ResolvedVersion(latest.value, env);
      assert Installed(fs, "latest", options.modLoader, env) == Installed(fs, latest.value, options.modLoader, env);
    }
  }

  /** The metadata launched is the cached file's when <version>.json is in
      the version directory, and otherwise the fetched metadata, which is
      then written there. */
  lemma MetaReadThrough(fs: Fs, version: string, modLoader: string, env: Env)
    requires version != "latest"
    requires Installed(fs, version, modLoader, env).0.Ok?
    ensures var path := PathJoin(GetVersionDir(env.rootDir, version), version + ".json");
      var meta := Installed(fs, version, modLoader, env).0.value.meta;
      && (path in fs.files ==>
            meta == (if env.decodeMeta(fs.files[path]).Ok? then env.decodeMeta(fs.files[path]).value else ZeroMeta))
      && (path !in fs.files ==>
            && NetworkApi.GetVersionMeta(env.fetchManifest, env.fetchMeta, version) == Ok(meta)
            && var fs2 := ReadThrough(fs.Mkdir(GetVersionDir(env.rootDir, version)), path, env.decodeMeta, ZeroMeta,
                                      Ok(meta), env.encodeMeta).1;
               path in fs2.files && fs2.files[path] == env.encodeMeta(meta))
  {
  }

  /** Only "fabric" has a loader: any other name, "quilt" included, launches
      the plain version and never asks for loader metadata. */
  lemma OnlyFabricHasLoader(fs: Fs, version: string, options: InternalLauncher.LaunchOptions, goos: string,
                            auth: PkgApi.AuthData, env: Env, loaderMeta: string -> Result<GenFabricMeta>)
    requires options.modLoader != "fabric"
    ensures Launched(fs, version, options, goos, auth, env)
         == Launched(fs, version, options, goos, auth, env.(loaderMeta := loaderMeta))
    ensures Installed(fs, version, options.modLoader, env).0.Ok? ==>
      Installed(fs, version, options.modLoader, env).0.value.loader.None?
  {
    var env2 := env.(loaderMeta := loaderMeta);
    assert Installed(fs, version, options.modLoader, env) == Installed(fs, version, options.modLoader, env2);
    var r := Installed(fs, version, options.modLoader, env);
    if r.0.Ok? {
      assert LaunchedAfter(r.1, r.0.value, goos, auth, env) == LaunchedAfter(r.1, r.0.value, goos, auth, env2);
    }
  }

  /** The command: `java` in <root>/versions/<version> with the classpath
      ending in that directory's <version>.jar, and the game arguments of
      that version. */
  lemma LaunchCommand(fs: Fs, version: string, options: InternalLauncher.LaunchOptions, goos: string,
                      auth: PkgApi.AuthData, env: Env)
    requires Launched(fs, version, options, goos, auth, env).cmd.Some?
    ensures var cmd := Launched(fs, version, options, goos, auth, env).cmd.value;
      var inst := Installed(fs, version, options.modLoader, env).0.value;
      var versionDir := GetVersionDir(env.rootDir, inst.version);
      var classPath := Join(inst.paths + [PathJoin(versionDir, inst.version + ".jar")], ":");
      && ResolvedVersion(version, env) == Ok(inst.version)
      && cmd.path == "java" && cmd.dir == versionDir
      && cmd.args == InternalLauncher.JvmArgs(classPath, goos, inst.meta, inst.loader)
                     + GameArgs(versionDir, env.rootDir, inst.version, inst.meta, auth)
      && cmd.args[..2] == ["-cp", classPath]
  {
    var r := Installed(fs, version, options.modLoader, env);
    assert Launched(fs, version, options, goos, auth, env) == LaunchedAfter(r.1, r.0.value, goos, auth, env);
  }
}
