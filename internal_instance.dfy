// Instances of internal/launcher/instance.go: a directory under the
// instances directory holding instance.json, created with a default
// configuration after the version is validated, listed, deleted, and
// started with `java` at the configured path. Version and Fabric metadata
// are read from the instance directory when cached there and written there
// after a fetch. `api.GetLatestSnapshot`, `api.GetLoaderMeta`,
// `network.DownloadFile` in the form called here and the two-argument `run`
// are parameters, as are the Mojang lookups, the JSON codecs and the
// process.
module InternalInstance {
  import opened Wrappers
  import opened Process
  import opened Strs
  import opened FileSystem
  import opened Collections
  import opened Manifest
  import opened InternalApi
  import NetworkApi
  import PkgApi
  import InternalLauncher
  import InternalRun

  datatype InstanceConfig = InstanceConfig(width: int, height: int, java: string, minMemory: int, maxMemory: int)

  /** The configuration of a new instance. */
  const DefaultConfig := InstanceConfig(1708, 960, "/usr/bin/java", 512, 4096)

  datatype Instance = Instance(dir: string, gameVersion: string, name: string, modLoader: string, config: InstanceConfig)

  datatype InstanceOptions = InstanceOptions(gameVersion: string, name: string, modLoader: string)

  /** The options of `Start`: a server to join and the login. */
  datatype StartOptions = StartOptions(quickPlayServer: string, login: PkgApi.AuthData)

  /** An entry of the instances directory as `os.ReadDir` lists it. */
  datatype DirEntry = DirEntry(name: string, isDir: bool)

  datatype Env = Env(rootDir: string,
                     instancesDir: string,
                     fetchManifest: NetworkApi.Fetcher<VersionManifest>,
                     fetchMeta: NetworkApi.Fetcher<GenMeta>,
                     latestSnapshot: Result<string>,
                     loaderMeta: string -> Result<GenFabricMeta>,
                     decodeMeta: Bytes -> Result<GenMeta>,
                     encodeMeta: GenMeta -> Bytes,
                     decodeLoader: Bytes -> Result<GenFabricMeta>,
                     encodeLoader: GenFabricMeta -> Bytes,
                     decodeInstance: Bytes -> Result<Instance>,
                     encodeInstance: Instance -> Bytes,
                     downloadFile: (Fs, string, string) -> (Option<string>, Fs),
                     run: Runner)

  const ErrNotExist := "instance does not exist"

  // ---------------------------------------------------------------------
  // The registry

  /** <instances>/<id>/instance.json */
  function MetadataPath(env: Env, id: string): string
  {
    PathJoin(PathJoin(env.instancesDir, id), "instance.json")
  }

  /** `GetInstance`: a missing directory is "instance does not exist"; a
      missing instance.json and one that does not decode are reported as
      such. The instance is what the file says, its directory included. */
  function GetInstance(fs: Fs, id: string, env: Env): (r: Result<Instance>)
    ensures PathJoin(env.instancesDir, id) !in fs.files && PathJoin(env.instancesDir, id) !in fs.dirs ==>
      r == Err(ErrNotExist)
    ensures r.Ok? <==>
      && (PathJoin(env.instancesDir, id) in fs.files || PathJoin(env.instancesDir, id) in fs.dirs)
      && MetadataPath(env, id) in fs.files
      && env.decodeInstance(fs.files[MetadataPath(env, id)]).Ok?
    ensures r.Ok? ==> r.value == env.decodeInstance(fs.files[MetadataPath(env, id)]).value
  {
    var dir := PathJoin(env.instancesDir, id);
    if dir !in fs.files && dir !in fs.dirs then Err(ErrNotExist)
    else
      var path := PathJoin(dir, "instance.json");
      if path !in fs.files then Err(Wrapped("failed to read instance metadata", "open " + path + ": no such file or directory"))
      else
        match env.decodeInstance(fs.files[path])
        case Err(e) => Err(Wrapped("instance metadata is invalid", e))
        case Ok(inst) => Ok(inst)
  }

  /** `IsInstanceExist`: exactly when `GetInstance` succeeds. */
  predicate IsInstanceExist(fs: Fs, id: string, env: Env)
  {
    GetInstance(fs, id, env).Ok?
  }

  /** The version an instance is created with: "release" and "snapshot"
      are the latest ids, the empty string when that lookup fails. */
  function ResolvedVersion(gameVersion: string, env: Env): (r: string)
    ensures gameVersion != "release" && gameVersion != "snapshot" ==> r == gameVersion
  {
    if gameVersion == "release" then
      var id := NetworkApi.GetLatestRelease(env.fetchManifest);
      if id.Ok? then id.value else ""
    else if gameVersion == "snapshot" then
      if env.latestSnapshot.Ok? then env.latestSnapshot.value else ""
    else gameVersion
  }

  /** Permission bits of instance.json. */
  const MetadataMode: nat := 0x1a4   // 0644

  /** `CreateInstance`. */
  function Created(fs: Fs, options: InstanceOptions, env: Env): (r: (Result<Instance>, Fs))
    ensures options.modLoader != "" && options.modLoader != "fabric" ==> r == (Err("invalid mod loader"), fs)
    ensures r.0.Ok? ==> !IsInstanceExist(fs, options.name, env)
    ensures r.0.Err? ==> r.1 == fs
  {
    if options.modLoader != "" && options.modLoader != "fabric" then (Err("invalid mod loader"), fs)
    else if IsInstanceExist(fs, options.name, env) then (Err("instance already exists"), fs)
    else
      var version := ResolvedVersion(options.gameVersion, env);
      var meta := NetworkApi.GetVersionMeta(env.fetchManifest, env.fetchMeta, version);
      if meta.Err? then (Err(meta.error), fs)
      else
        var dir := PathJoin(env.instancesDir, options.name);
        var instance := Instance(dir, version, options.name, options.modLoader, DefaultConfig);
        (Ok(instance), fs.Mkdir(dir).WritePerm(PathJoin(dir, "instance.json"), env.encodeInstance(instance), MetadataMode))
  }

  method CreateInstance(disk: Disk, options: InstanceOptions, env: Env) returns (r: Result<Instance>)
    modifies disk
    ensures (r, disk.State()) == Created(old(disk.State()), options, env)
  {
    if options.modLoader != "" && options.modLoader != "fabric" {
      return Err("invalid mod loader");
    }
    if IsInstanceExist(disk.State(), options.name, env) {
      return Err("instance already exists");
    }
    var version := options.gameVersion;
    if version == "release" {
      var id := NetworkApi.GetLatestRelease(env.fetchManifest);
      version := if id.Ok? then id.value else "";
    } else if version == "snapshot" {
      version := if env.latestSnapshot.Ok? then env.latestSnapshot.value else "";
    }
    var meta := NetworkApi.GetVersionMeta(env.fetchManifest, env.fetchMeta, version);
    if meta.Err? {
      return Err(meta.error);
    }
    var dir := PathJoin(env.instancesDir, options.name);
    disk.MkdirAll(dir);
    var instance := Instance(dir, version, options.name, options.modLoader, DefaultConfig);
    disk.WriteFilePerm(PathJoin(dir, "instance.json"), env.encodeInstance(instance), MetadataMode);
    return Ok(instance);
  }

  /** A created instance lives in <instances>/<name> with the default
      configuration and the resolved version, and can be read back (given
      that its JSON encoding decodes to it). */
  lemma CreateThenGet(fs: Fs, options: InstanceOptions, env: Env)
    requires Created(fs, options, env).0.Ok?
    requires var inst := Created(fs, options, env).0.value; env.decodeInstance(env.encodeInstance(inst)) == Ok(inst)
    ensures var (r, fs1) := Created(fs, options, env);
      && r.value == Instance(PathJoin(env.instancesDir, options.name), ResolvedVersion(options.gameVersion, env),
                             options.name, options.modLoader, DefaultConfig)
      && NetworkApi.GetVersionMeta(env.fetchManifest, env.fetchMeta, r.value.gameVersion).Ok?
      && GetInstance(fs1, options.name, env) == Ok(r.value)
  {
  }

  /** An existing instance is never overwritten, and an alias is the same
      request as the id it stands for. */
  lemma CreateRefusesExisting(fs: Fs, options: InstanceOptions, env: Env)
    requires options.modLoader == "" || options.modLoader == "fabric"
    requires IsInstanceExist(fs, options.name, env)
    ensures Created(fs, options, env) == (Err("instance already exists"), fs)
  {
  }

  /** "release" is the latest release id when it can be looked up. */
  lemma ReleaseIsLatest(fs: Fs, options: InstanceOptions, env: Env)
    requires options.gameVersion == "release"
    requires NetworkApi.GetLatestRelease(env.fetchManifest).Ok?
    requires var id := NetworkApi.GetLatestRelease(env.fetchManifest).value; id != "release" && id != "snapshot"
    ensures Created(fs, options, env)
         == Created(fs, options.(gameVersion := NetworkApi.GetLatestRelease(env.fetchManifest).value), env)
  {
  }

  /** `DeleteInstance`: the directory the stored metadata names is removed
      with everything under it. */
  function Deleted(fs: Fs, id: string, env: Env): (r: (Option<string>, Fs))
    ensures GetInstance(fs, id, env).Err? ==> r == (Some(GetInstance(fs, id, env).error), fs)
    ensures GetInstance(fs, id, env).Ok? ==> r == (None, fs.RemoveAll(GetInstance(fs, id, env).value.dir))
  {
    match GetInstance(fs, id, env)
    case Err(e) => (Some(e), fs)
    case Ok(inst) => (None, fs.RemoveAll(inst.dir))
  }

  method DeleteInstance(disk: Disk, id: string, env: Env) returns (err: Option<string>)
    modifies disk
    ensures (err, disk.State()) == Deleted(old(disk.State()), id, env)
  {
    var instance := GetInstance(disk.State(), id, env);
    if instance.Err? {
      return Some(instance.error);
    }
    disk.RemoveAll(instance.value.dir);
    return None;
  }

  /** Once deleted, an instance whose metadata names its own directory is
      gone; other instances outside that directory are untouched. */
  lemma DeletedIsGone(fs: Fs, id: string, env: Env, other: string)
    requires GetInstance(fs, id, env).Ok?
    requires GetInstance(fs, id, env).value.dir == PathJoin(env.instancesDir, id)
    requires !Under(PathJoin(env.instancesDir, other), PathJoin(env.instancesDir, id))
    requires !Under(MetadataPath(env, other), PathJoin(env.instancesDir, id))
    ensures !IsInstanceExist(Deleted(fs, id, env).1, id, env)
    ensures GetInstance(Deleted(fs, id, env).1, other, env) == GetInstance(fs, other, env)
  {
    var dir := PathJoin(env.instancesDir, id);
    assert Under(dir, dir);
  }

  /** The entries that become instances: directories that can be read. */
  predicate Loads(fs: Fs, env: Env, e: DirEntry)
  {
    e.isDir && IsInstanceExist(fs, e.name, env)
  }

  /** The instances of `GetAllInstances`, in listing order. */
  function AllInstances(fs: Fs, env: Env, entries: seq<DirEntry>): (r: seq<Instance>)
    ensures |r| <= |entries|
  {
    if |entries| == 0 then []
    else
      var rest := AllInstances(fs, env, entries[..|entries| - 1]);
      var e := entries[|entries| - 1];
      if Loads(fs, env, e) then rest + [GetInstance(fs, e.name, env).value] else rest
  }

  /** `GetAllInstances` over what `os.ReadDir` returned. */
  method GetAllInstances(disk: Disk, listing: Result<seq<DirEntry>>, env: Env) returns (r: Result<seq<Instance>>)
    ensures listing.Err? ==> r == Err(Wrapped("failed to read instances directory", listing.error))
    ensures listing.Ok? ==> r == Ok(AllInstances(disk.State(), env, listing.value))
  {
    if listing.Err? {
      return Err(Wrapped("failed to read instances directory", listing.error));
    }
    var entries := listing.value;
    var instances: seq<Instance> := [];
    for i := 0 to |entries|
      invariant instances == AllInstances(disk.State(), env, entries[..i])
    {
      assert entries[..i + 1][..i] == entries[..i];
      var entry := entries[i];
      if entry.isDir {
        var instance := GetInstance(disk.State(), entry.name, env);
        if instance.Err? {
          continue;
        }
        instances := instances + [instance.value];
      }
    }
    assert entries[..|entries|] == entries;
    return Ok(instances);
  }

  /** The listing keeps exactly the readable directories, each once and in
      listing order. */
  lemma {:induction false} AllInstancesAreLoadable(fs: Fs, env: Env, entries: seq<DirEntry>)
    ensures var r := AllInstances(fs, env, entries);
      var kept := Filter(entries, e => Loads(fs, env, e));
      && |r| == |kept|
      && forall k :: 0 <= k < |r| ==> Loads(fs, env, kept[k]) && r[k] == GetInstance(fs, kept[k].name, env).value
    decreases |entries|
  {
    var p := (e: DirEntry) => Loads(fs, env, e);
    if |entries| > 0 {
      var init := entries[..|entries| - 1];
      var e := entries[|entries| - 1];
      AllInstancesAreLoadable(fs, env, init);
      FilterAppend(init, e, p);
      assert init + [e] == entries;
    }
  }

  // ---------------------------------------------------------------------
  // Starting

  /** `GetVersionMeta` of an instance: <dir>/<version>.json, written after a
      fetch. */
  function VersionMeta(fs: Fs, inst: Instance, env: Env): (Result<GenMeta>, Fs)
  {
    InternalRun.ReadThrough(fs, PathJoin(inst.dir, inst.gameVersion + ".json"), env.decodeMeta, ZeroMeta,
                            NetworkApi.GetVersionMeta(env.fetchManifest, env.fetchMeta, inst.gameVersion),
                            env.encodeMeta)
  }

  /** `GetFabricMeta` of an instance: <dir>/fabric.json, written after a
      fetch. */
  function FabricMeta(fs: Fs, inst: Instance, env: Env): (Result<GenFabricMeta>, Fs)
  {
    InternalRun.ReadThrough(fs, PathJoin(inst.dir, "fabric.json"), env.decodeLoader, ZeroFabricMeta,
                            env.loaderMeta(inst.gameVersion), env.encodeLoader)
  }

  /** <dir>/<version>.jar */
  function ClientJar(inst: Instance): string
  {
    PathJoin(inst.dir, inst.gameVersion + ".jar")
  }

  /** `DownloadClient`: the metadata (read again), then the client jar. */
  function ClientDownloaded(fs: Fs, inst: Instance, env: Env): (Option<string>, Fs)
  {
    var (meta, fs1) := VersionMeta(fs, inst, env);
    if meta.Err? then (Some(Wrapped("failed to get version metadata", meta.error)), fs1)
    else
      var (err, fs2) := env.downloadFile(fs1, meta.value.clientURL, ClientJar(inst));
      if err.Some? then (Some(Wrapped("failed to download client", err.value)), fs2) else (None, fs2)
  }

  /** The memory flags: -Xms and -Xmx, each only when its setting is not 0. */
  function MemoryFlags(config: InstanceConfig): (r: seq<string>)
    ensures |r| == (if config.minMemory != 0 then 1 else 0) + (if config.maxMemory != 0 then 1 else 0)
    ensures forall k :: 0 <= k < |r| ==> HasPrefix(r[k], "-Xms") || HasPrefix(r[k], "-Xmx")
    ensures config.minMemory != 0 <==> |r| > 0 && HasPrefix(r[0], "-Xms")
    ensures config.maxMemory != 0 <==> |r| > 0 && HasPrefix(r[|r| - 1], "-Xmx")
  {
    var xms := "-Xms" + IntToString(config.minMemory) + "m";
    var xmx := "-Xmx" + IntToString(config.maxMemory) + "m";
    assert HasPrefix(xms, "-Xms") && !HasPrefix(xms, "-Xmx");
    assert HasPrefix(xmx, "-Xmx") && !HasPrefix(xmx, "-Xms");
    (if config.minMemory != 0 then [xms] else []) + (if config.maxMemory != 0 then [xmx] else [])
  }

  /** The JVM arguments of `Start`. */
  function JvmArgs(classPath: string, goos: string, config: InstanceConfig, meta: GenMeta,
                   fabric: Option<GenFabricMeta>): seq<string>
  {
    ["-cp", classPath] + (if goos == "darwin" then ["-XstartOnFirstThread"] else []) + MemoryFlags(config)
    + (if fabric.Some? then fabric.value.jvm + [fabric.value.mainClass] else [meta.mainClass])
  }

  /** The game arguments of `Start`: the fixed list with the window size,
      then --quickPlayMultiplayer and --uuid, each only when given. */
  function GameArgs(inst: Instance, rootDir: string, meta: GenMeta, options: StartOptions): (r: seq<string>)
    ensures |r| == 18 + (if options.quickPlayServer != "" then 2 else 0) + (if options.login.uuid != "" then 2 else 0)
    ensures r[4..6] == ["--gameDir", inst.dir]
    ensures r[10..18] == ["--version", inst.gameVersion, "--versionType", meta.versionType,
                          "--width", IntToString(inst.config.width), "--height", IntToString(inst.config.height)]
    ensures r[18..] == (if options.quickPlayServer != "" then ["--quickPlayMultiplayer", options.quickPlayServer] else [])
                       + (if options.login.uuid != "" then ["--uuid", options.login.uuid] else [])
  {
    var fixed := ["--username", options.login.username, "--accessToken", options.login.token, "--gameDir", inst.dir,
                  "--assetsDir", PathJoin(rootDir, "assets"), "--assetIndex", meta.assetIndexID,
                  "--version", inst.gameVersion, "--versionType", meta.versionType,
                  "--width", IntToString(inst.config.width), "--height", IntToString(inst.config.height)];
    var optional := (if options.quickPlayServer != "" then ["--quickPlayMultiplayer", options.quickPlayServer] else [])
                    + (if options.login.uuid != "" then ["--uuid", options.login.uuid] else []);
    assert (fixed + optional)[..18] == fixed && (fixed + optional)[18..] == optional;
    fixed + optional
  }

  /** What `Start` has once the client is in place: the metadata. */
  function Prepared(fs: Fs, inst: Instance, env: Env): (Result<GenMeta>, Fs)
  {
    var (meta, fs1) := VersionMeta(fs, inst, env);
    if meta.Err? then (Err(Wrapped("failed to get version metadata", meta.error)), fs1)
    else
      var (err, fs2) := ClientDownloaded(fs1, inst, env);
      if err.Some? then (Err(Wrapped("failed to download client", err.value)), fs2) else (meta, fs2)
  }

  /** `Start`: the metadata, the client, the Fabric metadata for a Fabric
      instance, then the game, started with the configured Java in the
      instance directory. */
  function Started(fs: Fs, inst: Instance, classpath: seq<string>, options: StartOptions, goos: string, env: Env)
    : InternalLauncher.Outcome
  {
    var (meta, fs2) := Prepared(fs, inst, env);
    if meta.Err? then InternalLauncher.Outcome(Some(meta.error), fs2, None)
    else StartedAfter(fs2, inst, meta.value, classpath, options, goos, env)
  }

  /** The rest of `Start`, once the client is in place. */
  function StartedAfter(fs: Fs, inst: Instance, meta: GenMeta, classpath: seq<string>, options: StartOptions,
                        goos: string, env: Env): InternalLauncher.Outcome
  {
    var (fabric, fs1) := if inst.modLoader == "fabric" then FabricMeta(fs, inst, env) else (Ok(ZeroFabricMeta), fs);
    if fabric.Err? then InternalLauncher.Outcome(Some(fabric.error), fs1, None)
    else
      var cmd := Command(inst.config.java,
                         JvmArgs(Join(classpath + [ClientJar(inst)], ":"), goos, inst.config, meta,
                                 if inst.modLoader == "fabric" then Some(fabric.value) else None)
                         + GameArgs(inst, env.rootDir, meta, options), inst.dir);
      InternalLauncher.Outcome(env.run(cmd), fs1, Some(cmd))
  }

  method GetVersionMeta(disk: Disk, inst: Instance, env: Env) returns (r: Result<GenMeta>)
    modifies disk
    ensures (r, disk.State()) == VersionMeta(old(disk.State()), inst, env)
  {
    r := InternalRun.ReadThroughFile(disk, PathJoin(inst.dir, inst.gameVersion + ".json"), env.decodeMeta, ZeroMeta,
                                     NetworkApi.GetVersionMeta(env.fetchManifest, env.fetchMeta, inst.gameVersion),
                                     env.encodeMeta);
  }

  method DownloadClient(disk: Disk, inst: Instance, env: Env) returns (err: Option<string>)
    modifies disk
    ensures (err, disk.State()) == ClientDownloaded(old(disk.State()), inst, env)
  {
    var meta := GetVersionMeta(disk, inst, env);
    if meta.Err? {
      return Some(Wrapped("failed to get version metadata", meta.error));
    }
    var (e, fs2) := env.downloadFile(disk.State(), meta.value.clientURL, ClientJar(inst));
    disk.files, disk.modes, disk.dirs := fs2.files, fs2.modes, fs2.dirs;
    if e.Some? {
      return Some(Wrapped("failed to download client", e.value));
    }
    return None;
  }

  /** `Start` up to the client download. */
  method Prepare(disk: Disk, inst: Instance, env: Env) returns (r: Result<GenMeta>)
    modifies disk
    ensures (r, disk.State()) == Prepared(old(disk.State()), inst, env)
  {
    r := GetVersionMeta(disk, inst, env);
    if r.Err? {
      return Err(Wrapped("failed to get version metadata", r.error));
    }
    var clientErr := DownloadClient(disk, inst, env);
    if clientErr.Some? {
      return Err(Wrapped("failed to download client", clientErr.value));
    }
  }

  /** The JVM arguments `Start` builds before the main class: the
      classpath, the macOS flag and the memory flags. */
  method JvmPrefix(classPath: string, goos: string, config: InstanceConfig) returns (jvm: seq<string>)
    ensures jvm == ["-cp", classPath] + (if goos == "darwin" then ["-XstartOnFirstThread"] else []) + MemoryFlags(config)
  {
    jvm := ["-cp", classPath];
    if goos == "darwin" {
      jvm := jvm + ["-XstartOnFirstThread"];
    }
    if config.minMemory != 0 {
      jvm := jvm + ["-Xms" + IntToString(config.minMemory) + "m"];
    }
    if config.maxMemory != 0 {
      jvm := jvm + ["-Xmx" + IntToString(config.maxMemory) + "m"];
    }
  }

  /** `Start` once the client is in place. */
  method StartGame(disk: Disk, inst: Instance, meta: GenMeta, classpath: seq<string>, options: StartOptions,
                   goos: string, env: Env) returns (err: Option<string>)
    modifies disk
    ensures err == StartedAfter(old(disk.State()), inst, meta, classpath, options, goos, env).err
    ensures disk.State() == StartedAfter(old(disk.State()), inst, meta, classpath, options, goos, env).fs
  {
    var libraries := classpath + [ClientJar(inst)];
    var jvm := JvmPrefix(Join(libraries, ":"), goos, inst.config);
    var fabric: Option<GenFabricMeta> := None;
    if inst.modLoader == "fabric" {
      var fabricMeta := InternalRun.ReadThroughFile(disk, PathJoin(inst.dir, "fabric.json"), env.decodeLoader,
                                                    ZeroFabricMeta, env.loaderMeta(inst.gameVersion), env.encodeLoader);
      if fabricMeta.Err? {
        return Some(fabricMeta.error);
      }
      jvm := jvm + fabricMeta.value.jvm + [fabricMeta.value.mainClass];
      fabric := Some(fabricMeta.value);
    } else {
      jvm := jvm + [meta.mainClass];
    }
    assert jvm == JvmArgs(Join(libraries, ":"), goos, inst.config, meta, fabric);
    var game := GameArgs(inst, env.rootDir, meta, options);
    err := env.run(Command(inst.config.java, jvm + game, inst.dir));
  }

  method Start(disk: Disk, inst: Instance, classpath: seq<string>, options: StartOptions, goos: string, env: Env)
    returns (err: Option<string>)
    modifies disk
    ensures err == Started(old(disk.State()), inst, classpath, options, goos, env).err
    ensures disk.State() == Started(old(disk.State()), inst, classpath, options, goos, env).fs
  {
    var meta := Prepare(disk, inst, env);
    if meta.Err? {
      return Some(meta.error);
    }
    err := StartGame(disk, inst, meta.value, classpath, options, goos, env);
  }

  /** The layout of the argument list of `Start`. */
  lemma StartArgsLayout(classPath: string, goos: string, config: InstanceConfig, meta: GenMeta,
                        fabric: Option<GenFabricMeta>, game: seq<string>)
    ensures var args := JvmArgs(classPath, goos, config, meta, fabric) + game;
      var d := if goos == "darwin" then 1 else 0;
      var m := |MemoryFlags(config)|;
      && args[..2] == ["-cp", classPath]
      && (goos == "darwin" ==> args[2] == "-XstartOnFirstThread")
      && args[2 + d..2 + d + m] == MemoryFlags(config)
      && (fabric.None? ==> args[2 + d + m] == meta.mainClass)
      && args[|args| - |game|..] == game
  {
    var flag: seq<string> := if goos == "darwin" then ["-XstartOnFirstThread"] else [];
    var tail := if fabric.Some? then fabric.value.jvm + [fabric.value.mainClass] else [meta.mainClass];
    var jvm := JvmArgs(classPath, goos, config, meta, fabric);
    assert jvm == ["-cp", classPath] + flag + MemoryFlags(config) + tail;
    var args := jvm + game;
    var pre := ["-cp", classPath] + flag;
    assert args == pre + MemoryFlags(config) + (tail + game);
    Middle(pre, MemoryFlags(config), tail + game);
    assert args[..2] == pre[..2];
    assert args[|args| - |game|..] == game;
  }

  /** The slices of a sequence in three parts. */
  lemma Middle<T>(a: seq<T>, b: seq<T>, c: seq<T>)
    ensures (a + b + c)[..|a|] == a
    ensures (a + b + c)[|a|..|a| + |b|] == b
  {
  }

  /** The command of `Start`: the configured Java in the instance
      directory; the classpath ends with <dir>/<version>.jar; the macOS flag
      and the memory flags come before the Fabric JVM arguments and main
      class, or the version's main class; the game arguments follow. */
  lemma StartCommand(fs: Fs, inst: Instance, classpath: seq<string>, options: StartOptions, goos: string, env: Env)
    requires Started(fs, inst, classpath, options, goos, env).cmd.Some?
    ensures var cmd := Started(fs, inst, classpath, options, goos, env).cmd.value;
      var meta := Prepared(fs, inst, env).0.value;
      var d := if goos == "darwin" then 1 else 0;
      var m := |MemoryFlags(inst.config)|;
      && cmd.path == inst.config.java && cmd.dir == inst.dir
      && cmd.args[..2] == ["-cp", Join(classpath + [ClientJar(inst)], ":")]
      && (goos == "darwin" ==> cmd.args[2] == "-XstartOnFirstThread")
      && cmd.args[2 + d..2 + d + m] == MemoryFlags(inst.config)
      && (inst.modLoader != "fabric" ==> cmd.args[2 + d + m] == meta.mainClass)
      && cmd.args[|cmd.args| - |GameArgs(inst, env.rootDir, meta, options)|..] == GameArgs(inst, env.rootDir, meta, options)
  {
    var (metaR, fs2) := Prepared(fs, inst, env);
    var meta := metaR.value;
    assert Started(fs, inst, classpath, options, goos, env) == StartedAfter(fs2, inst, meta, classpath, options, goos, env);
    var (fabric, fs3) := if inst.modLoader == "fabric" then FabricMeta(fs2, inst, env) else (Ok(ZeroFabricMeta), fs2);
    var fab := if inst.modLoader == "fabric" then Some(fabric.value) else None;
    var classPath := Join(classpath + [ClientJar(inst)], ":");
    var game := GameArgs(inst, env.rootDir, meta, options);
    assert StartedAfter(fs2, inst, meta, classpath, options, goos, env).cmd.value
        == Command(inst.config.java, JvmArgs(classPath, goos, inst.config, meta, fab) + game, inst.dir);
    StartArgsLayout(classPath, goos, inst.config, meta, fab, game);
  }

  /** A failed client download reaches the caller wrapped twice, once by
      `DownloadClient` and once by `Start`. */
  lemma ClientErrorWrappedTwice(fs: Fs, inst: Instance, classpath: seq<string>, options: StartOptions, goos: string, env: Env)
    requires VersionMeta(fs, inst, env).0.Ok?
    requires var fs1 := VersionMeta(fs, inst, env).1;
      var meta := VersionMeta(fs1, inst, env).0;
      meta.Ok? && env.downloadFile(VersionMeta(fs1, inst, env).1, meta.value.clientURL, ClientJar(inst)).0.Some?
    ensures var fs1 := VersionMeta(fs, inst, env).1;
      var meta := VersionMeta(fs1, inst, env);
      var e := env.downloadFile(meta.1, meta.0.value.clientURL, ClientJar(inst)).0.value;
      Started(fs, inst, classpath, options, goos, env).err
      == Some(Wrapped("failed to download client", Wrapped("failed to download client", e)))
  {
    var fs1 := VersionMeta(fs, inst, env).1;
    var meta := VersionMeta(fs1, inst, env);
    var e := env.downloadFile(meta.1, meta.0.value.clientURL, ClientJar(inst)).0.value;
    assert ClientDownloaded(fs1, inst, env).0 == Some(Wrapped("failed to download client", e));
    assert Prepared(fs, inst, env).0 == Err(Wrapped("failed to download client", Wrapped("failed to download client", e)));
  }
}
