// The Deno generation's installer and launcher (launcher.ts): version and
// loader metadata read through JSON cache files, existence-gated downloads
// of libraries, asset objects and the client jar, and the argument vector
// of the game process.
module DenoLauncher {
  import opened Wrappers
  import opened Strs
  import opened FileSystem
  import opened Web
  import opened DenoFs
  import opened DenoApi
  import opened Process
  import FabricTs
  import MetaMinecraft

  /** The version metadata fields installVersion reads. */
  datatype VersionMeta = VersionMeta(mainClass: string, assetIndex: AssetIndexRef, clientURL: string, libraries: seq<Library>)

  /** A Fabric or Quilt library: a Maven name and a repository base URL. */
  datatype LoaderLibrary = LoaderLibrary(name: string, url: string)

  datatype LoaderMeta = LoaderMeta(mainClass: string, libraries: seq<LoaderLibrary>)

  datatype Auth = Auth(token: string, uuid: string, username: string)

  /** `options`: the loader is "" when none is asked for. */
  datatype VersionOptions = VersionOptions(
    rootDir: string, instanceDir: string, cache: bool, loader: string,
    jvmPath: string, auth: Option<Auth>, offlineUsername: Option<string>)

  /** What installVersion returns. */
  datatype LaunchArgs = LaunchArgs(mainClass: string, assetId: string, client: string, libraries: seq<string>)

  /** The collaborators: the network, the parse of a cache file (None when
      it is not usable), `JSON.stringify` of each value, and the metadata
      fetches of the game and of the two loaders. An asset index is its
      objects in `Object.values` order. */
  datatype Env = Env(
    web: Client,
    parseMeta: Bytes -> Option<VersionMeta>, stringifyMeta: VersionMeta -> Bytes,
    getVersionMeta: string -> Result<VersionMeta>,
    parseLoader: Bytes -> Option<LoaderMeta>, stringifyLoader: LoaderMeta -> Bytes,
    getFabricMeta: string -> Result<LoaderMeta>, getQuiltMeta: string -> Result<LoaderMeta>,
    parseIndex: Bytes -> Option<seq<MetaMinecraft.AssetObject>>, stringifyIndex: seq<MetaMinecraft.AssetObject> -> Bytes,
    decodeIndex: Bytes -> Result<seq<MetaMinecraft.AssetObject>>)

  function MetaCachePath(rootDir: string, version: string): string
  {
    rootDir + "/caches/versions/" + version + ".json"
  }

  /** The loader cache directory: "quilt" for Quilt, "fabric" for any other
      loader name. */
  function LoaderCacheDir(loader: string): (d: string)
    ensures d == "quilt" <==> loader == "quilt"
    ensures d != "quilt" ==> d == "fabric"
  {
    if loader == "quilt" then "quilt" else "fabric"
  }

  function LoaderCachePath(rootDir: string, loader: string, version: string): string
  {
    rootDir + "/caches/" + LoaderCacheDir(loader) + "/" + version + ".json"
  }

  /** The asset index cache has no extension. */
  function AssetCachePath(rootDir: string, id: string): string
  {
    rootDir + "/caches/assets/" + id
  }

  function IndexPath(rootDir: string, id: string): string
  {
    rootDir + "/assets/indexes/" + id + ".json"
  }

  function ClientPath(instanceDir: string, version: string): string
  {
    instanceDir + "/" + version + ".jar"
  }

  /** `readJSONIfExists(path)`: nothing when the file is absent. */
  function ReadJSONIfExists<T>(fs: Fs, path: string, parse: Bytes -> Option<T>): Option<T>
  {
    if path in fs.files then parse(fs.files[path]) else None
  }

  /** A value read from its cache file when there is a usable one and the
      cache may be used; otherwise fetched and saved there. Only that file
      can change. */
  function ReadThrough<T>(fs: Fs, path: string, parse: Bytes -> Option<T>, useCache: bool, fetched: Result<T>, stringify: T -> Bytes): (r: (Result<T>, Fs))
    ensures useCache && ReadJSONIfExists(fs, path, parse).Some? ==> r == (Ok(ReadJSONIfExists(fs, path, parse).value), fs)
    ensures !(useCache && ReadJSONIfExists(fs, path, parse).Some?) ==>
      if fetched.Err? then r == (Err(fetched.error), fs)
      else r.0 == fetched && r.1.files == fs.files[path := stringify(fetched.value)]
    ensures forall q :: q in fs.files && q != path ==> q in r.1.files && r.1.files[q] == fs.files[q]
    ensures fs.dirs <= r.1.dirs
  {
    var cached := ReadJSONIfExists(fs, path, parse);
    if cached.Some? && useCache then (Ok(cached.value), fs)
    else if fetched.Err? then (Err(fetched.error), fs)
    else (fetched, Saved(fs, path, stringify(fetched.value)))
  }

  method ReadThroughFile<T>(disk: Disk, path: string, parse: Bytes -> Option<T>, useCache: bool, fetched: Result<T>, stringify: T -> Bytes) returns (r: Result<T>)
    modifies disk
    ensures (r, disk.State()) == ReadThrough(old(disk.State()), path, parse, useCache, fetched, stringify)
  {
    var cached := if path in disk.files then parse(disk.files[path]) else None;
    if cached.Some? && useCache {
      return Ok(cached.value);
    }
    if fetched.Err? {
      return Err(fetched.error);
    }
    SaveFile(disk, stringify(fetched.value), path);
    return fetched;
  }

  /** Base libraries: from the artifact URL to rootDir/libraries/<path>. */
  function LibraryFetches(libs: seq<Library>, rootDir: string): (r: seq<Fetch>)
    ensures |r| == |libs|
    ensures forall i :: 0 <= i < |libs| ==> r[i] == Fetch(libs[i].url, rootDir + "/libraries/" + libs[i].path)
  {
    seq(|libs|, i requires 0 <= i < |libs| => Fetch(libs[i].url, rootDir + "/libraries/" + libs[i].path))
  }

  /** Loader libraries: the Maven path of the name, fetched from
      `library.url + "/" + path`. */
  function LoaderFetches(libs: seq<LoaderLibrary>, rootDir: string): (r: seq<Fetch>)
    ensures |r| == |libs|
    ensures forall i :: 0 <= i < |libs| ==>
      r[i] == Fetch(libs[i].url + "/" + FabricTs.GetPathFromMaven(libs[i].name), rootDir + "/libraries/" + FabricTs.GetPathFromMaven(libs[i].name))
  {
    seq(|libs|, i requires 0 <= i < |libs| =>
      Fetch(libs[i].url + "/" + FabricTs.GetPathFromMaven(libs[i].name), rootDir + "/libraries/" + FabricTs.GetPathFromMaven(libs[i].name)))
  }

  /** Asset objects: objects/<first two>/<hash> on the resources host and
      under rootDir/assets. */
  function AssetFetches(objects: seq<MetaMinecraft.AssetObject>, rootDir: string): (r: seq<Fetch>)
    ensures |r| == |objects|
    ensures forall i :: 0 <= i < |objects| ==>
      r[i] == Fetch(ResourcesURL + ObjectPath(objects[i].hash), rootDir + "/assets/objects/" + ObjectPath(objects[i].hash))
  {
    seq(|objects|, i requires 0 <= i < |objects| =>
      Fetch(ResourcesURL + ObjectPath(objects[i].hash), rootDir + "/assets/objects/" + ObjectPath(objects[i].hash)))
  }

  function FetchLoaderMeta(env: Env, loader: string, version: string): Result<LoaderMeta>
  {
    if loader == "quilt" then env.getQuiltMeta(version) else env.getFabricMeta(version)
  }

  /** What the first half of installVersion settles: the metadata, the main
      class and the library paths. */
  datatype Prepared = Prepared(meta: VersionMeta, mainClass: string, libraries: seq<string>)

  /** The loader block: without a loader nothing happens; with one, its
      metadata is read through the cache, its main class replaces the
      game's and its library paths follow the base ones. */
  function LoaderStep(fs: Fs, env: Env, version: string, opts: VersionOptions, mainClass: string, base: seq<string>): (r: (Result<(string, seq<string>)>, Fs))
    ensures opts.loader == "" ==> r == (Ok((mainClass, base)), fs)
    ensures opts.loader != "" ==>
      var lm := ReadThrough(fs, LoaderCachePath(opts.rootDir, opts.loader, version), env.parseLoader, opts.cache,
                            FetchLoaderMeta(env, opts.loader, version), env.stringifyLoader).0;
      r.0.Ok? ==> lm.Ok? && r.0.value == (lm.value.mainClass, base + Paths(LoaderFetches(lm.value.libraries, opts.rootDir)))
    ensures forall q :: q in fs.files && q != LoaderCachePath(opts.rootDir, opts.loader, version) ==>
      q in r.1.files && r.1.files[q] == fs.files[q]
  {
    if opts.loader == "" then (Ok((mainClass, base)), fs)
    else
      var (lm, fs1) := ReadThrough(fs, LoaderCachePath(opts.rootDir, opts.loader, version), env.parseLoader, opts.cache,
                                   FetchLoaderMeta(env, opts.loader, version), env.stringifyLoader);
      if lm.Err? then (Err(lm.error), fs1)
      else
        var (libs, fs2) := FetchAll(fs1, env.web, LoaderFetches(lm.value.libraries, opts.rootDir));
        if libs.Err? then (Err(libs.error), fs2)
        else (Ok((lm.value.mainClass, base + libs.value)), fs2)
  }

  /** installVersion up to the loader: metadata through its cache (refetched
      when the cache flag is off), the two directories, then every base
      library. */
  function Prepare(fs: Fs, env: Env, version: string, opts: VersionOptions): (r: (Result<Prepared>, Fs))
    ensures r.0.Ok? ==>
      var p := r.0.value;
      && |p.libraries| >= |p.meta.libraries|
      && p.libraries[..|p.meta.libraries|] == Paths(LibraryFetches(p.meta.libraries, opts.rootDir))
      && (opts.loader == "" ==> p.mainClass == p.meta.mainClass && |p.libraries| == |p.meta.libraries|)
    ensures forall q :: q in fs.files && q != MetaCachePath(opts.rootDir, version) && q != LoaderCachePath(opts.rootDir, opts.loader, version) ==>
      q in r.1.files && r.1.files[q] == fs.files[q]
  {
    var (m, fs1) := ReadThrough(fs, MetaCachePath(opts.rootDir, version), env.parseMeta, opts.cache, env.getVersionMeta(version), env.stringifyMeta);
    if m.Err? then (Err(m.error), fs1)
    else
      var fs2 := fs1.Mkdir(opts.rootDir).Mkdir(opts.instanceDir);
      var (libs, fs3) := FetchAll(fs2, env.web, LibraryFetches(m.value.libraries, opts.rootDir));
      if libs.Err? then (Err(libs.error), fs3)
      else
        var (lo, fs4) := LoaderStep(fs3, env, version, opts, m.value.mainClass, libs.value);
        if lo.Err? then (Err(lo.error), fs4)
        else
          assert (libs.value + Paths(LoaderFetches([], opts.rootDir)))[..|libs.value|] == libs.value;
          (Ok(Prepared(m.value, lo.value.0, lo.value.1)), fs4)
  }

  /** installVersion after the loader: the asset index read through its
      cache whatever the cache flag, every object, the index file when
      absent, then the client jar. */
  function InstalledAfter(fs: Fs, env: Env, version: string, opts: VersionOptions, p: Prepared): (r: (Result<LaunchArgs>, Fs))
    ensures r.0.Ok? ==>
      r.0.value == LaunchArgs(p.mainClass, p.meta.assetIndex.id, ClientPath(opts.instanceDir, version), p.libraries)
    ensures forall q :: q in fs.files && q != AssetCachePath(opts.rootDir, p.meta.assetIndex.id) ==>
      q in r.1.files && r.1.files[q] == fs.files[q]
  {
    var id := p.meta.assetIndex.id;
    var (objects, fs1) := ReadThrough(fs, AssetCachePath(opts.rootDir, id), env.parseIndex, true,
                                      GetAssetData(env.web, p.meta.assetIndex, env.decodeIndex), env.stringifyIndex);
    if objects.Err? then (Err(objects.error), fs1)
    else
      var (done, fs2) := FetchAll(fs1, env.web, AssetFetches(objects.value, opts.rootDir));
      if done.Err? then (Err(done.error), fs2)
      else
        var index := IndexPath(opts.rootDir, id);
        var fs3 := if index in fs2.files || index in fs2.dirs then fs2 else Saved(fs2, index, env.stringifyIndex(objects.value));
        var client := ClientPath(opts.instanceDir, version);
        var (err, fs4) := DenoApi.Fetched(fs3, env.web, p.meta.clientURL, client);
        if err.Some? then (Err(err.value), fs4)
        else (Ok(LaunchArgs(p.mainClass, id, client, p.libraries)), fs4)
  }

  /** The outcome of `installVersion(version, options)`. */
  function Installed(fs: Fs, env: Env, version: string, opts: VersionOptions): (Result<LaunchArgs>, Fs)
  {
    var (p, fs1) := Prepare(fs, env, version, opts);
    if p.Err? then (Err(p.error), fs1) else InstalledAfter(fs1, env, version, opts, p.value)
  }

  method InstallLoader(disk: Disk, env: Env, version: string, opts: VersionOptions, mainClass: string, base: seq<string>)
    returns (r: Result<(string, seq<string>)>)
    modifies disk
    ensures (r, disk.State()) == LoaderStep(old(disk.State()), env, version, opts, mainClass, base)
  {
    if opts.loader == "" {
      return Ok((mainClass, base));
    }
    var lm := ReadThroughFile(disk, LoaderCachePath(opts.rootDir, opts.loader, version), env.parseLoader, opts.cache,
                              FetchLoaderMeta(env, opts.loader, version), env.stringifyLoader);
    if lm.Err? {
      return Err(lm.error);
    }
    var libs := FetchEach(disk, env.web, LoaderFetches(lm.value.libraries, opts.rootDir));
    if libs.Err? {
      return Err(libs.error);
    }
    return Ok((lm.value.mainClass, base + libs.value));
  }

  method PrepareVersion(disk: Disk, env: Env, version: string, opts: VersionOptions) returns (r: Result<Prepared>)
    modifies disk
    ensures (r, disk.State()) == Prepare(old(disk.State()), env, version, opts)
  {
    var m := ReadThroughFile(disk, MetaCachePath(opts.rootDir, version), env.parseMeta, opts.cache, env.getVersionMeta(version), env.stringifyMeta);
    if m.Err? {
      return Err(m.error);
    }
    disk.MkdirAll(opts.rootDir);
    disk.MkdirAll(opts.instanceDir);
    var libs := FetchEach(disk, env.web, LibraryFetches(m.value.libraries, opts.rootDir));
    if libs.Err? {
      return Err(libs.error);
    }
    var lo := InstallLoader(disk, env, version, opts, m.value.mainClass, libs.value);
    if lo.Err? {
      return Err(lo.error);
    }
    return Ok(Prepared(m.value, lo.value.0, lo.value.1));
  }

  method InstallAssetsAndClient(disk: Disk, env: Env, version: string, opts: VersionOptions, p: Prepared) returns (r: Result<LaunchArgs>)
    modifies disk
    ensures (r, disk.State()) == InstalledAfter(old(disk.State()), env, version, opts, p)
  {
    var id := p.meta.assetIndex.id;
    var objects := ReadThroughFile(disk, AssetCachePath(opts.rootDir, id), env.parseIndex, true,
                                   GetAssetData(env.web, p.meta.assetIndex, env.decodeIndex), env.stringifyIndex);
    if objects.Err? {
      return Err(objects.error);
    }
    var done := FetchEach(disk, env.web, AssetFetches(objects.value, opts.rootDir));
    if done.Err? {
      return Err(done.error);
    }
    var index := IndexPath(opts.rootDir, id);
    if !Exists(disk, index) {
      SaveFile(disk, env.stringifyIndex(objects.value), index);
    }
    var client := ClientPath(opts.instanceDir, version);
    var err: Option<string> := None;
    if !Exists(disk, client) {
      err := Download(disk, env.web, p.meta.clientURL, client);
    }
    if err.Some? {
      return Err(err.value);
    }
    return Ok(LaunchArgs(p.mainClass, id, client, p.libraries));
  }

  /** `installVersion(version, options)`. */
  method InstallVersion(disk: Disk, env: Env, version: string, opts: VersionOptions) returns (r: Result<LaunchArgs>)
    modifies disk
    ensures (r, disk.State()) == Installed(old(disk.State()), env, version, opts)
  {
    var p := PrepareVersion(disk, env, version, opts);
    if p.Err? {
      return Err(p.error);
    }
    r := InstallAssetsAndClient(disk, env, version, opts, p.value);
  }

  /** An install never overwrites a file other than its three cache files:
      every library, object, index and client already on disk is kept as
      it is. */
  lemma InstallKeepsFiles(fs: Fs, env: Env, version: string, opts: VersionOptions, q: string)
    requires q in fs.files
    requires q != MetaCachePath(opts.rootDir, version) && q != LoaderCachePath(opts.rootDir, opts.loader, version)
    requires forall id :: q != AssetCachePath(opts.rootDir, id)
    ensures q in Installed(fs, env, version, opts).1.files
    ensures Installed(fs, env, version, opts).1.files[q] == fs.files[q]
  {
    var (p, fs1) := Prepare(fs, env, version, opts);
    if p.Ok? {
      assert q != AssetCachePath(opts.rootDir, p.value.meta.assetIndex.id);
    }
  }

  /** With the cache flag on and a usable metadata file, the version
      metadata is not fetched: the game metadata source is never consulted. */
  lemma CachedMetaNotFetched(fs: Fs, env: Env, version: string, opts: VersionOptions, other: string -> Result<VersionMeta>)
    requires opts.cache
    requires ReadJSONIfExists(fs, MetaCachePath(opts.rootDir, version), env.parseMeta).Some?
    ensures Installed(fs, env, version, opts) == Installed(fs, env.(getVersionMeta := other), version, opts)
  {
    var env2 := env.(getVersionMeta := other);
    var path := MetaCachePath(opts.rootDir, version);
    assert ReadThrough(fs, path, env.parseMeta, opts.cache, env.getVersionMeta(version), env.stringifyMeta)
        == ReadThrough(fs, path, env2.parseMeta, opts.cache, env2.getVersionMeta(version), env2.stringifyMeta);
    forall fs1: Fs, mainClass: string, base: seq<string>
      ensures LoaderStep(fs1, env, version, opts, mainClass, base) == LoaderStep(fs1, env2, version, opts, mainClass, base)
    {
    }
    assert Prepare(fs, env, version, opts) == Prepare(fs, env2, version, opts);
    forall fs1: Fs, p: Prepared
      ensures InstalledAfter(fs1, env, version, opts, p) == InstalledAfter(fs1, env2, version, opts, p)
    {
    }
  }

  /** The asset index cache ignores the cache flag: a usable cached index is
      used even when the flag is off, and the fetched index is never
      decoded. */
  lemma AssetIndexIgnoresCacheFlag(fs: Fs, env: Env, version: string, opts: VersionOptions, p: Prepared, decode: Bytes -> Result<seq<MetaMinecraft.AssetObject>>)
    requires ReadJSONIfExists(fs, AssetCachePath(opts.rootDir, p.meta.assetIndex.id), env.parseIndex).Some?
    ensures InstalledAfter(fs, env, version, opts, p) == InstalledAfter(fs, env.(decodeIndex := decode), version, opts, p)
    ensures InstalledAfter(fs, env, version, opts, p) == InstalledAfter(fs, env, version, opts.(cache := !opts.cache), p)
  {
  }

  /** `[client, ...libraries].join(":")`. */
  function ClassPath(args: LaunchArgs): string
  {
    Join([args.client] + args.libraries, ":")
  }

  function JvmArgs(args: LaunchArgs, goos: string): (r: seq<string>)
    ensures |r| == if goos == "darwin" then 3 else 2
    ensures r[..2] == ["-cp", ClassPath(args)]
    ensures goos == "darwin" ==> r[2] == "-XstartOnFirstThread"
  {
    ["-cp", ClassPath(args)] + (if goos == "darwin" then ["-XstartOnFirstThread"] else [])
  }

  /** The player name: the account's, else the offline name, else
      "Player<n>" for a random n below 100. */
  function Username(opts: VersionOptions, roll: nat): string
  {
    if opts.auth.Some? then opts.auth.value.username
    else if opts.offlineUsername.Some? then opts.offlineUsername.value
    else "Player" + NatToString(roll)
  }

  /** The game arguments; the version argument is always empty. */
  function GameArgs(args: LaunchArgs, opts: VersionOptions, uuid: string, roll: nat): (r: seq<string>)
    ensures |r| == 12
  {
    ["--version", "",
     "--accessToken", if opts.auth.Some? then opts.auth.value.token else "a",
     "--uuid", if opts.auth.Some? then opts.auth.value.uuid else uuid,
     "--username", Username(opts, roll),
     "--assetsDir", opts.rootDir + "/assets",
     "--assetIndex", args.assetId]
  }

  /** The process `run(meta, options)` starts, given the host OS, a random
      UUID and a random number below 100. */
  function Run(args: LaunchArgs, opts: VersionOptions, goos: string, uuid: string, roll: nat): Command
    requires roll < 100
  {
    Command(opts.jvmPath, JvmArgs(args, goos) + [args.mainClass] + GameArgs(args, opts, uuid, roll), opts.instanceDir)
  }

  /** The argument vector: class path first, then the darwin flag, the main
      class, and the game arguments with their defaults. */
  lemma RunLayout(args: LaunchArgs, opts: VersionOptions, goos: string, uuid: string, roll: nat)
    requires roll < 100
    ensures var cmd := Run(args, opts, goos, uuid, roll);
      var k := if goos == "darwin" then 3 else 2;
      && cmd.path == opts.jvmPath && cmd.dir == opts.instanceDir
      && |cmd.args| == k + 13
      && cmd.args[0] == "-cp" && cmd.args[1] == Join([args.client] + args.libraries, ":")
      && (goos == "darwin" ==> cmd.args[2] == "-XstartOnFirstThread")
      && cmd.args[k] == args.mainClass
      && cmd.args[k + 2] == ""
      && cmd.args[k + 4] == (if opts.auth.Some? then opts.auth.value.token else "a")
      && cmd.args[k + 6] == (if opts.auth.Some? then opts.auth.value.uuid else uuid)
      && cmd.args[k + 8] == Username(opts, roll)
      && cmd.args[k + 12] == args.assetId
  {
    var jvm := JvmArgs(args, goos);
    var k := |jvm|;
    var cmd := Run(args, opts, goos, uuid, roll);
    assert cmd.args == jvm + ([args.mainClass] + GameArgs(args, opts, uuid, roll));
    assert cmd.args[..k] == jvm;
  }

  /** The player name prefers the account, then the offline name, and falls
      back to a generated "Player<n>" only when both are missing. */
  lemma UsernameFallback(opts: VersionOptions, roll: nat)
    requires roll < 100
    ensures opts.auth.None? && opts.offlineUsername.None? ==> HasPrefix(Username(opts, roll), "Player")
    ensures opts.auth.Some? ==> Username(opts, roll) == opts.auth.value.username
    ensures opts.auth.None? && opts.offlineUsername.Some? ==> Username(opts, roll) == opts.offlineUsername.value
  {
    if opts.auth.None? && opts.offlineUsername.None? {
      assert Username(opts, roll)[..6] == "Player";
    }
  }
}
