// Preparing and starting an instance in the current Go launcher
// (pkg/launcher/launcher.go): the merged metadata of the instance's loader,
// the download list (missing libraries, assets, a Java runtime when none is
// configured), the classpath, the game and JVM arguments, and the final
// command line. Downloads, post processors, the library filter, the asset
// index and the Java manifest are given as collaborators.
module LauncherPrepare {
  import opened Wrappers
  import opened Process
  import opened Strs
  import opened FileSystem
  import opened MetaMinecraft
  import opened LauncherLoader
  import Network
  import MetaFabric
  import MetaForge
  import MetaAll
  import MetaForgeProcessors
  import LauncherInstance

  /** The fields of the authentication session the launcher passes on. */
  datatype Session = Session(username: string, accessToken: string, uuid: string)

  /** The configuration fields `Prepare` and `createArgs` read. */
  datatype LaunchConfig = LaunchConfig(width: int, height: int, java: string, javaArgs: string,
                                       customJar: string, minMemory: int, maxMemory: int)

  datatype LaunchOptions = LaunchOptions(session: Session, config: LaunchConfig, quickPlayServer: string,
                                         demo: bool, disableMultiplayer: bool, disableChat: bool,
                                         skipAssets: bool, skipLibraries: bool)

  datatype LaunchEnvironment = LaunchEnvironment(gameDir: string, java: string, mainClass: string,
                                                 classpath: seq<string>, javaArgs: seq<string>, gameArgs: seq<string>)

  // ---------------------------------------------------------------------
  // Launch

  /** What `os.Stat` reports of the Java path. */
  datatype FileInfo = FileInfo(mode: nat, isDir: bool)

  /** Some execute bit (mode & 0111) is set. */
  predicate Executable(mode: nat)
  {
    mode % 2 == 1 || (mode / 8) % 2 == 1 || (mode / 64) % 2 == 1
  }

  /** The argument vector: JVM arguments, the classpath, the main class,
      then the game arguments. */
  function Argv(env: LaunchEnvironment, goos: string): seq<string>
  {
    env.javaArgs + ["-cp", Join(env.classpath, ListSeparator(goos)), env.mainClass] + env.gameArgs
  }

  /** `Launch`: `info` is the outcome of `os.Stat` of the Java path and
      `runner` what running a command reports. */
  function Launch(env: LaunchEnvironment, info: Option<FileInfo>, goos: string, runner: Runner)
    : (err: Option<string>)
    ensures info.None? ==> err == Some("java executable does not exist")
    ensures info.Some? && (!Executable(info.value.mode) || info.value.isDir) ==> err == Some("java binary is not executable")
    ensures info.Some? && Executable(info.value.mode) && !info.value.isDir ==>
      err == runner(Command(env.java, Argv(env, goos), env.gameDir))
  {
    if info.None? then Some("java executable does not exist")
    else if !Executable(info.value.mode) || info.value.isDir then Some("java binary is not executable")
    else runner(Command(env.java, Argv(env, goos), env.gameDir))
  }

  /** The classpath argument sits right after the JVM arguments, followed by
      the main class, and the game arguments close the vector. */
  lemma ArgvLayout(env: LaunchEnvironment, goos: string)
    ensures var argv := Argv(env, goos);
      var n := |env.javaArgs|;
      && |argv| == n + 3 + |env.gameArgs|
      && argv[..n] == env.javaArgs
      && argv[n] == "-cp" && argv[n + 1] == Join(env.classpath, ListSeparator(goos)) && argv[n + 2] == env.mainClass
      && argv[n + 3..] == env.gameArgs
  {
    var argv := Argv(env, goos);
    var n := |env.javaArgs|;
    assert argv[..n] == env.javaArgs;
    assert argv[n + 3..] == env.gameArgs;
  }

  // ---------------------------------------------------------------------
  // Arguments

  /** The string elements of an arguments list, in order. */
  function StringArgs(args: seq<ArgValue>): (r: seq<string>)
    ensures |r| <= |args|
    ensures forall s :: s in r <==> StringArg(s) in args
  {
    if |args| == 0 then []
    else
      var rest := StringArgs(args[..|args| - 1]);
      assert forall a :: a in args <==> a in args[..|args| - 1] || a == args[|args| - 1];
      match args[|args| - 1]
      case StringArg(s) => rest + [s]
      case RuleArg => rest
  }

  /** A JVM argument with its templates filled in. */
  function Substituted(arg: string, versionID: string, librariesDir: string, goos: string): string
  {
    var a := ReplaceAll(arg, "${version_name}", versionID);
    var b := ReplaceAll(a, "${library_directory}", librariesDir);
    ReplaceAll(b, "${classpath_separator}", ListSeparator(goos))
  }

  function SubstitutedAll(args: seq<string>, versionID: string, librariesDir: string, goos: string): (r: seq<string>)
    ensures |r| == |args|
    ensures forall k :: 0 <= k < |args| ==> r[k] == Substituted(args[k], versionID, librariesDir, goos)
  {
    seq(|args|, k requires 0 <= k < |args| => Substituted(args[k], versionID, librariesDir, goos))
  }

  /** The fixed head of the game arguments. */
  function BaseGameArgs(gameDir: string, assetsDir: string, version: VersionMeta, options: LaunchOptions): (r: seq<string>)
    ensures |r| == 20
  {
    ["--username", options.session.username,
     "--accessToken", options.session.accessToken,
     "--userType", "msa",
     "--gameDir", gameDir,
     "--assetsDir", assetsDir,
     "--assetIndex", version.assetIndex.id,
     "--version", version.id,
     "--versionType", version.versionType,
     "--width", IntToString(options.config.width),
     "--height", IntToString(options.config.height)]
  }

  /** The optional game flags, in the order they are added. */
  function OptionalGameArgs(options: LaunchOptions): seq<string>
  {
    (if options.quickPlayServer != "" then ["--quickPlayMultiplayer", options.quickPlayServer] else [])
    + (if options.session.uuid != "" then ["--uuid", options.session.uuid] else [])
    + (if options.demo then ["--demo"] else [])
    + (if options.disableChat then ["--disableChat"] else [])
    + (if options.disableMultiplayer then ["--disableMultiplayer"] else [])
  }

  /** The JVM flags that come before the version's own JVM arguments. */
  function JavaFlags(goos: string, options: LaunchOptions): seq<string>
  {
    (if goos == "darwin" then ["-XstartOnFirstThread"] else [])
    + (if options.config.minMemory != 0 then ["-Xms" + IntToString(options.config.minMemory) + "m"] else [])
    + (if options.config.maxMemory != 0 then ["-Xmx" + IntToString(options.config.maxMemory) + "m"] else [])
    + (if options.config.javaArgs != "" then Split(options.config.javaArgs, ' ') else [])
  }

  /** The optional game flags, appended in the order they are checked. */
  method OptionalFlags(options: LaunchOptions) returns (extra: seq<string>)
    ensures extra == OptionalGameArgs(options)
  {
    extra := [];
    if options.quickPlayServer != "" {
      extra := extra + ["--quickPlayMultiplayer", options.quickPlayServer];
    }
    if options.session.uuid != "" {
      extra := extra + ["--uuid", options.session.uuid];
    }
    if options.demo {
      extra := extra + ["--demo"];
    }
    if options.disableChat {
      extra := extra + ["--disableChat"];
    }
    if options.disableMultiplayer {
      extra := extra + ["--disableMultiplayer"];
    }
  }

  /** The game flags of the options: the fixed head, then the optional
      flags. */
  method GameFlags(gameDir: string, assetsDir: string, version: VersionMeta, options: LaunchOptions)
    returns (game: seq<string>)
    ensures game == BaseGameArgs(gameDir, assetsDir, version, options) + OptionalGameArgs(options)
  {
    var extra := OptionalFlags(options);
    game := BaseGameArgs(gameDir, assetsDir, version, options) + extra;
  }

  /** The string entries of an arguments list appended to `prefix`; other
      entries are dropped. */
  method AppendStrings(prefix: seq<string>, args: seq<ArgValue>) returns (r: seq<string>)
    ensures r == prefix + StringArgs(args)
  {
    r := prefix;
    for i := 0 to |args|
      invariant r == prefix + StringArgs(args[..i])
    {
      assert args[..i + 1][..i] == args[..i];
      if args[i].StringArg? {
        r := r + [args[i].s];
      }
    }
    assert args[..|args|] == args;
  }

  /** The launcher's JVM flags, appended in the order they are checked. */
  method JavaFlagArgs(goos: string, options: LaunchOptions) returns (java: seq<string>)
    ensures java == JavaFlags(goos, options)
  {
    java := [];
    if goos == "darwin" {
      java := java + ["-XstartOnFirstThread"];
    }
    if options.config.minMemory != 0 {
      java := java + ["-Xms" + IntToString(options.config.minMemory) + "m"];
    }
    if options.config.maxMemory != 0 {
      java := java + ["-Xmx" + IntToString(options.config.maxMemory) + "m"];
    }
    if options.config.javaArgs != "" {
      java := java + Split(options.config.javaArgs, ' ');
    }
  }

  /** The filled-in string entries of a JVM arguments list, built the way
      the loop builds them: one entry at a time from the front. */
  function JvmArgs(args: seq<ArgValue>, versionID: string, librariesDir: string, goos: string): seq<string>
  {
    if |args| == 0 then []
    else
      JvmArgs(args[..|args| - 1], versionID, librariesDir, goos)
      + (match args[|args| - 1]
         case StringArg(s) => [Substituted(s, versionID, librariesDir, goos)]
         case RuleArg => [])
  }

  /** Filling in entry by entry is filling in the string entries. */
  lemma {:induction false} JvmArgsAll(args: seq<ArgValue>, versionID: string, librariesDir: string, goos: string)
    ensures JvmArgs(args, versionID, librariesDir, goos) == SubstitutedAll(StringArgs(args), versionID, librariesDir, goos)
  {
    if |args| > 0 {
      var init := args[..|args| - 1];
      JvmArgsAll(init, versionID, librariesDir, goos);
      var done := StringArgs(init);
      if args[|args| - 1].StringArg? {
        var x := args[|args| - 1].s;
        assert StringArgs(args) == done + [x];
        var lhs := SubstitutedAll(done + [x], versionID, librariesDir, goos);
        var rhs := SubstitutedAll(done, versionID, librariesDir, goos) + [Substituted(x, versionID, librariesDir, goos)];
        assert |lhs| == |rhs|;
        assert forall k :: 0 <= k < |lhs| ==> lhs[k] == rhs[k];
      }
    }
  }

  /** The string entries of the version's JVM arguments, templates filled
      in, appended to `prefix`. */
  method AppendJvmArgs(prefix: seq<string>, librariesDir: string, goos: string, version: VersionMeta)
    returns (java: seq<string>)
    ensures java == prefix + SubstitutedAll(StringArgs(version.jvm), version.id, librariesDir, goos)
  {
    var jvm := version.jvm;
    java := prefix;
    for i := 0 to |jvm|
      invariant java == prefix + JvmArgs(jvm[..i], version.id, librariesDir, goos)
    {
      assert jvm[..i + 1][..i] == jvm[..i];
      if jvm[i].StringArg? {
        java := java + [Substituted(jvm[i].s, version.id, librariesDir, goos)];
      }
    }
    assert jvm[..|jvm|] == jvm;
    JvmArgsAll(jvm, version.id, librariesDir, goos);
  }

  /** `createArgs`. */
  method CreateArgs(gameDir: string, assetsDir: string, librariesDir: string, goos: string,
                    version: VersionMeta, options: LaunchOptions)
    returns (java: seq<string>, game: seq<string>)
    ensures game == BaseGameArgs(gameDir, assetsDir, version, options) + OptionalGameArgs(options) + StringArgs(version.game)
    ensures java == JavaFlags(goos, options) + SubstitutedAll(StringArgs(version.jvm), version.id, librariesDir, goos)
  {
    game := GameFlags(gameDir, assetsDir, version, options);
    game := AppendStrings(game, version.game);
    java := JavaFlagArgs(goos, options);
    java := AppendJvmArgs(java, librariesDir, goos, version);
  }

  function Count(b: bool, n: nat): nat
  {
    if b then n else 0
  }

  /** The optional game flags appear in a fixed order, each exactly when its
      option is set: the quick-play server, the UUID (only a non-empty one),
      demo mode, no chat, no multiplayer. */
  lemma GameArgsLayout(options: LaunchOptions)
    ensures var opt := OptionalGameArgs(options);
      var q := Count(options.quickPlayServer != "", 2);
      var u := Count(options.session.uuid != "", 2);
      var d := Count(options.demo, 1);
      var c := Count(options.disableChat, 1);
      && |opt| == q + u + d + c + Count(options.disableMultiplayer, 1)
      && (options.quickPlayServer != "" ==> opt[..2] == ["--quickPlayMultiplayer", options.quickPlayServer])
      && (options.session.uuid != "" ==> opt[q..q + 2] == ["--uuid", options.session.uuid])
      && (options.demo ==> opt[q + u] == "--demo")
      && (options.disableChat ==> opt[q + u + d] == "--disableChat")
      && (options.disableMultiplayer ==> opt[q + u + d + c] == "--disableMultiplayer")
  {
    var q := if options.quickPlayServer != "" then ["--quickPlayMultiplayer", options.quickPlayServer] else [];
    var u := if options.session.uuid != "" then ["--uuid", options.session.uuid] else [];
    var d := if options.demo then ["--demo"] else [];
    var c := if options.disableChat then ["--disableChat"] else [];
    var m := if options.disableMultiplayer then ["--disableMultiplayer"] else [];
    var opt := OptionalGameArgs(options);
    assert opt == q + u + d + c + m;
    assert opt[..|q|] == q;
    assert opt[|q|..|q| + |u|] == u;
  }

  /** The launcher's JVM flags, in order and each exactly when it applies:
      -XstartOnFirstThread on macOS only, the initial and maximum heap when
      non-zero, then the user's arguments split on single spaces. */
  lemma JavaFlagsLayout(goos: string, options: LaunchOptions)
    ensures var flags := JavaFlags(goos, options);
      var d := Count(goos == "darwin", 1);
      var lo := Count(options.config.minMemory != 0, 1);
      var hi := Count(options.config.maxMemory != 0, 1);
      var user := if options.config.javaArgs != "" then Split(options.config.javaArgs, ' ') else [];
      && |flags| == d + lo + hi + |user|
      && (goos == "darwin" ==> flags[0] == "-XstartOnFirstThread")
      && (options.config.minMemory != 0 ==> flags[d] == "-Xms" + IntToString(options.config.minMemory) + "m")
      && (options.config.maxMemory != 0 ==> flags[d + lo] == "-Xmx" + IntToString(options.config.maxMemory) + "m")
      && flags[d + lo + hi..] == user
  {
    var dar := if goos == "darwin" then ["-XstartOnFirstThread"] else [];
    var xms := if options.config.minMemory != 0 then ["-Xms" + IntToString(options.config.minMemory) + "m"] else [];
    var xmx := if options.config.maxMemory != 0 then ["-Xmx" + IntToString(options.config.maxMemory) + "m"] else [];
    var user := if options.config.javaArgs != "" then Split(options.config.javaArgs, ' ') else [];
    var flags := JavaFlags(goos, options);
    assert flags == dar + xms + xmx + user;
    assert flags[|dar| + |xms| + |xmx|..] == user;
  }

  // ---------------------------------------------------------------------
  // fetchVersion

  /** `fetchVersion`: the base game's metadata merged with that of the
      instance's loader; vanilla and unknown loaders merge Go's zero value. */
  function FetchVersion(loader: Loader, gameVersion: string, loaderVersion: string,
                        base: string -> Result<VersionMeta>, f: MetaAll.Fetchers): (r: Result<VersionMeta>)
    ensures base(gameVersion).Err? ==> r == Err(Wrapped("retrieve version metadata", base(gameVersion).error))
  {
    var version := base(gameVersion);
    if version.Err? then Err(Wrapped("retrieve version metadata", version.error))
    else
      var id := version.value.id;
      var loaderMeta :=
        if loader == LoaderFabric then
          (match f.fabricMeta(MetaFabric.Fabric, id, loaderVersion)
           case Ok(m) => Ok(m)
           case Err(e) => Err(Wrapped("retrieve fabric metadata", e)))
        else if loader == LoaderQuilt then
          (match f.fabricMeta(MetaFabric.Quilt, id, loaderVersion)
           case Ok(m) => Ok(m)
           case Err(e) => Err(Wrapped("retrieve quilt metadata", e)))
        else if loader == LoaderNeoForge then
          ForgeStyle(id, loaderVersion, f.neoforgeVersion, MetaForge.Neoforge, f.forgeMeta, "neoforge")
        else if loader == LoaderForge then
          ForgeStyle(id, loaderVersion, f.forgeVersion, MetaForge.Forge, f.forgeMeta, "forge")
        else Ok(ZeroMeta);
      if loaderMeta.Err? then Err(loaderMeta.error)
      else Ok(Merged(version.value, loaderMeta.value))
  }

  /** A Forge-style loader: "latest" is first resolved for the base id. */
  function ForgeStyle(id: string, loaderVersion: string, resolve: string -> Result<string>, flavor: MetaForge.Flavor,
                      fetch: (MetaForge.Flavor, string) -> Result<VersionMeta>, name: string): Result<VersionMeta>
  {
    var version := if loaderVersion == "latest" then resolve(id) else Ok(loaderVersion);
    if version.Err? then Err(Wrapped("retrieve " + name + " version", version.error))
    else
      match fetch(flavor, version.value)
      case Err(e) => Err(Wrapped("retrieve " + name + " metadata", e))
      case Ok(m) => Ok(m)
  }

  /** The loader of internal/meta/all.go a loader name stands for. */
  function AllLoader(loader: Loader): MetaAll.Loader
  {
    if loader == LoaderVanilla then MetaAll.Vanilla
    else if loader == LoaderFabric then MetaAll.Fabric
    else if loader == LoaderQuilt then MetaAll.Quilt
    else if loader == LoaderNeoForge then MetaAll.NeoForge
    else if loader == LoaderForge then MetaAll.Forge
    else MetaAll.Other(loader)
  }

  /** `fetchVersion` and `FetchAllVersionMeta` agree: they fail together
      and, when they succeed, produce the same merged metadata; only their
      error texts differ. */
  lemma FetchVersionAgreesWithAll(loader: Loader, gameVersion: string, loaderVersion: string,
                                  base: string -> Result<VersionMeta>, f: MetaAll.Fetchers)
    ensures var r := FetchVersion(loader, gameVersion, loaderVersion, base, f);
      var all := MetaAll.FetchAllVersionMeta(AllLoader(loader), loaderVersion, base(gameVersion), f);
      (r.Ok? <==> all.Ok?) && (r.Ok? ==> r.value == all.value)
  {
    if base(gameVersion).Ok? {
      var id := base(gameVersion).value.id;
      if loader == LoaderNeoForge {
        assert MetaAll.LoaderMeta(AllLoader(loader), id, loaderVersion, f)
            == MetaAll.ForgeStyle(id, loaderVersion, f.neoforgeVersion, MetaForge.Neoforge, f.forgeMeta, "NeoForge");
      } else if loader == LoaderForge {
        assert MetaAll.LoaderMeta(AllLoader(loader), id, loaderVersion, f)
            == MetaAll.ForgeStyle(id, loaderVersion, f.forgeVersion, MetaForge.Forge, f.forgeMeta, "Forge");
      }
    }
  }

  // ---------------------------------------------------------------------
  // Prepare

  /** What `Prepare` and `download` report to the watcher. */
  datatype Event =
    | MetadataResolved
    | LibrariesResolved(total: nat)
    | AssetsResolved(total: nat)
    | Downloading(completed: nat, total: nat)

  /** A Java runtime's download entries and symbolic links. */
  datatype JavaDownloads = JavaDownloads(entries: seq<Network.DownloadEntry>, symlinks: map<string, string>)

  /** The collaborators of `Prepare`, each given by what it returns.
      `download` is modelled by `Downloaded` over four of them: the order in
      which ranging over the symbolic links visits them, the outcomes of
      creating a link's directory and the link, and the outcomes of the
      downloads in the order they finish. */
  datatype Collaborators = Collaborators(
    version: Result<VersionMeta>,
    filter: seq<Library> -> (seq<Library>, seq<Library>),
    assetIndex: VersionMeta -> Result<seq<AssetObject>>,
    assetEntries: seq<AssetObject> -> seq<Network.DownloadEntry>,
    javaManifest: string -> Result<JavaDownloads>,
    linkOrder: map<string, string> -> seq<(string, string)>,
    mkdir: string -> Option<string>,
    symlink: (string, string) -> Option<string>,
    results: seq<Network.DownloadEntry> -> seq<Option<string>>,
    processors: (MetaForge.Flavor, string, string) -> Result<seq<MetaForgeProcessors.ForgeProcessor>>,
    postProcess: (LaunchEnvironment, seq<MetaForgeProcessors.ForgeProcessor>) -> Option<string>)

  /** Where the launcher keeps things. */
  datatype Dirs = Dirs(instancesDir: string, librariesDir: string, assetsDir: string, javaDir: string)

  /** The libraries handed to the filter: the client jar joins them only
      when no custom jar replaces it. */
  function LibrariesToFilter(version: VersionMeta, options: LaunchOptions): seq<Library>
  {
    if options.config.customJar == "" then version.libraries + [Client(version)] else version.libraries
  }

  /** The metadata `Prepare` works with from then on. */
  function WithClient(version: VersionMeta, options: LaunchOptions): (v: VersionMeta)
    ensures v.libraries == LibrariesToFilter(version, options)
    ensures v.(libraries := version.libraries) == version
  {
    version.(libraries := LibrariesToFilter(version, options))
  }

  /** Download entries of the libraries, in order. */
  function LibraryEntries(librariesDir: string, libs: seq<Library>): (r: seq<Network.DownloadEntry>)
    ensures |r| == |libs|
    ensures forall k :: 0 <= k < |libs| ==> r[k] == DownloadEntry(librariesDir, libs[k].artifact)
  {
    seq(|libs|, k requires 0 <= k < |libs| => DownloadEntry(librariesDir, libs[k].artifact))
  }

  /** The runtime paths of the libraries that go on the classpath, in
      order. */
  function ClasspathOf(librariesDir: string, libs: seq<Library>): seq<string>
  {
    if |libs| == 0 then []
    else
      var rest := ClasspathOf(librariesDir, libs[..|libs| - 1]);
      var l := libs[|libs| - 1];
      if l.skipOnClasspath then rest else rest + [RuntimePath(librariesDir, l.artifact)]
  }

  /** The finished classpath: installed then required libraries, then the
      custom jar when one is set. */
  function Classpath(librariesDir: string, installed: seq<Library>, required: seq<Library>, customJar: string): seq<string>
  {
    ClasspathOf(librariesDir, installed + required) + (if customJar != "" then [customJar] else [])
  }

  /** The Forge post processors for the loader, and the error context of a
      failed fetch. */
  function Processors(loader: Loader, version: VersionMeta, c: Collaborators): Result<seq<MetaForgeProcessors.ForgeProcessor>>
  {
    if loader == LoaderForge then
      (match c.processors(MetaForge.Forge, version.id, version.loaderID)
       case Ok(p) => Ok(p)
       case Err(e) => Err(Wrapped("fetch forge post processors", e)))
    else if loader == LoaderNeoForge then
      (match c.processors(MetaForge.Neoforge, version.id, version.loaderID)
       case Ok(p) => Ok(p)
       case Err(e) => Err(Wrapped("fetch neoforge post processors", e)))
    else Ok([])
  }

  /** The download list: required libraries (unless skipped), assets
      (unless skipped), then the Java runtime when none is configured. */
  function Downloads(dirs: Dirs, required: seq<Library>, assetEntries: seq<Network.DownloadEntry>,
                     java: Option<JavaDownloads>, options: LaunchOptions): seq<Network.DownloadEntry>
  {
    (if options.skipLibraries then [] else LibraryEntries(dirs.librariesDir, required))
    + (if options.skipAssets then [] else assetEntries)
    + (if java.Some? then java.value.entries else [])
  }

  /** What `Prepare` has settled before it downloads anything: the
      metadata it works with, the filtered libraries, the download list, the
      runtime's links and the Java path. */
  datatype Plan = Plan(version: VersionMeta, installed: seq<Library>, required: seq<Library>,
                       downloads: seq<Network.DownloadEntry>, symlinks: map<string, string>, java: string)

  /** The first half of `Prepare`, up to the download list, and the events
      reported on the way. */
  function Planned(options: LaunchOptions, dirs: Dirs, c: Collaborators): (Result<Plan>, seq<Event>)
  {
    if c.version.Err? then (Err(Wrapped("retrieve metadata", c.version.error)), [])
    else
      var version := WithClient(c.version.value, options);
      var (installed, required) := c.filter(version.libraries);
      var events := [MetadataResolved, LibrariesResolved(|installed| + |required|)];
      var index := c.assetIndex(version);
      if index.Err? then (Err(Wrapped("retrieve asset index", index.error)), events)
      else
        var events := events + [AssetsResolved(|index.value|)];
        var manifest := if options.config.java == "" then Some(c.javaManifest(version.javaComponent)) else None;
        if manifest.Some? && manifest.value.Err? then (Err(Wrapped("fetch java manifest", manifest.value.error)), events)
        else
          var java := if manifest.Some? then Some(manifest.value.value) else None;
          var javaPath := if options.config.java == "" then
              PathJoin(PathJoin(PathJoin(dirs.javaDir, version.javaComponent), "bin"), "java")
            else options.config.java;
          (Ok(Plan(version, installed, required, Downloads(dirs, required, c.assetEntries(index.value), java, options),
                   if java.Some? then java.value.symlinks else map[], javaPath)), events)
  }

  /** The download step of a plan: `download` run on its list and links. */
  function PlanDownloaded(c: Collaborators, plan: Plan): (Option<string>, seq<Event>)
  {
    Downloaded(c.linkOrder(plan.symlinks), c.mkdir, c.symlink, plan.downloads, c.results(plan.downloads))
  }

  /** The second half of `Prepare`: downloads, post processors, arguments
      and classpath. */
  function Finished(inst: LauncherInstance.InstanceData, options: LaunchOptions, dirs: Dirs, goos: string,
                    c: Collaborators, plan: Plan): Result<LaunchEnvironment>
  {
    var version := plan.version;
    var downloadErr := PlanDownloaded(c, plan).0;
    if downloadErr.Some? then Err(Wrapped("download files", downloadErr.value))
    else
      var processors := Processors(inst.stored.loader, version, c);
      if processors.Err? then Err(processors.error)
      else
        var env := LaunchEnvironment(PathJoin(dirs.instancesDir, inst.name), plan.java, version.mainClass, [], [], []);
        var postErr := c.postProcess(env, processors.value);
        if postErr.Some? then Err(Wrapped("run post processors", postErr.value))
        else
          var game := BaseGameArgs(env.gameDir, dirs.assetsDir, version, options) + OptionalGameArgs(options) + StringArgs(version.game);
          var javaArgs := JavaFlags(goos, options) + SubstitutedAll(StringArgs(version.jvm), version.id, dirs.librariesDir, goos);
          Ok(env.(javaArgs := javaArgs, gameArgs := game,
                  classpath := Classpath(dirs.librariesDir, plan.installed, plan.required, options.config.customJar)))
  }

  /** What `Prepare` returns and the events it reports. */
  function Prepared(inst: LauncherInstance.InstanceData, options: LaunchOptions, dirs: Dirs, goos: string, c: Collaborators)
    : (Result<LaunchEnvironment>, seq<Event>)
  {
    var (plan, events) := Planned(options, dirs, c);
    if plan.Err? then (Err(plan.error), events)
    else (Finished(inst, options, dirs, goos, c, plan.value), events + PlanDownloaded(c, plan.value).1)
  }

  /** The download entries of the required libraries, one per library. */
  method RequiredDownloads(librariesDir: string, required: seq<Library>) returns (downloads: seq<Network.DownloadEntry>)
    ensures downloads == LibraryEntries(librariesDir, required)
  {
    downloads := [];
    for i := 0 to |required|
      invariant downloads == LibraryEntries(librariesDir, required[..i])
    {
      downloads := downloads + [DownloadEntry(librariesDir, required[i].artifact)];
    }
    assert required[..|required|] == required;
  }

  /** The classpath loop and the custom jar after it. */
  method FinalizeClasspath(librariesDir: string, installed: seq<Library>, required: seq<Library>, customJar: string)
    returns (classpath: seq<string>)
    ensures classpath == Classpath(librariesDir, installed, required, customJar)
  {
    var all := installed + required;
    classpath := [];
    for i := 0 to |all|
      invariant classpath == ClasspathOf(librariesDir, all[..i])
    {
      assert all[..i + 1][..i] == all[..i];
      if all[i].skipOnClasspath {
        continue;
      }
      classpath := classpath + [RuntimePath(librariesDir, all[i].artifact)];
    }
    assert all[..|all|] == all;
    if customJar != "" {
      classpath := classpath + [customJar];
    }
  }

  /** `Prepare` up to the download list. */
  method PlanLaunch(options: LaunchOptions, dirs: Dirs, c: Collaborators) returns (r: Result<Plan>, events: seq<Event>)
    ensures (r, events) == Planned(options, dirs, c)
  {
    events := [];
    var downloads: seq<Network.DownloadEntry> := [];
    if c.version.Err? {
      return Err(Wrapped("retrieve metadata", c.version.error)), events;
    }
    var version := c.version.value;
    var java := options.config.java;
    events := events + [MetadataResolved];

    if options.config.customJar == "" {
      version := version.(libraries := version.libraries + [Client(version)]);
    }
    assert version == WithClient(c.version.value, options);
    var libs := c.filter(version.libraries);
    var installedLibs, requiredLibs := libs.0, libs.1;
    if !options.skipLibraries {
      downloads := RequiredDownloads(dirs.librariesDir, requiredLibs);
    }
    events := events + [LibrariesResolved(|installedLibs| + |requiredLibs|)];
    assert events == [MetadataResolved, LibrariesResolved(|installedLibs| + |requiredLibs|)];

    var assetIndex := c.assetIndex(version);
    if assetIndex.Err? {
      return Err(Wrapped("retrieve asset index", assetIndex.error)), events;
    }
    if !options.skipAssets {
      downloads := downloads + c.assetEntries(assetIndex.value);
    }
    events := events + [AssetsResolved(|assetIndex.value|)];

    var symlinks: map<string, string> := map[];
    ghost var javaDl: Option<JavaDownloads> := None;
    if java == "" {
      var manifest := c.javaManifest(version.javaComponent);
      if manifest.Err? {
        return Err(Wrapped("fetch java manifest", manifest.error)), events;
      }
      downloads := downloads + manifest.value.entries;
      symlinks := manifest.value.symlinks;
      javaDl := Some(manifest.value);
      java := PathJoin(PathJoin(PathJoin(dirs.javaDir, version.javaComponent), "bin"), "java");
    }
    assert downloads == Downloads(dirs, requiredLibs, c.assetEntries(assetIndex.value), javaDl, options);
    return Ok(Plan(version, installedLibs, requiredLibs, downloads, symlinks, java)), events;
  }

  /** `Prepare`: `c.version` is the outcome of `fetchVersion` for the
      instance. */
  method Prepare(inst: LauncherInstance.InstanceData, options: LaunchOptions, dirs: Dirs, goos: string, c: Collaborators)
    returns (r: Result<LaunchEnvironment>, events: seq<Event>)
    ensures (r, events) == Prepared(inst, options, dirs, goos, c)
  {
    var plan;
    plan, events := PlanLaunch(options, dirs, c);
    if plan.Err? {
      return Err(plan.error), events;
    }
    var version := plan.value.version;
    var launchEnv := LaunchEnvironment(PathJoin(dirs.instancesDir, inst.name), plan.value.java, version.mainClass, [], [], []);

    var downloadErr, progress := Download(c.linkOrder(plan.value.symlinks), c.mkdir, c.symlink,
                                          plan.value.downloads, c.results(plan.value.downloads));
    events := events + progress;
    if downloadErr.Some? {
      return Err(Wrapped("download files", downloadErr.value)), events;
    }

    var processors: seq<MetaForgeProcessors.ForgeProcessor> := [];
    if inst.stored.loader == LoaderForge {
      var p := c.processors(MetaForge.Forge, version.id, version.loaderID);
      if p.Err? {
        return Err(Wrapped("fetch forge post processors", p.error)), events;
      }
      processors := p.value;
    } else if inst.stored.loader == LoaderNeoForge {
      var p := c.processors(MetaForge.Neoforge, version.id, version.loaderID);
      if p.Err? {
        return Err(Wrapped("fetch neoforge post processors", p.error)), events;
      }
      processors := p.value;
    }
    var postErr := c.postProcess(launchEnv, processors);
    if postErr.Some? {
      return Err(Wrapped("run post processors", postErr.value)), events;
    }

    var javaArgs, gameArgs := CreateArgs(launchEnv.gameDir, dirs.assetsDir, dirs.librariesDir, goos, version, options);
    var classpath := FinalizeClasspath(dirs.librariesDir, plan.value.installed, plan.value.required, options.config.customJar);
    launchEnv := launchEnv.(javaArgs := javaArgs, gameArgs := gameArgs, classpath := classpath);
    return Ok(launchEnv), events;
  }

  // ---------------------------------------------------------------------
  // download

  /** The error of the first symbolic link that cannot be made, visiting
      the links in `links` order; `mkdir` and `symlink` report the outcomes
      of creating a link's directory and the link itself. */
  function LinksError(links: seq<(string, string)>, mkdir: string -> Option<string>,
                      symlink: (string, string) -> Option<string>): (err: Option<string>)
    decreases |links|
  {
    if |links| == 0 then None
    else
      var (link, target) := links[0];
      if mkdir(Dir(link)).Some? then Some(Wrapped("create directory for symlink " + Quote(link), mkdir(Dir(link)).value))
      else if symlink(target, link).Some? then Some(Wrapped("create symlink " + Quote(link), symlink(target, link).value))
      else LinksError(links[1..], mkdir, symlink)
  }

  /** How many results come before the first failure. */
  function Successes(results: seq<Option<string>>): (k: nat)
    ensures k <= |results|
    ensures forall i :: 0 <= i < k ==> results[i].None?
    ensures k < |results| ==> results[k].Some?
  {
    if |results| == 0 then 0
    else if results[0].Some? then 0
    else 1 + Successes(results[1..])
  }

  /** `download`: the links first, then, when there is something to
      download, one progress event per finished download until the first
      failed one, whose error is returned as it is. `results` are the
      downloads' outcomes in the order they finish. */
  function Downloaded(links: seq<(string, string)>, mkdir: string -> Option<string>,
                      symlink: (string, string) -> Option<string>,
                      entries: seq<Network.DownloadEntry>, results: seq<Option<string>>): (Option<string>, seq<Event>)
  {
    var linkErr := LinksError(links, mkdir, symlink);
    if linkErr.Some? then (linkErr, [])
    else if |entries| == 0 then (None, [])
    else
      var k := Successes(results);
      (if k < |results| then results[k] else None,
       seq(k, i requires 0 <= i < k => Downloading(i, |entries|)))
  }

  method Download(links: seq<(string, string)>, mkdir: string -> Option<string>,
                  symlink: (string, string) -> Option<string>,
                  entries: seq<Network.DownloadEntry>, results: seq<Option<string>>)
    returns (err: Option<string>, events: seq<Event>)
    ensures (err, events) == Downloaded(links, mkdir, symlink, entries, results)
  {
    events := [];
    for j := 0 to |links|
      invariant LinksError(links, mkdir, symlink) == LinksError(links[j..], mkdir, symlink)
    {
      assert links[j..][1..] == links[j + 1..];
      var (link, target) := links[j];
      var e := mkdir(Dir(link));
      if e.Some? {
        return Some(Wrapped("create directory for symlink " + Quote(link), e.value)), events;
      }
      e := symlink(target, link);
      if e.Some? {
        return Some(Wrapped("create symlink " + Quote(link), e.value)), events;
      }
    }
    if |entries| > 0 {
      var i := 0;
      while i < |results|
        invariant 0 <= i <= Successes(results)
        invariant events == seq(i, k requires 0 <= k < i => Downloading(k, |entries|))
        decreases |results| - i
      {
        if results[i].Some? {
          return results[i], events;
        }
        events := events + [Downloading(i, |entries|)];
        i := i + 1;
      }
    }
    return None, events;
  }

  /** The progress events count from zero: when every download succeeds,
      the last one reports one download fewer than the total, and no event
      ever reports the whole list as completed. */
  lemma ProgressCountsFromZero(links: seq<(string, string)>, mkdir: string -> Option<string>,
                               symlink: (string, string) -> Option<string>,
                               entries: seq<Network.DownloadEntry>, results: seq<Option<string>>)
    requires LinksError(links, mkdir, symlink).None?
    requires |results| == |entries| > 0
    requires forall i :: 0 <= i < |results| ==> results[i].None?
    ensures var (err, events) := Downloaded(links, mkdir, symlink, entries, results);
      && err.None? && |events| == |entries|
      && events[|events| - 1] == Downloading(|entries| - 1, |entries|)
      && forall e :: e in events ==> e.completed < e.total
  {
    var k := Successes(results);
    if k < |results| {
      assert false;
    }
  }

  /** The classpath holds, in order, the runtime paths of the filtered
      libraries not kept off it, and nothing else. */
  lemma {:induction false} ClasspathOfMembers(librariesDir: string, libs: seq<Library>)
    ensures |ClasspathOf(librariesDir, libs)| <= |libs|
    ensures forall p :: p in ClasspathOf(librariesDir, libs) <==>
      exists k :: 0 <= k < |libs| && !libs[k].skipOnClasspath && p == RuntimePath(librariesDir, libs[k].artifact)
    decreases |libs|
  {
    if |libs| > 0 {
      var init := libs[..|libs| - 1];
      ClasspathOfMembers(librariesDir, init);
      forall p | p in ClasspathOf(librariesDir, libs)
        ensures exists k :: 0 <= k < |libs| && !libs[k].skipOnClasspath && p == RuntimePath(librariesDir, libs[k].artifact)
      {
        if p in ClasspathOf(librariesDir, init) {
          var k :| 0 <= k < |init| && !init[k].skipOnClasspath && p == RuntimePath(librariesDir, init[k].artifact);
          assert libs[k] == init[k];
        }
      }
      forall k | 0 <= k < |libs| && !libs[k].skipOnClasspath
        ensures RuntimePath(librariesDir, libs[k].artifact) in ClasspathOf(librariesDir, libs)
      {
        if k < |init| {
          assert init[k] == libs[k];
        }
      }
    }
  }

  /** A custom jar replaces the client jar: it is the last classpath entry,
      and the client is not handed to the filter. Without one the client is
      the filter's last input. */
  lemma CustomJarReplacesClient(librariesDir: string, installed: seq<Library>, required: seq<Library>,
                                version: VersionMeta, options: LaunchOptions)
    ensures var cp := Classpath(librariesDir, installed, required, options.config.customJar);
      options.config.customJar != "" ==>
        && |cp| > 0 && cp[|cp| - 1] == options.config.customJar
        && LibrariesToFilter(version, options) == version.libraries
    ensures options.config.customJar == "" ==>
      LibrariesToFilter(version, options)[|version.libraries|] == Client(version)
      && Classpath(librariesDir, installed, required, "") == ClasspathOf(librariesDir, installed + required)
  {
    var cp0 := ClasspathOf(librariesDir, installed + required);
    assert cp0 + [] == cp0;
  }

  /** The events: metadata, then the library count (installed plus
      required), then the asset count, each once and in that order as far as
      `Prepare` gets; after them only download progress, one event per
      finished download counted from 0 against the list's length. A
      successful preparation reports one progress event per download
      outcome (none for an empty list), so one per entry when every entry
      reports once. */
  lemma PreparedEvents(inst: LauncherInstance.InstanceData, options: LaunchOptions, dirs: Dirs, goos: string, c: Collaborators)
    requires c.version.Ok?
    ensures var (r, events) := Prepared(inst, options, dirs, goos, c);
      var version := WithClient(c.version.value, options);
      var libs := c.filter(version.libraries);
      && |events| >= 2
      && events[..2] == [MetadataResolved, LibrariesResolved(|libs.0| + |libs.1|)]
      && (c.assetIndex(version).Ok? <==> |events| >= 3)
      && (|events| >= 3 ==> events[2] == AssetsResolved(|c.assetIndex(version).value|))
    ensures var (r, events) := Prepared(inst, options, dirs, goos, c);
      r.Ok? ==>
        var d := Planned(options, dirs, c).0.value.downloads;
        var n := |c.results(d)|;
        && |events| == 3 + (if |d| == 0 then 0 else n)
        && (forall i :: 3 <= i < |events| ==> events[i] == Downloading(i - 3, |d|))
        && (n == |d| ==> |events| == 3 + |d|)
  {
    var (r, events) := Prepared(inst, options, dirs, goos, c);
    var (plan, events0) := Planned(options, dirs, c);
    if plan.Ok? {
      var (err, progress) := PlanDownloaded(c, plan.value);
      assert events == events0 + progress;
      assert |events0| == 3;
      if r.Ok? {
        assert err.None?;
        var d := plan.value.downloads;
        if |d| > 0 {
          assert LinksError(c.linkOrder(plan.value.symlinks), c.mkdir, c.symlink).None?;
          assert Successes(c.results(d)) == |c.results(d)|;
        }
        forall i | 3 <= i < |events|
          ensures events[i] == Downloading(i - 3, |d|)
        {
          assert events[i] == progress[i - 3];
        }
      }
    }
  }

  /** With nothing skipped and a Java path configured, every required
      library is downloaded before any asset, and each entry of the list is
      a required library's or an asset's. */
  lemma DownloadOrder(dirs: Dirs, required: seq<Library>, assetEntries: seq<Network.DownloadEntry>, options: LaunchOptions)
    requires !options.skipLibraries && !options.skipAssets
    ensures var d := Downloads(dirs, required, assetEntries, None, options);
      && d[..|required|] == LibraryEntries(dirs.librariesDir, required)
      && d[|required|..] == assetEntries
    ensures options.skipLibraries ==> Downloads(dirs, required, assetEntries, None, options) == assetEntries
  {
    var d := Downloads(dirs, required, assetEntries, None, options);
    assert d == LibraryEntries(dirs.librariesDir, required) + assetEntries + [];
  }
}
