// Library and asset installation of the earliest Go launcher
// (internal/launcher/resources.go): libraries are admitted when any of their
// rules allows the host, LWJGL is swapped for Maven Central's arm64 jars on
// linux/arm64, the artifacts are downloaded in order; the asset index is
// reused when the cached copy parses, and the objects are fetched with
// failures ignored. The two-argument download of this generation is the
// existence-gated one of internal/util.go; the index fetch is a parameter.
module EarlyResources {
  import opened Wrappers
  import opened Strs
  import opened FileSystem
  import opened Web
  import opened MetaMinecraft
  import opened EarlyLibrary
  import opened Collections
  import EarlyLauncherLibraries
  import GoUtil
  import EarlyAssets

  type Host = EarlyLauncherLibraries.Host

  /** `getPathFromMaven` of this file: every '.' of the group becomes '/',
      as in internal/util.go. */
  function MavenPath(mavenPath: string): (p: string)
    requires |Split(mavenPath, ':')| >= 3
    ensures p == GoUtil.GetPathFromMaven(mavenPath)
  {
    var identifier := Split(mavenPath, ':');
    ReplaceAllChar(identifier[0], '.', '/');
    assert "." == ['.'] && "/" == ['/'];
    var groupID := ReplaceAll(identifier[0], ".", "/");
    var basename := identifier[1] + "-" + identifier[2] + ".jar";
    groupID + "/" + identifier[1] + "/" + identifier[2] + "/" + basename
  }

  /** A rule that allows the host. */
  predicate Matches(r: Rule, goos: string)
  {
    OsName(r.osName) == goos && r.action == "allow"
  }

  /** The host and library for which a matching rule swaps in an arm64
      jar. */
  predicate ArmSwap(host: Host, l: GoLibrary)
  {
    host.goos == "linux" && host.goarch == "arm64" && HasPrefix(l.name, "org.lwjgl")
  }

  /** The arm64 jar: ".jar" turned into "-arm64.jar" in the Mojang path, on
      Maven Central. */
  function ArmArtifact(l: GoLibrary): (a: Artifact)
    ensures a.url == EarlyLauncherLibraries.MavenCentral + a.path
  {
    var path := ReplaceAll(l.downloads.path, ".jar", "-arm64.jar");
    Artifact(path, "", 0, EarlyLauncherLibraries.MavenCentral + path)
  }

  /** The inner loop over a library's rules: whether it is to be installed
      and the arm64 jars collected on the way. */
  function Scan(rules: seq<Rule>, host: Host, l: GoLibrary): (bool, seq<Artifact>)
  {
    if |rules| == 0 then (false, [])
    else
      var (install, swaps) := Scan(rules[..|rules| - 1], host, l);
      var r := rules[|rules| - 1];
      if Matches(r, host.goos) && ArmSwap(host, l) then (false, swaps + [ArmArtifact(l)])
      else if Matches(r, host.goos) then (true, swaps)
      else (install, swaps)
  }

  /** The artifact of an admitted library: a loader library's Maven path
      with the URL glued to it without a separator, or the Mojang
      download. */
  function MainArtifact(l: GoLibrary): (a: Artifact)
    requires WellNamed(l)
    ensures IsFabric(l) ==> a.path == GoUtil.GetPathFromMaven(l.name) && a.url == l.url + a.path
    ensures !IsFabric(l) ==> a == l.downloads
  {
    if l.url != "" then Artifact(MavenPath(l.name), "", 0, l.url + MavenPath(l.name)) else l.downloads
  }

  /** The artifacts one library contributes. */
  function LibraryArtifacts(l: GoLibrary, host: Host): seq<Artifact>
    requires WellNamed(l)
  {
    if |l.rules| == 0 then [MainArtifact(l)]
    else
      var (install, swaps) := Scan(l.rules, host, l);
      swaps + (if install then [MainArtifact(l)] else [])
  }

  /** The artifacts of the libraries, in order. */
  function Artifacts(libs: seq<GoLibrary>, host: Host): seq<Artifact>
    requires EarlyLauncherLibraries.AllWellNamed(libs)
  {
    if |libs| == 0 then []
    else Artifacts(libs[..|libs| - 1], host) + LibraryArtifacts(libs[|libs| - 1], host)
  }

  /** Off the swap, a library with rules is admitted exactly when some rule,
      at any position, allows the host; a disallowing rule never excludes
      it. */
  lemma {:induction false} ScanAnyRule(rules: seq<Rule>, host: Host, l: GoLibrary)
    requires !ArmSwap(host, l)
    ensures Scan(rules, host, l).1 == []
    ensures Scan(rules, host, l).0 <==> exists i :: 0 <= i < |rules| && Matches(rules[i], host.goos)
  {
    if |rules| > 0 {
      var n := |rules| - 1;
      ScanAnyRule(rules[..n], host, l);
      assert forall i :: 0 <= i < n ==> rules[..n][i] == rules[i];
    }
  }

  /** On the swap, the library itself is never installed: each allowing
      rule contributes one arm64 jar instead. */
  lemma {:induction false} ScanSwap(rules: seq<Rule>, host: Host, l: GoLibrary)
    requires ArmSwap(host, l)
    ensures !Scan(rules, host, l).0
    ensures Scan(rules, host, l).1 == seq(|Filter(rules, (r: Rule) => Matches(r, host.goos))|, _ => ArmArtifact(l))
  {
    var p := (r: Rule) => Matches(r, host.goos);
    if |rules| > 0 {
      var n := |rules| - 1;
      ScanSwap(rules[..n], host, l);
      FilterAppend(rules[..n], rules[n], p);
      assert rules[..n] + [rules[n]] == rules;
    }
  }

  /** What one library contributes: its own artifact when it has no rules;
      off the swap, its own artifact exactly when some rule allows the host;
      on the swap, one arm64 jar per allowing rule and never its own
      artifact. */
  lemma LibraryArtifactsCases(l: GoLibrary, host: Host)
    requires WellNamed(l)
    ensures |l.rules| == 0 ==> LibraryArtifacts(l, host) == [MainArtifact(l)]
    ensures |l.rules| > 0 && !ArmSwap(host, l) ==>
      LibraryArtifacts(l, host)
      == (if exists i :: 0 <= i < |l.rules| && Matches(l.rules[i], host.goos) then [MainArtifact(l)] else [])
    ensures |l.rules| > 0 && ArmSwap(host, l) ==>
      LibraryArtifacts(l, host) == seq(|Filter(l.rules, (r: Rule) => Matches(r, host.goos))|, _ => ArmArtifact(l))
  {
    if |l.rules| > 0 {
      if ArmSwap(host, l) {
        ScanSwap(l.rules, host, l);
        var swaps := Scan(l.rules, host, l).1;
        assert swaps + [] == swaps;
      } else {
        ScanAnyRule(l.rules, host, l);
      }
    }
  }

  /** The two rule readings of the early generation differ: a disallowing
      first rule followed by an allowing one admits a library here but not
      in internal/launcher/libraries.go. */
  lemma AnyRuleVersusFirstRule(host: Host, l: GoLibrary)
    requires !ArmSwap(host, l) && OsName(host.goos) == host.goos
    ensures var rules := [Rule("disallow", host.goos), Rule("allow", host.goos)];
      Scan(rules, host, l).0 && !FirstRuleAllows(rules, host.goos)
  {
    var rules := [Rule("disallow", host.goos), Rule("allow", host.goos)];
    ScanAnyRule(rules, host, l);
    assert Matches(rules[1], host.goos);
  }

  /** Where a library artifact is stored: <root>/libraries/<path>. */
  function LibraryPath(rootDir: string, a: Artifact): string
  {
    PathJoin(PathJoin(rootDir, "libraries"), a.path)
  }

  /** The download loop: in order, stopping at the first failure with the
      paths of the downloads before it. */
  function DownloadAll(fs: Fs, web: Client, rootDir: string, arts: seq<Artifact>): (seq<string>, Option<string>, Fs)
    decreases |arts|
  {
    if |arts| == 0 then ([], None, fs)
    else
      var path := LibraryPath(rootDir, arts[0]);
      var (err, fs1) := GoUtil.Download(fs, web, arts[0].url, path);
      if err.Some? then ([], Some(Wrapped("error while downloading libraries", err.value)), fs1)
      else
        var (paths, err2, fs2) := DownloadAll(fs1, web, rootDir, arts[1..]);
        ([path] + paths, err2, fs2)
  }

  /** The inner loop of `installLibraries` over one library's rules. */
  method ScanRules(library: GoLibrary, host: Host) returns (shouldInstall: bool, swaps: seq<Artifact>)
    ensures (shouldInstall, swaps) == Scan(library.rules, host, library)
  {
    shouldInstall := false;
    swaps := [];
    for j := 0 to |library.rules|
      invariant (shouldInstall, swaps) == Scan(library.rules[..j], host, library)
    {
      assert library.rules[..j + 1][..j] == library.rules[..j];
      var rule := library.rules[j];
      var os := ReplaceAll(rule.osName, "osx", "darwin");
      if os == host.goos && rule.action == "allow" {
        shouldInstall := true;
      }
      if os == host.goos && rule.action == "allow" && host.goos == "linux" && host.goarch == "arm64" {
        if HasPrefix(library.name, "org.lwjgl") {
          swaps := swaps + [ArmArtifact(library)];
          shouldInstall := false;
        }
      }
    }
    assert library.rules[..|library.rules|] == library.rules;
  }

  /** The first loop of `installLibraries`: the artifacts to download. */
  method CollectArtifacts(libs: seq<GoLibrary>, host: Host) returns (artifacts: seq<Artifact>)
    requires EarlyLauncherLibraries.AllWellNamed(libs)
    ensures artifacts == Artifacts(libs, host)
  {
    artifacts := [];
    for i := 0 to |libs|
      invariant artifacts == Artifacts(libs[..i], host)
    {
      assert libs[..i + 1][..i] == libs[..i];
      var library := libs[i];
      if |library.rules| > 0 {
        var shouldInstall, swaps := ScanRules(library, host);
        artifacts := artifacts + swaps;
        if !shouldInstall {
          assert swaps + [] == swaps;
          continue;
        }
        artifacts := artifacts + [MainArtifact(library)];
        assert Artifacts(libs[..i] , host) + swaps + [MainArtifact(library)]
            == Artifacts(libs[..i], host) + (swaps + [MainArtifact(library)]);
      } else {
        artifacts := artifacts + [MainArtifact(library)];
      }
    }
    assert libs[..|libs|] == libs;
  }

  /** The download loop of `installLibraries`. */
  method DownloadArtifacts(disk: Disk, web: Client, rootDir: string, artifacts: seq<Artifact>)
    returns (paths: seq<string>, err: Option<string>)
    modifies disk
    ensures (paths, err, disk.State()) == DownloadAll(old(disk.State()), web, rootDir, artifacts)
  {
    paths := [];
    ghost var fs0 := disk.State();
    assert artifacts[0..] == artifacts;
    assert [] + DownloadAll(fs0, web, rootDir, artifacts).0 == DownloadAll(fs0, web, rootDir, artifacts).0;
    for i := 0 to |artifacts|
      invariant var (ps, e, fs) := DownloadAll(disk.State(), web, rootDir, artifacts[i..]);
        DownloadAll(fs0, web, rootDir, artifacts) == (paths + ps, e, fs)
    {
      assert artifacts[i..][1..] == artifacts[i + 1..];
      var path := LibraryPath(rootDir, artifacts[i]);
      var e := GoUtil.DownloadFile(disk, web, artifacts[i].url, path);
      if e.Some? {
        assert paths + [] == paths;
        return paths, Some(Wrapped("error while downloading libraries", e.value));
      }
      ghost var rest := DownloadAll(disk.State(), web, rootDir, artifacts[i + 1..]);
      assert paths + ([path] + rest.0) == paths + [path] + rest.0;
      paths := paths + [path];
    }
    assert paths + [] == paths;
    return paths, None;
  }

  /** `installLibraries`: collect the artifacts, then download them. */
  method InstallLibraries(disk: Disk, web: Client, rootDir: string, host: Host, libs: seq<GoLibrary>)
    returns (paths: seq<string>, err: Option<string>)
    requires EarlyLauncherLibraries.AllWellNamed(libs)
    modifies disk
    ensures (paths, err, disk.State()) == DownloadAll(old(disk.State()), web, rootDir, Artifacts(libs, host))
  {
    var artifacts := CollectArtifacts(libs, host);
    paths, err := DownloadArtifacts(disk, web, rootDir, artifacts);
  }

  /** Downloads run in list order: the paths returned are those of the
      leading artifacts, all of them when there is no error and fewer when
      one failed. */
  lemma {:induction false} DownloadAllPaths(fs: Fs, web: Client, rootDir: string, arts: seq<Artifact>)
    ensures var (paths, err, _) := DownloadAll(fs, web, rootDir, arts);
      && |paths| <= |arts|
      && (forall i :: 0 <= i < |paths| ==> paths[i] == LibraryPath(rootDir, arts[i]))
      && (err.None? <==> |paths| == |arts|)
    decreases |arts|
  {
    if |arts| > 0 {
      var fs1 := GoUtil.Download(fs, web, arts[0].url, LibraryPath(rootDir, arts[0])).1;
      DownloadAllPaths(fs1, web, rootDir, arts[1..]);
    }
  }

  // ---------------------------------------------------------------------
  // Assets

  /** <root>/assets/indexes/<id>.json */
  function IndexPath(rootDir: string, id: string): string
  {
    PathJoin(PathJoin(PathJoin(rootDir, "assets"), "indexes"), id + ".json")
  }

  /** <root>/assets/objects/<hash[:2]>/<hash> */
  function ObjectPath(rootDir: string, hash: string): string
    requires |hash| >= 2
  {
    AssetPath(PathJoin(rootDir, "assets"), hash)
  }

  /** The object loop, that of `downloadAssets` under <root>/assets. */
  function FetchObjects(fs: Fs, web: Client, rootDir: string, objects: seq<AssetObject>): (Option<string>, Fs)
  {
    EarlyAssets.FetchAssets(fs, web, PathJoin(rootDir, "assets"), objects)
  }

  /** Whether the index must be fetched: no cached file, or one that does
      not parse. */
  predicate IndexStale(files: map<string, Bytes>, path: string, parse: Bytes -> Result<seq<AssetObject>>)
  {
    path !in files || parse(files[path]).Err?
  }

  /** What `downloadAssets` returns and leaves on disk. */
  function AssetsOutcome(fs: Fs, web: Client, rootDir: string, index: AssetIndexRef,
                         parse: Bytes -> Result<seq<AssetObject>>, fetchIndex: string -> Result<seq<AssetObject>>)
    : (Option<string>, Fs)
  {
    var path := IndexPath(rootDir, index.id);
    var stale := IndexStale(fs.files, path, parse);
    var objects := if stale then fetchIndex(index.url) else parse(fs.files[path]);
    if objects.Err? then (Some(Wrapped("error while downloading asset index", objects.error)), fs)
    else
      var (panic, fs1) := FetchObjects(fs, web, rootDir, objects.value);
      if panic.Some? then (panic, fs1)
      else if stale then (None, GoUtil.Download(fs1.Remove(path), web, index.url, path).1)
      else (None, fs1)
  }

  /** The object loop of `downloadAssets`: each object fetched in turn,
      stopping at a hash too short to slice. */
  method DownloadObjects(disk: Disk, web: Client, rootDir: string, objects: seq<AssetObject>) returns (panic: Option<string>)
    modifies disk
    ensures (panic, disk.State()) == FetchObjects(old(disk.State()), web, rootDir, objects)
  {
    for i := 0 to |objects|
      invariant FetchObjects(old(disk.State()), web, rootDir, objects) == FetchObjects(disk.State(), web, rootDir, objects[i..])
    {
      assert objects[i..][1..] == objects[i + 1..];
      var hash := objects[i].hash;
      if |hash| < 2 {
        return Some(SlicePanic(hash));
      }
      var _ := GoUtil.DownloadFile(disk, web, AssetURL(hash), ObjectPath(rootDir, hash));
    }
    return None;
  }

  /** `downloadAssets`. */
  method DownloadAssets(disk: Disk, web: Client, rootDir: string, index: AssetIndexRef,
                        parse: Bytes -> Result<seq<AssetObject>>, fetchIndex: string -> Result<seq<AssetObject>>)
    returns (err: Option<string>)
    modifies disk
    ensures (err, disk.State()) == AssetsOutcome(old(disk.State()), web, rootDir, index, parse, fetchIndex)
  {
    var indexPath := IndexPath(rootDir, index.id);
    var objects: seq<AssetObject> := [];
    var downloadAssetIndex := true;
    var data := disk.Read(indexPath);
    if data.Ok? {
      downloadAssetIndex := false;
      var parsed := parse(data.value);
      if parsed.Err? {
        downloadAssetIndex := true;
      } else {
        objects := parsed.value;
      }
    }
    if downloadAssetIndex {
      var fetched := fetchIndex(index.url);
      if fetched.Err? {
        return Some(Wrapped("error while downloading asset index", fetched.error));
      }
      objects := fetched.value;
    }

    var panic := DownloadObjects(disk, web, rootDir, objects);
    if panic.Some? {
      return panic;
    }
    if downloadAssetIndex {
      disk.Remove(indexPath);
      var _ := GoUtil.DownloadFile(disk, web, index.url, indexPath);
    }
    return None;
  }

  /** A download changes no file but its destination. */
  lemma DownloadOthers(fs: Fs, web: Client, url: string, dest: string, q: string)
    requires q != dest
    ensures var fs1 := GoUtil.Download(fs, web, url, dest).1;
      (q in fs1.files <==> q in fs.files) && (q in fs.files ==> fs1.files[q] == fs.files[q])
  {
  }

  /** Object files and index files never coincide. */
  lemma ObjectIsNotIndex(rootDir: string, hash: string, id: string)
    requires |hash| >= 2
    ensures ObjectPath(rootDir, hash) != IndexPath(rootDir, id)
  {
    var k := |rootDir| + |"/assets/"|;
    assert ObjectPath(rootDir, hash)[k] == 'o';
    assert IndexPath(rootDir, id)[k] == 'i';
  }

  /** The object loop never touches the index file. */
  lemma {:induction false} FetchObjectsKeepsIndex(fs: Fs, web: Client, rootDir: string, objects: seq<AssetObject>, id: string)
    ensures var fs1 := FetchObjects(fs, web, rootDir, objects).1;
      var path := IndexPath(rootDir, id);
      (path in fs1.files <==> path in fs.files) && (path in fs.files ==> fs1.files[path] == fs.files[path])
    decreases |objects|
  {
    if |objects| > 0 && |objects[0].hash| >= 2 {
      ObjectIsNotIndex(rootDir, objects[0].hash, id);
      DownloadOthers(fs, web, AssetURL(objects[0].hash), ObjectPath(rootDir, objects[0].hash), IndexPath(rootDir, id));
      var fs1 := GoUtil.Download(fs, web, AssetURL(objects[0].hash), ObjectPath(rootDir, objects[0].hash)).1;
      assert FetchObjects(fs, web, rootDir, objects) == FetchObjects(fs1, web, rootDir, objects[1..]);
      FetchObjectsKeepsIndex(fs1, web, rootDir, objects[1..], id);
    }
  }

  /** A cached index that parses is reused: the index is not fetched and
      its file is left as it was. A stale one is fetched, and afterwards
      the file is removed and downloaded again. No asset download failure
      is ever returned: an error is the index fetch's or a panic. */
  lemma AssetsIndexCache(fs: Fs, web: Client, rootDir: string, index: AssetIndexRef,
                         parse: Bytes -> Result<seq<AssetObject>>, fetchIndex: string -> Result<seq<AssetObject>>,
                         fetchIndex2: string -> Result<seq<AssetObject>>)
    ensures var path := IndexPath(rootDir, index.id);
      var (err, fs1) := AssetsOutcome(fs, web, rootDir, index, parse, fetchIndex);
      && (!IndexStale(fs.files, path, parse) ==>
            && AssetsOutcome(fs, web, rootDir, index, parse, fetchIndex2) == (err, fs1)
            && path in fs1.files && fs1.files[path] == fs.files[path])
      && (IndexStale(fs.files, path, parse) && fetchIndex(index.url).Ok? && err.None? ==>
            fs1 == GoUtil.Download(FetchObjects(fs, web, rootDir, fetchIndex(index.url).value).1.Remove(path), web, index.url, path).1)
      && (err.Some? ==>
            || (IndexStale(fs.files, path, parse) && fetchIndex(index.url).Err?
                && err == Some(Wrapped("error while downloading asset index", fetchIndex(index.url).error)))
            || exists h :: err == Some(SlicePanic(h)))
  {
    var path := IndexPath(rootDir, index.id);
    var stale := IndexStale(fs.files, path, parse);
    var objects := if stale then fetchIndex(index.url) else parse(fs.files[path]);
    if objects.Ok? {
      FetchObjectsKeepsIndex(fs, web, rootDir, objects.value, index.id);
      EarlyAssets.FetchAssetsPanics(fs, web, PathJoin(rootDir, "assets"), objects.value);
    }
  }
}
