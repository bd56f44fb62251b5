// Library handling of the early Go launcher (internal/launcher/libraries.go):
// the artifact and install rule of a library, the Maven Central lookup of the
// linux/arm64 LWJGL builds with its checksum cache, the split into installed
// and required libraries, their runtime paths and their installation.
module EarlyLauncherLibraries {
  import opened Wrappers
  import opened Strs
  import opened FileSystem
  import opened Web
  import opened MetaMinecraft
  import opened EarlyLibrary
  import opened Collections
  import GoUtil

  /** `RuntimeLibrary.RuntimePath`: the artifact's path under the libraries
      directory. */
  function RuntimePathOf(librariesDir: string, l: GoLibrary): (p: string)
    requires WellNamed(l)
    ensures IsFabric(l) ==> p == PathJoin(librariesDir, GoUtil.GetPathFromMaven(l.name))
    ensures !IsFabric(l) ==> p == PathJoin(librariesDir, l.downloads.path)
  {
    RuntimePath(librariesDir, LibraryArtifact(l))
  }

  /** `RuntimeLibrary.IsInstalled`: the artifact's file exists and, when it
      has a checksum, its SHA-1 matches. */
  predicate IsInstalled(files: map<string, Bytes>, sha1: Sha1, librariesDir: string, l: GoLibrary)
    requires WellNamed(l)
  {
    IsDownloaded(files, sha1, librariesDir, LibraryArtifact(l))
  }

  /** The three cases of `IsInstalled`. */
  lemma IsInstalledCases(files: map<string, Bytes>, sha1: Sha1, librariesDir: string, l: GoLibrary)
    requires WellNamed(l)
    ensures RuntimePathOf(librariesDir, l) !in files ==> !IsInstalled(files, sha1, librariesDir, l)
    ensures RuntimePathOf(librariesDir, l) in files && LibraryArtifact(l).sha1 == "" ==> IsInstalled(files, sha1, librariesDir, l)
    ensures RuntimePathOf(librariesDir, l) in files && LibraryArtifact(l).sha1 != "" ==>
      (IsInstalled(files, sha1, librariesDir, l) <==> LibraryArtifact(l).sha1 == HexSha1(sha1, files[RuntimePathOf(librariesDir, l)]))
  {
  }

  const MavenCentral := "https://repo1.maven.org/maven2/"

  /** The checksum of a Maven Central artifact is cached in the caches
      directory under the artifact's file name with ".sha1" appended. */
  function ChecksumCachePath(cachesDir: string, path: string): string
  {
    PathJoin(cachesDir, Base(path) + ".sha1")
  }

  /** The library of a Maven Central path with checksum text `checksum`. */
  function MavenLibrary(name: string, path: string, checksum: Bytes): (l: GoLibrary)
    ensures l.name == name && !IsFabric(l) && l.rules == []
    ensures l.downloads == Artifact(path, RawString(checksum), 0, MavenCentral + path)
  {
    GoLibrary(name, Artifact(path, RawString(checksum), 0, MavenCentral + path), "", "", 0, [])
  }

  /** What `fetchLibraryFromMaven` returns and leaves on disk: a cached
      checksum is used as it is; otherwise "<url>.sha1" is fetched and its
      body, whatever the status, is cached with mode 0644. */
  function MavenLookup(fs: Fs, web: Client, cachesDir: string, name: string, path: string): (Result<GoLibrary>, Fs)
  {
    var cachePath := ChecksumCachePath(cachesDir, path);
    if cachePath in fs.files then (Ok(MavenLibrary(name, path, fs.files[cachePath])), fs)
    else
      var resp := web(MavenCentral + path + ".sha1");
      if resp.Err? then (Err(Wrapped("get Maven library checksum", resp.error)), fs)
      else (Ok(MavenLibrary(name, path, resp.value.body)), fs.WritePerm(cachePath, resp.value.body, 0x1a4))
  }

  /** `fetchLibraryFromMaven`. */
  method FetchLibraryFromMaven(disk: Disk, web: Client, cachesDir: string, name: string, path: string)
    returns (r: Result<GoLibrary>)
    modifies disk
    ensures (r, disk.State()) == MavenLookup(old(disk.State()), web, cachesDir, name, path)
  {
    var url := MavenCentral + path;
    var checksumCachePath := ChecksumCachePath(cachesDir, path);
    var checksum := disk.Read(checksumCachePath);
    if checksum.Err? {
      var resp := web(url + ".sha1");
      if resp.Err? {
        return Err(Wrapped("get Maven library checksum", resp.error));
      }
      disk.WriteFilePerm(checksumCachePath, resp.value.body, 0x1a4);
      return Ok(MavenLibrary(name, path, resp.value.body));
    }
    return Ok(MavenLibrary(name, path, checksum.value));
  }

  /** The checksum is fetched at most once: after a lookup that succeeds,
      a second one sends no request and returns the same library. */
  lemma MavenLookupCached(fs: Fs, web: Client, web2: Client, cachesDir: string, name: string, path: string)
    requires MavenLookup(fs, web, cachesDir, name, path).0.Ok?
    ensures var (r, fs1) := MavenLookup(fs, web, cachesDir, name, path);
      MavenLookup(fs1, web2, cachesDir, name, path) == (r, fs1)
  {
  }

  /** Go's zero `RuntimeLibrary`, which the caller gets when the lookup
      fails. */
  const ZeroLibrary := GoLibrary("", Artifact("", "", 0, ""), "", "", 0, [])

  datatype Host = Host(goos: string, goarch: string)

  predicate Swapped(host: Host, l: GoLibrary)
  {
    host.goos == "linux" && host.goarch == "arm64" && HasPrefix(l.name, "org.lwjgl")
  }

  function AllowedOn(goos: string): GoLibrary -> bool
  {
    (l: GoLibrary) => FirstRuleAllows(l.rules, goos)
  }

  predicate AllWellNamed(libs: seq<GoLibrary>)
  {
    forall i :: 0 <= i < |libs| ==> WellNamed(libs[i])
  }

  /** The library that replaces an admitted one, and the disk after the
      lookup: on linux/arm64 an LWJGL library is looked up on Maven Central
      with "linux" in its path turned into "linux-arm64", its error dropped. */
  function Replacement(fs: Fs, web: Client, cachesDir: string, host: Host, l: GoLibrary): (r: (GoLibrary, Fs))
    ensures WellNamed(l) ==> WellNamed(r.0)
    ensures !Swapped(host, l) ==> r == (l, fs)
  {
    if !Swapped(host, l) then (l, fs)
    else
      var (found, fs1) := MavenLookup(fs, web, cachesDir, l.name, ReplaceAll(l.downloads.path, "linux", "linux-arm64"));
      (if found.Ok? then found.value else ZeroLibrary, fs1)
  }

  /** The installed and required slices and the disk after the loop of
      `filterLibraries`. */
  function Filtered(libs: seq<GoLibrary>, fs: Fs, web: Client, sha1: Sha1, cachesDir: string, librariesDir: string, host: Host)
    : (r: (seq<GoLibrary>, seq<GoLibrary>, Fs))
    requires AllWellNamed(libs)
    ensures forall l :: l in r.0 ==> WellNamed(l)
  {
    if |libs| == 0 then ([], [], fs)
    else
      var (installed, required, fs1) := Filtered(libs[..|libs| - 1], fs, web, sha1, cachesDir, librariesDir, host);
      var l := libs[|libs| - 1];
      if !FirstRuleAllows(l.rules, host.goos) then (installed, required, fs1)
      else
        var (library, fs2) := Replacement(fs1, web, cachesDir, host, l);
        if IsInstalled(fs2.files, sha1, librariesDir, library) then (installed + [library], required, fs2)
        else (installed, required + [library], fs2)
  }

  /** `filterLibraries`. */
  method FilterLibraries(libs: seq<GoLibrary>, disk: Disk, web: Client, sha1: Sha1, cachesDir: string, librariesDir: string, host: Host)
    returns (installed: seq<GoLibrary>, required: seq<GoLibrary>)
    requires AllWellNamed(libs)
    modifies disk
    ensures (installed, required, disk.State()) == Filtered(libs, old(disk.State()), web, sha1, cachesDir, librariesDir, host)
  {
    installed, required := [], [];
    for i := 0 to |libs|
      invariant (installed, required, disk.State()) == Filtered(libs[..i], old(disk.State()), web, sha1, cachesDir, librariesDir, host)
    {
      assert libs[..i + 1][..i] == libs[..i];
      var library := libs[i];
      if FirstRuleAllows(library.rules, host.goos) {
        if host.goos == "linux" && host.goarch == "arm64" && HasPrefix(library.name, "org.lwjgl") {
          var path := ReplaceAll(library.downloads.path, "linux", "linux-arm64");
          var found := FetchLibraryFromMaven(disk, web, cachesDir, library.name, path);
          library := if found.Ok? then found.value else ZeroLibrary;
        }
        if IsInstalled(disk.files, sha1, librariesDir, library) {
          installed := installed + [library];
        } else {
          required := required + [library];
        }
      }
    }
    assert libs[..|libs|] == libs;
  }

  /** Every admitted library is placed exactly once: the two slices hold as
      many libraries as the install rule admits. */
  lemma {:induction false} FilteredCount(libs: seq<GoLibrary>, fs: Fs, web: Client, sha1: Sha1, cachesDir: string, librariesDir: string, host: Host)
    requires AllWellNamed(libs)
    ensures var (installed, required, _) := Filtered(libs, fs, web, sha1, cachesDir, librariesDir, host);
      |installed| + |required| == |Filter(libs, AllowedOn(host.goos))|
  {
    if |libs| > 0 {
      var n := |libs| - 1;
      FilteredCount(libs[..n], fs, web, sha1, cachesDir, librariesDir, host);
      FilterAppend(libs[..n], libs[n], AllowedOn(host.goos));
      assert libs[..n] + [libs[n]] == libs;
    }
  }

  /** Off linux/arm64 nothing is looked up: the disk is untouched and the
      slices partition the admitted libraries by their installation state,
      in input order. */
  lemma {:induction false} FilteredElsewhere(libs: seq<GoLibrary>, fs: Fs, web: Client, sha1: Sha1, cachesDir: string, librariesDir: string, host: Host)
    requires AllWellNamed(libs) && !(host.goos == "linux" && host.goarch == "arm64")
    ensures var admitted := Filter(libs, AllowedOn(host.goos));
      && (forall l :: l in admitted ==> WellNamed(l))
      && Filtered(libs, fs, web, sha1, cachesDir, librariesDir, host)
         == (Partition(admitted, InstalledIn(fs.files, sha1, librariesDir)).0,
             Partition(admitted, InstalledIn(fs.files, sha1, librariesDir)).1, fs)
  {
    var admitted := Filter(libs, AllowedOn(host.goos));
    FilterMembers(libs, AllowedOn(host.goos));
    if |libs| > 0 {
      var n := |libs| - 1;
      FilteredElsewhere(libs[..n], fs, web, sha1, cachesDir, librariesDir, host);
      FilterAppend(libs[..n], libs[n], AllowedOn(host.goos));
      assert libs[..n] + [libs[n]] == libs;
      var prev := Filter(libs[..n], AllowedOn(host.goos));
      FilterMembers(libs[..n], AllowedOn(host.goos));
      var p := InstalledIn(fs.files, sha1, librariesDir);
      if FirstRuleAllows(libs[n].rules, host.goos) {
        var xs := prev + [libs[n]];
        assert admitted == xs;
        assert xs[..|xs| - 1] == prev && xs[|xs| - 1] == libs[n];
        var part := Partition(prev, p);
        assert Partition(xs, p) == if p(libs[n]) then (part.0 + [libs[n]], part.1) else (part.0, part.1 + [libs[n]]);
      } else {
        assert admitted == prev;
      }
    }
  }

  /** `isInstalled` as a predicate, true of libraries without a valid name
      only vacuously. */
  function InstalledIn(files: map<string, Bytes>, sha1: Sha1, librariesDir: string): GoLibrary -> bool
  {
    (l: GoLibrary) => WellNamed(l) && IsInstalled(files, sha1, librariesDir, l)
  }

  /** `getRuntimeLibraryPaths`: one path per library, in order. */
  method GetRuntimeLibraryPaths(libs: seq<GoLibrary>, librariesDir: string) returns (paths: seq<string>)
    requires AllWellNamed(libs)
    ensures |paths| == |libs|
    ensures forall i :: 0 <= i < |libs| ==> paths[i] == RuntimePathOf(librariesDir, libs[i])
  {
    paths := [];
    for i := 0 to |libs|
      invariant |paths| == i
      invariant forall j :: 0 <= j < i ==> paths[j] == RuntimePathOf(librariesDir, libs[j])
    {
      paths := paths + [RuntimePathOf(librariesDir, libs[i])];
    }
  }

  /** `RuntimeLibrary.Install` on a disk state: the existence-gated download
      of the artifact to its runtime path, its error naming the path. */
  function Installed(fs: Fs, web: Client, librariesDir: string, l: GoLibrary): (Option<string>, Fs)
    requires WellNamed(l)
  {
    var a := LibraryArtifact(l);
    var (err, fs1) := GoUtil.Download(fs, web, a.url, PathJoin(librariesDir, a.path));
    (if err.Some? then Some(Wrapped("download artifact '" + a.path + "'", err.value)) else None, fs1)
  }

  /** `RuntimeLibrary.Install`. */
  method Install(disk: Disk, web: Client, librariesDir: string, l: GoLibrary) returns (err: Option<string>)
    requires WellNamed(l)
    modifies disk
    ensures (err, disk.State()) == Installed(old(disk.State()), web, librariesDir, l)
  {
    var artifact := LibraryArtifact(l);
    var e := GoUtil.DownloadFile(disk, web, artifact.url, PathJoin(librariesDir, artifact.path));
    if e.Some? {
      return Some(Wrapped("download artifact '" + artifact.path + "'", e.value));
    }
    return None;
  }

  /** One step of `installLibraries`: the install, its error naming the
      library. */
  function InstallStep(fs: Fs, web: Client, librariesDir: string, l: GoLibrary): (Option<string>, Fs)
    requires WellNamed(l)
  {
    var (err, fs1) := Installed(fs, web, librariesDir, l);
    (if err.Some? then Some(Wrapped("download library '" + l.name + "'", err.value)) else None, fs1)
  }

  /** The outcome of installing the libraries one after another, stopping
      at the first failure. */
  function InstalledAll(fs: Fs, web: Client, librariesDir: string, libs: seq<GoLibrary>): (Option<string>, Fs)
    requires AllWellNamed(libs)
    decreases |libs|
  {
    if |libs| == 0 then (None, fs)
    else
      var (err, fs1) := InstallStep(fs, web, librariesDir, libs[0]);
      if err.Some? then (err, fs1) else InstalledAll(fs1, web, librariesDir, libs[1..])
  }

  /** `installLibraries`. */
  method InstallLibraries(disk: Disk, web: Client, librariesDir: string, libs: seq<GoLibrary>) returns (err: Option<string>)
    requires AllWellNamed(libs)
    modifies disk
    ensures (err, disk.State()) == InstalledAll(old(disk.State()), web, librariesDir, libs)
  {
    if |libs| < 1 {
      return None;
    }
    for i := 0 to |libs|
      invariant InstalledAll(old(disk.State()), web, librariesDir, libs) == InstalledAll(disk.State(), web, librariesDir, libs[i..])
    {
      assert libs[i..][1..] == libs[i + 1..];
      var e := Install(disk, web, librariesDir, libs[i]);
      if e.Some? {
        return Some(Wrapped("download library '" + libs[i].name + "'", e.value));
      }
    }
    return None;
  }

  /** A download never removes a file or a directory, and leaves something
      at its destination. */
  lemma DownloadKeeps(fs: Fs, web: Client, url: string, dest: string)
    ensures var fs1 := GoUtil.Download(fs, web, url, dest).1;
      && fs.files.Keys <= fs1.files.Keys && fs.dirs <= fs1.dirs
      && (dest in fs1.files || dest in fs1.dirs)
  {
  }

  /** Installing never removes anything; after an install without error,
      every library's runtime path exists. */
  lemma {:induction false} InstalledAllPresent(fs: Fs, web: Client, librariesDir: string, libs: seq<GoLibrary>)
    requires AllWellNamed(libs)
    ensures var (err, fs1) := InstalledAll(fs, web, librariesDir, libs);
      && fs.files.Keys <= fs1.files.Keys && fs.dirs <= fs1.dirs
      && (err.None? ==> forall i :: 0 <= i < |libs| ==>
            RuntimePathOf(librariesDir, libs[i]) in fs1.files || RuntimePathOf(librariesDir, libs[i]) in fs1.dirs)
    decreases |libs|
  {
    if |libs| > 0 {
      var a := LibraryArtifact(libs[0]);
      DownloadKeeps(fs, web, a.url, PathJoin(librariesDir, a.path));
      var fs0 := InstallStep(fs, web, librariesDir, libs[0]).1;
      InstalledAllPresent(fs0, web, librariesDir, libs[1..]);
      assert forall i :: 1 <= i < |libs| ==> libs[i] == libs[1..][i - 1];
    }
  }

  /** The install of `libs[k]` fails after every library before it was
      installed, and that failure is the outcome of the whole loop. */
  ghost predicate FailsAt(fs: Fs, web: Client, librariesDir: string, libs: seq<GoLibrary>, k: int)
    requires AllWellNamed(libs)
  {
    && 0 <= k < |libs|
    && InstalledAll(fs, web, librariesDir, libs[..k]).0.None?
    && InstallStep(InstalledAll(fs, web, librariesDir, libs[..k]).1, web, librariesDir, libs[k]).0.Some?
    && InstalledAll(fs, web, librariesDir, libs) == InstallStep(InstalledAll(fs, web, librariesDir, libs[..k]).1, web, librariesDir, libs[k])
  }

  /** After a first successful install, the loop over a prefix of `libs`
      is the loop over the matching prefix of the rest. */
  lemma InstalledPrefixStep(fs: Fs, web: Client, librariesDir: string, libs: seq<GoLibrary>, k: nat)
    requires AllWellNamed(libs) && k < |libs|
    requires InstallStep(fs, web, librariesDir, libs[0]).0.None?
    ensures InstalledAll(fs, web, librariesDir, libs[..k + 1])
      == InstalledAll(InstallStep(fs, web, librariesDir, libs[0]).1, web, librariesDir, libs[1..][..k])
  {
    assert libs[..k + 1][0] == libs[0] && libs[..k + 1][1..] == libs[1..][..k];
  }

  /** An error is that of the first library whose install fails, after
      every library before it was installed. */
  lemma {:induction false} InstalledAllFailure(fs: Fs, web: Client, librariesDir: string, libs: seq<GoLibrary>)
    requires AllWellNamed(libs)
    requires InstalledAll(fs, web, librariesDir, libs).0.Some?
    ensures exists k :: FailsAt(fs, web, librariesDir, libs, k)
    decreases |libs|
  {
    assert libs[..0] == [];
    var step := InstallStep(fs, web, librariesDir, libs[0]);
    if step.0.Some? {
      assert FailsAt(fs, web, librariesDir, libs, 0);
    } else {
      var rest := libs[1..];
      InstalledAllFailure(step.1, web, librariesDir, rest);
      var k :| FailsAt(step.1, web, librariesDir, rest, k);
      InstalledPrefixStep(fs, web, librariesDir, libs, k);
      assert libs[k + 1] == rest[k];
      assert FailsAt(fs, web, librariesDir, libs, k + 1);
    }
  }

}
