// Library selection of the Go launcher package (pkg/launcher/libraries.go):
// each library becomes a runtime library with a standard artifact and path,
// the install rule drops some, the rest are split into installed and
// required, with LWJGL swapped for an arm64 build on linux/arm64.
module LauncherLibraries {
  import opened Wrappers
  import opened Strs
  import opened FileSystem
  import opened MetaMinecraft
  import opened EarlyLibrary
  import opened LauncherLoader
  import opened Collections
  import Network
  import GoUtil

  /** A library with the artifact and path the launcher uses for it. */
  datatype RuntimeLibrary = RuntimeLibrary(library: GoLibrary, artifact: Artifact, runtimePath: string)

  /** The host the launcher runs on (`runtime.GOOS`, `runtime.GOARCH`). */
  datatype Host = Host(goos: string, goarch: string)

  /** `meta.GetMavenLibrary(name, path)`: the library for a name at a Maven
      Central path. It is not part of this model. */
  type MavenLookup = (string, string) -> GoLibrary

  /** `newRuntimeLibrary`: the library keeps its record; a loader library's
      artifact lives at the Maven path of its name under its repository, any
      other keeps its download; the runtime path is under the libraries
      directory. */
  function NewRuntimeLibrary(librariesDir: string, l: GoLibrary): (r: RuntimeLibrary)
    requires WellNamed(l)
    ensures r.library == l
    ensures IsFabric(l) ==>
      && r.artifact.path == GoUtil.GetPathFromMaven(l.name)
      && r.artifact.url == l.url + "/" + r.artifact.path
      && r.artifact.sha1 == l.sha1 && r.artifact.size == l.size
    ensures !IsFabric(l) ==> r.artifact == l.downloads
    ensures r.runtimePath == PathJoin(librariesDir, r.artifact.path)
  {
    var a := LibraryArtifact(l);
    RuntimeLibrary(l, a, PathJoin(librariesDir, a.path))
  }

  /** `shouldBeInstalled`: the first rule alone decides. */
  predicate ShouldBeInstalled(r: RuntimeLibrary, goos: string)
  {
    FirstRuleAllows(r.library.rules, goos)
  }

  /** `isInstalled`: the file at the artifact's path exists and, when the
      artifact has a checksum, its SHA-1 matches. */
  predicate IsInstalled(files: map<string, Bytes>, sha1: Sha1, librariesDir: string, r: RuntimeLibrary)
  {
    IsDownloaded(files, sha1, librariesDir, r.artifact)
  }

  /** `isInstalled` as a predicate over runtime libraries. */
  function InstalledIn(files: map<string, Bytes>, sha1: Sha1, librariesDir: string): RuntimeLibrary -> bool
  {
    r => IsInstalled(files, sha1, librariesDir, r)
  }

  /** `downloadEntry`: the artifact's URL to the runtime path, with no
      checksum and the default mode. */
  function DownloadEntry(r: RuntimeLibrary): (e: Network.DownloadEntry)
    ensures e.url == r.artifact.url && e.path == r.runtimePath
    ensures e.sha1 == "" && e.fileMode == 0
  {
    Network.DownloadEntry(r.artifact.url, r.runtimePath, "", 0)
  }

  /** On linux/arm64 every LWJGL library is swapped. */
  predicate Swapped(host: Host, l: GoLibrary)
  {
    host.goos == "linux" && host.goarch == "arm64" && HasPrefix(l.name, "org.lwjgl")
  }

  /** The swap's Maven Central path: the Mojang path with every "linux"
      turned into "linux-arm64". */
  function Arm64Path(l: GoLibrary): string
  {
    ReplaceAll(l.downloads.path, "linux", "linux-arm64")
  }

  ghost predicate LookupWellNamed(getMaven: MavenLookup)
  {
    forall name, path :: WellNamed(getMaven(name, path))
  }

  /** The runtime library chosen for an admitted library. */
  function Chosen(librariesDir: string, host: Host, getMaven: MavenLookup, l: GoLibrary): (r: RuntimeLibrary)
    requires WellNamed(l) && LookupWellNamed(getMaven)
    ensures Swapped(host, l) ==> r == NewRuntimeLibrary(librariesDir, getMaven(l.name, Arm64Path(l)))
    ensures !Swapped(host, l) ==> r == NewRuntimeLibrary(librariesDir, l)
  {
    if Swapped(host, l) then NewRuntimeLibrary(librariesDir, getMaven(l.name, Arm64Path(l)))
    else NewRuntimeLibrary(librariesDir, l)
  }

  predicate AllWellNamed(libs: seq<GoLibrary>)
  {
    forall i :: 0 <= i < |libs| ==> WellNamed(libs[i])
  }

  /** The runtime libraries of the admitted libraries, in order. */
  function Selected(libs: seq<GoLibrary>, librariesDir: string, host: Host, getMaven: MavenLookup): seq<RuntimeLibrary>
    requires AllWellNamed(libs) && LookupWellNamed(getMaven)
  {
    if |libs| == 0 then []
    else
      var l := libs[|libs| - 1];
      Selected(libs[..|libs| - 1], librariesDir, host, getMaven)
        + (if FirstRuleAllows(l.rules, host.goos) then [Chosen(librariesDir, host, getMaven, l)] else [])
  }

  /** The installed and required slices the loop of `filterLibraries`
      builds. */
  function Filtered(libs: seq<GoLibrary>, librariesDir: string, host: Host, getMaven: MavenLookup,
                    files: map<string, Bytes>, sha1: Sha1): (seq<RuntimeLibrary>, seq<RuntimeLibrary>)
    requires AllWellNamed(libs) && LookupWellNamed(getMaven)
  {
    if |libs| == 0 then ([], [])
    else
      var (installed, required) := Filtered(libs[..|libs| - 1], librariesDir, host, getMaven, files, sha1);
      var l := libs[|libs| - 1];
      if !FirstRuleAllows(l.rules, host.goos) then (installed, required)
      else
        var r := Chosen(librariesDir, host, getMaven, l);
        if IsInstalled(files, sha1, librariesDir, r) then (installed + [r], required)
        else (installed, required + [r])
  }

  /** `filterLibraries`. */
  method FilterLibraries(libs: seq<GoLibrary>, librariesDir: string, host: Host, getMaven: MavenLookup,
                         files: map<string, Bytes>, sha1: Sha1)
    returns (installed: seq<RuntimeLibrary>, required: seq<RuntimeLibrary>)
    requires AllWellNamed(libs) && LookupWellNamed(getMaven)
    ensures (installed, required) == Filtered(libs, librariesDir, host, getMaven, files, sha1)
  {
    installed, required := [], [];
    for i := 0 to |libs|
      invariant (installed, required) == Filtered(libs[..i], librariesDir, host, getMaven, files, sha1)
    {
      assert libs[..i + 1][..i] == libs[..i];
      var library := NewRuntimeLibrary(librariesDir, libs[i]);
      if ShouldBeInstalled(library, host.goos) {
        if host.goos == "linux" && host.goarch == "arm64" && HasPrefix(library.library.name, "org.lwjgl") {
          var path := ReplaceAll(library.library.downloads.path, "linux", "linux-arm64");
          library := NewRuntimeLibrary(librariesDir, getMaven(library.library.name, path));
        }
        if IsInstalled(files, sha1, librariesDir, library) {
          installed := installed + [library];
        } else {
          required := required + [library];
        }
      }
    }
    assert libs[..|libs|] == libs;
  }

  /** The loop is a partition of the selected libraries by `isInstalled`. */
  lemma {:induction false} FilteredIsPartition(libs: seq<GoLibrary>, librariesDir: string, host: Host, getMaven: MavenLookup,
                                               files: map<string, Bytes>, sha1: Sha1)
    requires AllWellNamed(libs) && LookupWellNamed(getMaven)
    ensures Filtered(libs, librariesDir, host, getMaven, files, sha1)
         == Partition(Selected(libs, librariesDir, host, getMaven), InstalledIn(files, sha1, librariesDir))
  {
    if |libs| > 0 {
      var n := |libs| - 1;
      var prefix := libs[..n];
      FilteredIsPartition(prefix, librariesDir, host, getMaven, files, sha1);
      var sel := Selected(prefix, librariesDir, host, getMaven);
      var p := InstalledIn(files, sha1, librariesDir);
      assert libs[..n] == prefix;
      if FirstRuleAllows(libs[n].rules, host.goos) {
        var r := Chosen(librariesDir, host, getMaven, libs[n]);
        var xs := sel + [r];
        assert Selected(libs, librariesDir, host, getMaven) == xs;
        assert xs[..|xs| - 1] == sel && xs[|xs| - 1] == r;
        var part := Partition(sel, p);
        assert Partition(xs, p) == if p(r) then (part.0 + [r], part.1) else (part.0, part.1 + [r]);
      } else {
        assert Selected(libs, librariesDir, host, getMaven) == sel;
      }
    }
  }

  /** Every admitted library lands in exactly one of installed and
      required, on the side its installation state decides, and both keep
      the order of the input. */
  lemma FilterLibrariesSplit(libs: seq<GoLibrary>, librariesDir: string, host: Host, getMaven: MavenLookup,
                             files: map<string, Bytes>, sha1: Sha1)
    requires AllWellNamed(libs) && LookupWellNamed(getMaven)
    ensures var (installed, required) := Filtered(libs, librariesDir, host, getMaven, files, sha1);
      var selected := Selected(libs, librariesDir, host, getMaven);
      && multiset(installed) + multiset(required) == multiset(selected)
      && (forall r :: r in installed ==> IsInstalled(files, sha1, librariesDir, r))
      && (forall r :: r in required ==> !IsInstalled(files, sha1, librariesDir, r))
      && installed == Filter(selected, InstalledIn(files, sha1, librariesDir))
      && required == FilterOut(selected, InstalledIn(files, sha1, librariesDir))
  {
    FilteredIsPartition(libs, librariesDir, host, getMaven, files, sha1);
    var selected := Selected(libs, librariesDir, host, getMaven);
    PartitionExactlyOnce(selected, InstalledIn(files, sha1, librariesDir));
    PartitionFilters(selected, InstalledIn(files, sha1, librariesDir));
  }

  /** The selected libraries are exactly the chosen runtime libraries of the
      libraries the install rule admits. */
  lemma {:induction false} SelectedMembers(libs: seq<GoLibrary>, librariesDir: string, host: Host, getMaven: MavenLookup)
    requires AllWellNamed(libs) && LookupWellNamed(getMaven)
    ensures forall r :: r in Selected(libs, librariesDir, host, getMaven) <==>
      exists i :: 0 <= i < |libs| && FirstRuleAllows(libs[i].rules, host.goos) && r == Chosen(librariesDir, host, getMaven, libs[i])
  {
    if |libs| > 0 {
      var n := |libs| - 1;
      SelectedMembers(libs[..n], librariesDir, host, getMaven);
      assert forall i :: 0 <= i < n ==> libs[..n][i] == libs[i];
    }
  }

  /** `getClientLibrary`: the client jar as a library named
      com.mojang:minecraft:<id>. */
  function GetClientLibrary(v: VersionMeta): (l: GoLibrary)
    ensures l.name == "com.mojang:minecraft:" + v.id
    ensures !IsFabric(l) && l.rules == []
    ensures l.downloads == Artifact("com/mojang/minecraft/" + v.id + "/" + v.id + ".jar", v.client.sha1, v.client.size, v.client.url)
  {
    GoLibrary("com.mojang:minecraft:" + v.id,
              Artifact("com/mojang/minecraft/" + v.id + "/" + v.id + ".jar", v.client.sha1, v.client.size, v.client.url),
              "", "", 0, [])
  }

  /** The client library is always installed by the rule, and its artifact
      is the one the current generation's `VersionMeta.Client` gives. */
  lemma ClientLibraryAgrees(v: VersionMeta, librariesDir: string, goos: string)
    ensures var r := NewRuntimeLibrary(librariesDir, GetClientLibrary(v));
      && ShouldBeInstalled(r, goos)
      && r.artifact == MetaMinecraft.Client(v).artifact
      && r.runtimePath == RuntimePath(librariesDir, MetaMinecraft.Client(v).artifact)
  {
  }

  /** The library `fixLibraries` removes. */
  predicate DuplicateAsm(l: GoLibrary)
  {
    Contains(l.name, "org.ow2.asm:asm:")
  }

  /** The first index whose library satisfies `DuplicateAsm`. */
  function FirstAsm(libs: seq<GoLibrary>): (k: Option<nat>)
    ensures k.Some? ==> k.value < |libs| && DuplicateAsm(libs[k.value])
    ensures k.Some? ==> forall j :: 0 <= j < k.value ==> !DuplicateAsm(libs[j])
    ensures k.None? ==> forall j :: 0 <= j < |libs| ==> !DuplicateAsm(libs[j])
  {
    if |libs| == 0 then None
    else if DuplicateAsm(libs[0]) then Some(0)
    else
      var k := FirstAsm(libs[1..]);
      if k.None? then None else Some(k.value + 1)
  }

  /** The libraries after `fixLibraries`. */
  function Fixed(libs: seq<GoLibrary>, loader: Loader): seq<GoLibrary>
  {
    if loader != LoaderFabric then libs
    else
      match FirstAsm(libs)
      case None => libs
      case Some(k) => libs[..k] + libs[k + 1..]
  }

  /** `fixLibraries`: the loop that deletes the first duplicated ASM library
      and stops. */
  method FixLibraries(libs: seq<GoLibrary>, loader: Loader) returns (r: seq<GoLibrary>)
    ensures r == Fixed(libs, loader)
  {
    r := libs;
    if loader == LoaderFabric {
      for i := 0 to |libs|
        invariant r == libs
        invariant forall j :: 0 <= j < i ==> !DuplicateAsm(libs[j])
      {
        if Contains(libs[i].name, "org.ow2.asm:asm:") {
          r := libs[..i] + libs[i + 1..];
          return;
        }
      }
    }
  }

  /** For Fabric, exactly one library goes when any matches: the first one;
      the others keep their order. Any other loader gets the list as it
      was. */
  lemma FixedRemovesFirstOnly(libs: seq<GoLibrary>, loader: Loader)
    ensures loader != LoaderFabric ==> Fixed(libs, loader) == libs
    ensures loader == LoaderFabric && (forall j :: 0 <= j < |libs| ==> !DuplicateAsm(libs[j])) ==> Fixed(libs, loader) == libs
    ensures loader == LoaderFabric && (exists j :: 0 <= j < |libs| && DuplicateAsm(libs[j])) ==>
      exists k ::
        && 0 <= k < |libs| && DuplicateAsm(libs[k])
        && (forall j :: 0 <= j < k ==> !DuplicateAsm(libs[j]))
        && Fixed(libs, loader) == libs[..k] + libs[k + 1..]
        && |Fixed(libs, loader)| == |libs| - 1
        && multiset(Fixed(libs, loader)) + multiset{libs[k]} == multiset(libs)
  {
    if loader == LoaderFabric && FirstAsm(libs).Some? {
      var k := FirstAsm(libs).value;
      assert libs == libs[..k] + [libs[k]] + libs[k + 1..];
    }
  }
}
