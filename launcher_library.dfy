// Library selection of the current Go launcher package
// (pkg/launcher/library.go): libraries are deduplicated by
// group:artifact:classifier, Mojang libraries expanded with their native
// classifiers, and the downloadable ones patched for linux/arm64 and split
// into installed and required. Version parsing (the semver package) and the
// Maven Central lookup are parameters; version comparison and the one range
// constraint used are modelled.
module LauncherLibrary {
  import opened Wrappers
  import opened Strs
  import opened FileSystem
  import opened Maven
  import opened MetaMinecraft
  import opened Collections
  import LauncherLibraries

  /** The two library shapes of this generation: Mojang's, which carries
      native classifiers, and every other kind. */
  datatype Kind = Mojang | Base

  /** A library: its coordinates, main artifact, whether its rules admit
      the host, and (Mojang only) its classifier libraries. */
  datatype Entry = Entry(kind: Kind, specifier: LibrarySpecifier, artifact: Artifact, shouldInstall: bool, classifiers: seq<Entry>)

  /** A parsed semantic version. */
  datatype SemVer = SemVer(major: nat, minor: nat, patch: nat, prerelease: string, metadata: string)

  /** `Version.String`. */
  function SemVerString(v: SemVer): string
  {
    NatToString(v.major) + "." + NatToString(v.minor) + "." + NatToString(v.patch)
      + (if v.prerelease != "" then "-" + v.prerelease else "")
      + (if v.metadata != "" then "+" + v.metadata else "")
  }

  /** Comparison of the numeric parts. */
  function CoreCompare(v: SemVer, major: nat, minor: nat, patch: nat): int
  {
    if v.major != major then (if v.major < major then -1 else 1)
    else if v.minor != minor then (if v.minor < minor then -1 else 1)
    else if v.patch != patch then (if v.patch < patch then -1 else 1)
    else 0
  }

  /** `v.LessThan(M.m.p)` for a release M.m.p: a pre-release sorts before
      its release. */
  predicate LessThan(v: SemVer, major: nat, minor: nat, patch: nat)
  {
    CoreCompare(v, major, minor, patch) < 0 || (CoreCompare(v, major, minor, patch) == 0 && v.prerelease != "")
  }

  /** The constraint "3.1.6 - 3.2.2 != 3.2.0": inclusive range, one version
      excluded, and no pre-release matches a constraint without one. */
  predicate CombinedRange(v: SemVer)
  {
    && v.prerelease == ""
    && CoreCompare(v, 3, 1, 6) >= 0
    && CoreCompare(v, 3, 2, 2) <= 0
    && CoreCompare(v, 3, 2, 0) != 0
  }

  /** What the host is and how the library collaborators answer. */
  datatype Env = Env(
    host: LauncherLibraries.Host,
    parse: string -> Option<SemVer>,
    getMaven: LibrarySpecifier -> Result<Entry>,
    files: map<string, Bytes>,
    sha1: Sha1,
    librariesDir: string)

  /** The libraries `patchLibrary` considers: LWJGL linux natives on
      linux/arm64. */
  predicate Patchable(e: Entry, host: LauncherLibraries.Host)
  {
    && e.specifier.group == "org.lwjgl"
    && e.specifier.classifier == "natives-linux"
    && host.goos == "linux" && host.goarch == "arm64"
  }

  const JemallocBase := "https://raw.githubusercontent.com/theofficialgman/lwjgl3-binaries-arm64/refs/heads/lwjgl-"
  const CombinedBase := "https://github.com/theofficialgman/lwjgl3-binaries-arm64/raw/refs/heads/lwjgl-combined/"

  /** `patchLibrary`. */
  function Patch(e: Entry, env: Env): (r: Entry)
    ensures !Patchable(e, env.host) ==> r == e
    ensures Patchable(e, env.host) && env.parse(e.specifier.version).None? ==> r == e
  {
    var spec := e.specifier;
    if !Patchable(e, env.host) then e
    else
      match env.parse(spec.version)
      case None => e
      case Some(v) =>
        if spec.artifact == "lwjgl-jemalloc" && LessThan(v, 3, 3, 2) && !LessThan(v, 3, 0, 0) then
          Entry(Base, spec, Artifact(e.artifact.path, "", 0,
                JemallocBase + SemVerString(v) + "/lwjgl-jemalloc-patched-natives-linux-arm64.jar"), true, [])
        else if CombinedRange(v) then
          Entry(Base, spec, Artifact(e.artifact.path, "", 0, CombinedBase + e.artifact.path), true, [])
        else
          match env.getMaven(spec.(classifier := "natives-linux-arm64"))
          case Ok(l) => l
          case Err(_) => e
  }

  /** The cases of a patched library: a prebuilt jemalloc for 3.0.0 up to
      3.3.2, the combined build for 3.1.6 to 3.2.2 but 3.2.0, both at the
      original path; otherwise the arm64 classifier from Maven Central, or
      the library unchanged when that lookup fails. */
  lemma PatchCases(e: Entry, env: Env)
    requires Patchable(e, env.host) && env.parse(e.specifier.version).Some?
    ensures var v := env.parse(e.specifier.version).value;
      var r := Patch(e, env);
      && (e.specifier.artifact == "lwjgl-jemalloc" && LessThan(v, 3, 3, 2) && !LessThan(v, 3, 0, 0) ==>
            r.artifact.path == e.artifact.path && HasPrefix(r.artifact.url, JemallocBase))
      && (!(e.specifier.artifact == "lwjgl-jemalloc" && LessThan(v, 3, 3, 2) && !LessThan(v, 3, 0, 0)) && CombinedRange(v) ==>
            r.artifact == Artifact(e.artifact.path, "", 0, CombinedBase + e.artifact.path))
      && (!(e.specifier.artifact == "lwjgl-jemalloc" && LessThan(v, 3, 3, 2) && !LessThan(v, 3, 0, 0)) && !CombinedRange(v) ==>
            r == (match env.getMaven(e.specifier.(classifier := "natives-linux-arm64"))
                  case Ok(l) => l
                  case Err(_) => e))
  {
    var v := env.parse(e.specifier.version).value;
    var url := JemallocBase + SemVerString(v) + "/lwjgl-jemalloc-patched-natives-linux-arm64.jar";
    assert url[..|JemallocBase|] == JemallocBase;
  }

  /** The combined range holds its end points but not 3.2.0, and no
      pre-release. */
  lemma CombinedRangeBounds()
    ensures CombinedRange(SemVer(3, 1, 6, "", "")) && CombinedRange(SemVer(3, 2, 2, "", ""))
    ensures !CombinedRange(SemVer(3, 2, 0, "", "")) && !CombinedRange(SemVer(3, 2, 1, "rc1", ""))
    ensures !CombinedRange(SemVer(3, 1, 5, "", "")) && !CombinedRange(SemVer(3, 2, 3, "", ""))
  {
  }

  /** The dedup key: group, artifact and classifier joined with ':'. */
  function Key(s: LibrarySpecifier): (k: string)
    ensures k == s.group + ":" + s.artifact + ":" + s.classifier
  {
    assert [s.group, s.artifact, s.classifier][1..] == [s.artifact, s.classifier];
    assert [s.artifact, s.classifier][1..] == [s.classifier];
    assert Join([s.artifact, s.classifier], ":") == s.artifact + ":" + s.classifier;
    Join([s.group, s.artifact, s.classifier], ":")
  }

  function Count(m: map<string, nat>, k: string): nat
  {
    if k in m then m[k] else 0
  }

  /** The count map after the libraries: every non-Mojang library counts
      its key once. */
  function Counts(libs: seq<Entry>): map<string, nat>
  {
    if |libs| == 0 then map[]
    else
      var m := Counts(libs[..|libs| - 1]);
      var l := libs[|libs| - 1];
      if l.kind.Mojang? then m else m[Key(l.specifier) := Count(m, Key(l.specifier)) + 1]
  }

  /** A library with its classifiers when it is Mojang's. */
  function Expansion(l: Entry): seq<Entry>
  {
    if l.kind.Mojang? then [l] + l.classifiers else [l]
  }

  /** A Mojang library is dropped once a non-Mojang one with its key came
      before it. */
  predicate Shadowed(m: map<string, nat>, l: Entry)
  {
    l.kind.Mojang? && Count(m, Key(l.specifier)) > 0
  }

  /** The downloadable entries of an expansion, patched, in order. */
  function Patched(es: seq<Entry>, env: Env): seq<Entry>
  {
    if |es| == 0 then []
    else Patched(es[..|es| - 1], env) + (if es[|es| - 1].artifact.url == "" then [] else [Patch(es[|es| - 1], env)])
  }

  /** The libraries that come out of `filterLibraries`, in order. */
  function Selected(libs: seq<Entry>, env: Env): seq<Entry>
  {
    if |libs| == 0 then []
    else
      var prefix := libs[..|libs| - 1];
      var l := libs[|libs| - 1];
      Selected(prefix, env) + (if Shadowed(Counts(prefix), l) || !l.shouldInstall then [] else Patched(Expansion(l), env))
  }

  function DownloadedIn(env: Env): Entry -> bool
  {
    (e: Entry) => IsDownloaded(env.files, env.sha1, env.librariesDir, e.artifact)
  }

  /** The inner loop: each downloadable entry patched and appended to one
      of the two slices. */
  function Placed(es: seq<Entry>, env: Env): (seq<Entry>, seq<Entry>)
  {
    if |es| == 0 then ([], [])
    else
      var (a, b) := Placed(es[..|es| - 1], env);
      var e := es[|es| - 1];
      if e.artifact.url == "" then (a, b)
      else
        var p := Patch(e, env);
        if IsDownloaded(env.files, env.sha1, env.librariesDir, p.artifact) then (a + [p], b) else (a, b + [p])
  }

  /** The state of the outer loop after the libraries: the count map and
      the two slices. */
  function Filtered(libs: seq<Entry>, env: Env): (map<string, nat>, seq<Entry>, seq<Entry>)
  {
    if |libs| == 0 then (map[], [], [])
    else
      var (m, installed, required) := Filtered(libs[..|libs| - 1], env);
      var l := libs[|libs| - 1];
      var k := Key(l.specifier);
      if l.kind.Mojang? && Count(m, k) > 0 then (m, installed, required)
      else
        var m1 := if l.kind.Mojang? then m else m[k := Count(m, k) + 1];
        if !l.shouldInstall then (m1, installed, required)
        else
          var (a, b) := Placed(Expansion(l), env);
          (m1, installed + a, required + b)
  }

  /** The inner loop of `filterLibraries`: each entry with a URL is patched
      and goes to the installed or the required slice. */
  method PlaceEntries(l: seq<Entry>, env: Env) returns (installed: seq<Entry>, required: seq<Entry>)
    ensures (installed, required) == Placed(l, env)
  {
    installed, required := [], [];
    for j := 0 to |l|
      invariant (installed, required) == Placed(l[..j], env)
    {
      assert l[..j + 1][..j] == l[..j];
      if l[j].artifact.url == "" {
        continue;
      }
      var patched := Patch(l[j], env);
      if IsDownloaded(env.files, env.sha1, env.librariesDir, patched.artifact) {
        installed := installed + [patched];
      } else {
        required := required + [patched];
      }
    }
    assert l[..|l|] == l;
  }

  /** `filterLibraries`. */
  method FilterLibraries(libs: seq<Entry>, env: Env) returns (installed: seq<Entry>, required: seq<Entry>)
    ensures (installed, required) == (Filtered(libs, env).1, Filtered(libs, env).2)
  {
    var m: map<string, nat> := map[];
    installed, required := [], [];
    for i := 0 to |libs|
      invariant (m, installed, required) == Filtered(libs[..i], env)
    {
      assert libs[..i + 1][..i] == libs[..i];
      var library := libs[i];
      var l := [library];
      var k := Key(library.specifier);
      if library.kind.Mojang? {
        if Count(m, k) > 0 {
          continue;
        }
        l := l + library.classifiers;
      } else {
        m := m[k := Count(m, k) + 1];
      }
      if !library.shouldInstall {
        continue;
      }
      assert l == Expansion(library);
      var placedInstalled, placedRequired := PlaceEntries(l, env);
      installed := installed + placedInstalled;
      required := required + placedRequired;
    }
    assert libs[..|libs|] == libs;
  }

  /** The inner loop partitions the patched downloadable entries. */
  lemma {:induction false} PlacedIsPartition(es: seq<Entry>, env: Env)
    ensures Placed(es, env) == Partition(Patched(es, env), DownloadedIn(env))
  {
    if |es| > 0 {
      var n := |es| - 1;
      PlacedIsPartition(es[..n], env);
      var prev := Patched(es[..n], env);
      if es[n].artifact.url != "" {
        var p := Patch(es[n], env);
        var xs := prev + [p];
        assert xs[..|xs| - 1] == prev && xs[|xs| - 1] == p;
        var part := Partition(prev, DownloadedIn(env));
        assert Partition(xs, DownloadedIn(env))
            == if DownloadedIn(env)(p) then (part.0 + [p], part.1) else (part.0, part.1 + [p]);
      } else {
        assert Patched(es, env) == prev + [] == prev;
        assert Placed(es, env) == Placed(es[..n], env);
      }
    }
  }

  /** The loop's count map is `Counts`. */
  lemma {:induction false} FilteredCounts(libs: seq<Entry>, env: Env)
    ensures Filtered(libs, env).0 == Counts(libs)
  {
    if |libs| > 0 {
      FilteredCounts(libs[..|libs| - 1], env);
    }
  }

  /** The two slices partition the selected libraries by their download
      state: each selected library is in exactly one of them, in order. */
  lemma {:induction false} FilteredIsPartition(libs: seq<Entry>, env: Env)
    ensures (Filtered(libs, env).1, Filtered(libs, env).2) == Partition(Selected(libs, env), DownloadedIn(env))
  {
    if |libs| > 0 {
      var n := |libs| - 1;
      var prefix := libs[..n];
      var l := libs[n];
      FilteredIsPartition(prefix, env);
      FilteredCounts(prefix, env);
      var sel := Selected(prefix, env);
      if !(Shadowed(Counts(prefix), l) || !l.shouldInstall) {
        PlacedIsPartition(Expansion(l), env);
        PartitionAppend(sel, Patched(Expansion(l), env), DownloadedIn(env));
      } else {
        assert Selected(libs, env) == sel + [] == sel;
        assert (Filtered(libs, env).1, Filtered(libs, env).2) == (Filtered(prefix, env).1, Filtered(prefix, env).2);
      }
    }
  }

  /** The count of a key is the number of non-Mojang libraries with it. */
  lemma {:induction false} CountsNonMojang(libs: seq<Entry>, k: string)
    ensures Count(Counts(libs), k) == |Filter(libs, (l: Entry) => !l.kind.Mojang? && Key(l.specifier) == k)|
  {
    var p := (l: Entry) => !l.kind.Mojang? && Key(l.specifier) == k;
    if |libs| > 0 {
      var n := |libs| - 1;
      CountsNonMojang(libs[..n], k);
      FilterAppend(libs[..n], libs[n], p);
      assert libs[..n] + [libs[n]] == libs;
    }
  }

  /** A Mojang library contributes nothing, natives included, exactly when
      an earlier non-Mojang library has its group:artifact:classifier; its
      rules drop it and its expansion too. */
  lemma ShadowedByEarlierBase(libs: seq<Entry>, i: nat)
    requires i < |libs| && libs[i].kind.Mojang?
    ensures Shadowed(Counts(libs[..i]), libs[i]) <==>
      exists j :: 0 <= j < i && libs[j].kind.Base? && Key(libs[j].specifier) == Key(libs[i].specifier)
  {
    var k := Key(libs[i].specifier);
    var p := (l: Entry) => !l.kind.Mojang? && Key(l.specifier) == k;
    CountsNonMojang(libs[..i], k);
    FilterMembers(libs[..i], p);
    if Shadowed(Counts(libs[..i]), libs[i]) {
      var x := Filter(libs[..i], p)[0];
      assert x in libs[..i];
    }
    if exists j :: 0 <= j < i && libs[j].kind.Base? && Key(libs[j].specifier) == k {
      var j :| 0 <= j < i && libs[j].kind.Base? && Key(libs[j].specifier) == k;
      assert libs[..i][j] == libs[j];
      assert libs[j] in Filter(libs[..i], p);
    }
  }

  /** Selection adds, per library, its patched downloadable expansion
      unless it is shadowed or its rules exclude the host. */
  lemma SelectedStep(libs: seq<Entry>, l: Entry, env: Env)
    ensures Selected(libs + [l], env) == Selected(libs, env)
      + (if Shadowed(Counts(libs), l) || !l.shouldInstall then [] else Patched(Expansion(l), env))
  {
    assert (libs + [l])[..|libs|] == libs;
  }

  /** A kept Mojang library comes out as itself followed by its
      classifiers, each patched, those without a URL left out. */
  lemma {:induction false} PatchedMembers(es: seq<Entry>, env: Env)
    ensures forall e :: e in Patched(es, env) <==> exists i :: 0 <= i < |es| && es[i].artifact.url != "" && e == Patch(es[i], env)
  {
    if |es| > 0 {
      var n := |es| - 1;
      PatchedMembers(es[..n], env);
      assert forall i :: 0 <= i < n ==> es[..n][i] == es[i];
    }
  }

  /** Every selected library is in exactly one of installed and required,
      on the side its download state decides, each side in input order. */
  lemma FilterLibrariesSplit(libs: seq<Entry>, env: Env)
    ensures var (_, installed, required) := Filtered(libs, env);
      var selected := Selected(libs, env);
      && multiset(installed) + multiset(required) == multiset(selected)
      && (forall e :: e in installed ==> IsDownloaded(env.files, env.sha1, env.librariesDir, e.artifact))
      && (forall e :: e in required ==> !IsDownloaded(env.files, env.sha1, env.librariesDir, e.artifact))
      && installed == Filter(selected, DownloadedIn(env))
      && required == FilterOut(selected, DownloadedIn(env))
  {
    FilteredIsPartition(libs, env);
    PartitionExactlyOnce(Selected(libs, env), DownloadedIn(env));
    PartitionFilters(Selected(libs, env), DownloadedIn(env));
  }
}
