// Version metadata of the current Go generation (internal/meta/minecraft.go):
// libraries and their install rules, the client jar, the merge of loader
// metadata over base metadata, and the checksum-gated caches of the version
// manifest, version metadata, asset index and Java runtime manifests.
module MetaMinecraft {
  import opened Wrappers
  import opened Strs
  import opened FileSystem
  import opened Web
  import opened Maven
  import Network
  import opened NetworkCaches
  import opened Manifest

  const VersionManifestURL := "https://piston-meta.mojang.com/mc/game/version_manifest_v2.json"
  const JavaRuntimesURL := "https://piston-meta.mojang.com/v1/products/java-runtime/2ec0cc96c44e5a76b9c8b7c39df7210883d12871/all.json"
  const MinecraftResourcesURL := "https://resources.download.minecraft.net"

  /** A downloadable library file, its path relative to the libraries
      directory. */
  datatype Artifact = Artifact(path: string, sha1: string, size: int, url: string)

  const NoArtifact := Artifact("", "", 0, "")

  /** A library as the launcher uses it: its main artifact, the native
      libraries of the host, its coordinates, whether it applies to the host,
      and whether it stays off the game's classpath. */
  datatype Library = Library(artifact: Artifact, natives: seq<Library>, specifier: LibrarySpecifier,
                             shouldInstall: bool, skipOnClasspath: bool)

  /** One entry of a library's "rules" list. */
  datatype Rule = Rule(action: string, osName: string)

  /** A library entry of a version JSON document. The "natives" object (host
      OS name to classifier) is given in the order Go's map iteration visits
      it. */
  datatype LibraryJson = LibraryJson(name: LibrarySpecifier, artifact: Artifact, classifiers: map<string, Artifact>,
                                     rules: seq<Rule>, natives: seq<(string, string)>,
                                     url: string, sha1: string, size: int)

  /** An element of an "arguments" list: a plain string or a conditional
      object. */
  datatype ArgValue = StringArg(s: string) | RuleArg

  datatype AssetIndexRef = AssetIndexRef(id: string, sha1: string, size: int, totalSize: int, url: string)

  datatype DownloadRef = DownloadRef(sha1: string, size: int, url: string)

  /** The fields of a version JSON document the launcher uses. `loaderID` is
      never read from JSON; it names the mod loader version merged in. */
  datatype VersionMeta = VersionMeta(game: seq<ArgValue>, jvm: seq<ArgValue>, assetIndex: AssetIndexRef,
                                     client: DownloadRef, id: string, loaderID: string, javaComponent: string,
                                     libraries: seq<Library>, mainClass: string, versionType: string)

  /** Go's zero `VersionMeta`. */
  const ZeroMeta := VersionMeta([], [], AssetIndexRef("", "", 0, 0, ""), DownloadRef("", 0, ""), "", "", "", [], "", "")

  // ---------------------------------------------------------------------
  // The client jar and artifacts

  /** `VersionMeta.Client`: the client jar as a library. */
  function Client(v: VersionMeta): (l: Library)
    ensures l.artifact.path == "com/mojang/minecraft/" + v.id + "/" + v.id + ".jar"
    ensures l.artifact.sha1 == v.client.sha1 && l.artifact.size == v.client.size && l.artifact.url == v.client.url
    ensures l.shouldInstall && !l.skipOnClasspath && l.natives == []
  {
    var spec := NewLibrarySpecifier("com.mojang:minecraft:" + v.id);
    Library(Artifact("com/mojang/minecraft/" + v.id + "/" + v.id + ".jar", v.client.sha1, v.client.size, v.client.url),
            [], if spec.Ok? then spec.value else LibrarySpecifier("", "", "", ""), true, false)
  }

  /** For a version id without ':', the client's coordinates are
      com.mojang:minecraft:<id>, and they print back as that string. */
  lemma ClientSpecifier(v: VersionMeta)
    requires ':' !in v.id
    ensures Client(v).specifier == LibrarySpecifier("com.mojang", "minecraft", v.id, "")
    ensures String(Client(v).specifier) == "com.mojang:minecraft:" + v.id
  {
    var spec := LibrarySpecifier("com.mojang", "minecraft", v.id, "");
    assert ColonFree(spec);
    ParseOfString(spec);
    ClientString(v.id);
  }

  // The client coordinates' string form, assembled piece by piece.
  lemma ClientString(id: string)
    ensures String(LibrarySpecifier("com.mojang", "minecraft", id, "")) == "com.mojang:minecraft:" + id
  {
    assert "com.mojang" + ":" == "com.mojang:";
    assert "com.mojang:" + "minecraft" == "com.mojang:minecraft";
    assert "com.mojang:minecraft" + ":" == "com.mojang:minecraft:";
  }

  /** The client jar is not stored where its Maven coordinates point: the
      file is <id>.jar, not minecraft-<id>.jar (the two paths even differ in
      length). */
  lemma ClientPathIsNotMavenPath(v: VersionMeta)
    requires ':' !in v.id
    ensures Client(v).artifact.path != Path(Client(v).specifier)
  {
    ClientSpecifier(v);
    var sv := StrippedVersion(v.id);
    assert |Path(Client(v).specifier)| == 36 + 2 * |sv| by {
      assert |ReplaceChar("com.mojang", '.', '/')| == 10;
      assert |Extension(v.id)| == 4;
    }
    assert |Client(v).artifact.path| == 26 + 2 * |v.id|;
    if HasSuffix(v.id, "@zip") {
      var k := ReplaceAllDeleteLength(v.id, "@zip");
      assert |v.id| - |sv| == 4 * k;
    }
  }

  /** `Artifact.RuntimePath`: the artifact's place under the libraries
      directory. */
  function RuntimePath(librariesDir: string, a: Artifact): string
  {
    PathJoin(librariesDir, a.path)
  }

  /** `Artifact.IsDownloaded`: the file is readable and, when a checksum is
      known, has it. */
  predicate IsDownloaded(files: map<string, Bytes>, sha1: Sha1, librariesDir: string, a: Artifact)
  {
    var path := RuntimePath(librariesDir, a);
    if path !in files then false
    else if a.sha1 == "" then true
    else a.sha1 == HexSha1(sha1, files[path])
  }

  /** `Artifact.DownloadEntry`: the artifact's URL, runtime path and checksum,
      with the default file mode. */
  function DownloadEntry(librariesDir: string, a: Artifact): (e: Network.DownloadEntry)
    ensures e.path == RuntimePath(librariesDir, a) && e.fileMode == 0
  {
    Network.DownloadEntry(a.url, RuntimePath(librariesDir, a), a.sha1, 0)
  }

  /** A download of the artifact's entry that passes its checksum check makes
      the artifact count as downloaded, and one that fails it does not. */
  lemma DownloadedAfterDownload(files: map<string, Bytes>, sha1: Sha1, librariesDir: string, a: Artifact, body: Bytes)
    ensures var e := DownloadEntry(librariesDir, a);
      var checked := e.sha1 == "" || HexSha1(sha1, body) == e.sha1;
      IsDownloaded(files[e.path := body], sha1, librariesDir, a) <==> checked
  {
  }

  /** A checksum that is not 40 hex digits never matches, so such an
      artifact is never counted as downloaded. */
  lemma MalformedChecksumNeverDownloaded(files: map<string, Bytes>, sha1: Sha1, librariesDir: string, a: Artifact)
    requires a.sha1 != "" && |a.sha1| != 40
    ensures !IsDownloaded(files, sha1, librariesDir, a)
  {
    var path := RuntimePath(librariesDir, a);
    if path in files {
      assert |HexSha1(sha1, files[path])| == 40;
    }
  }

  // ---------------------------------------------------------------------
  // Decoding a library entry

  /** A host OS name as the version JSON writes it, with "osx" read as
      "darwin". */
  function OsName(name: string): string
  {
    ReplaceAll(name, "osx", "darwin")
  }

  /** The install rule: no rules, or a first rule that allows the host or
      names no OS. Later rules are not consulted. */
  predicate RulesAllow(rules: seq<Rule>, goos: string)
  {
    |rules| == 0 || (rules[0].action == "allow" && (OsName(rules[0].osName) == goos || OsName(rules[0].osName) == ""))
  }

  /** Only the first rule decides: anything after it may be changed freely. */
  lemma RulesAllowFirstOnly(first: Rule, rest: seq<Rule>, other: seq<Rule>, goos: string)
    ensures RulesAllow([first] + rest, goos) == RulesAllow([first] + other, goos)
  {
  }

  /** A "disallow" first rule excludes the library even when a later rule
      allows the host. */
  lemma DisallowFirstWins(goos: string)
    ensures !RulesAllow([Rule("disallow", ""), Rule("allow", goos)], goos)
  {
  }

  /** "osx" in a rule matches the darwin host. */
  lemma OsxRuleMatchesDarwin()
    ensures RulesAllow([Rule("allow", "osx")], "darwin")
  {
    assert HasPrefix("osx", "osx");
    assert "osx"[3..] == "";
    assert OsName("osx") == "darwin" + ReplaceAll("", "osx", "darwin");
  }

  /** The classifiers listed for the host OS, in visiting order. */
  function HostClassifiers(natives: seq<(string, string)>, goos: string): (cs: seq<string>)
    ensures forall c :: c in cs <==> exists k :: 0 <= k < |natives| && OsName(natives[k].0) == goos && natives[k].1 == c
  {
    if |natives| == 0 then []
    else
      var rest := HostClassifiers(natives[..|natives| - 1], goos);
      var last := natives[|natives| - 1];
      assert forall k :: 0 <= k < |natives| - 1 ==> natives[..|natives| - 1][k] == natives[k];
      if OsName(last.0) == goos then rest + [last.1] else rest
  }

  /** The native libraries for the given classifiers: those whose classifier
      artifact has a URL, each with the library's coordinates and that
      classifier. */
  function NativeLibraries(name: LibrarySpecifier, cs: seq<string>, table: map<string, Artifact>): seq<Library>
  {
    if |cs| == 0 then []
    else
      var rest := NativeLibraries(name, cs[..|cs| - 1], table);
      var c := cs[|cs| - 1];
      var a := if c in table then table[c] else NoArtifact;
      if a.url == "" then rest
      else rest + [Library(a, [], name.(classifier := c), true, false)]
  }

  /** The library a version JSON entry decodes to on host `goos`. */
  function LibraryFromJson(data: LibraryJson, goos: string): Library
  {
    if data.url != "" then
      Library(Artifact(Path(data.name), data.sha1, data.size, data.url + "/" + Path(data.name)), [], data.name, true, false)
    else
      Library(data.artifact, NativeLibraries(data.name, HostClassifiers(data.natives, goos), data.classifiers),
              data.name, RulesAllow(data.rules, goos), false)
  }

  /** `Library.UnmarshalJSON`, applied to an already parsed entry: a Maven
      library (one with "url") lives at its coordinates' path under that URL
      and is always installed; any other library takes its download artifact,
      the natives of the host, and the verdict of its first rule. */
  method UnmarshalJSON(data: LibraryJson, goos: string) returns (l: Library)
    ensures l == LibraryFromJson(data, goos)
  {
    l := Library(NoArtifact, [], data.name, false, false);
    if data.url != "" {
      l := l.(artifact := Artifact(Path(data.name), data.sha1, data.size, data.url + "/" + Path(data.name)),
               shouldInstall := true);
    } else {
      l := l.(artifact := data.artifact);
      var classifiers: seq<string> := [];
      var i := 0;
      while i < |data.natives|
        invariant 0 <= i <= |data.natives|
        invariant classifiers == HostClassifiers(data.natives[..i], goos)
      {
        var os := OsName(data.natives[i].0);
        if os == goos {
          classifiers := classifiers + [data.natives[i].1];
        }
        assert data.natives[..i + 1][..i] == data.natives[..i];
        i := i + 1;
      }
      assert data.natives[..i] == data.natives;
      var j := 0;
      while j < |classifiers|
        invariant 0 <= j <= |classifiers|
        invariant l.natives == NativeLibraries(data.name, classifiers[..j], data.classifiers)
        invariant l.artifact == data.artifact && l.specifier == data.name && !l.shouldInstall && !l.skipOnClasspath
      {
        var classifier := classifiers[j];
        var artifact := if classifier in data.classifiers then data.classifiers[classifier] else NoArtifact;
        assert classifiers[..j + 1][..j] == classifiers[..j];
        if artifact.url != "" {
          var specifier := data.name.(classifier := classifier);
          l := l.(natives := l.natives + [Library(artifact, [], specifier, true, false)]);
        }
        j := j + 1;
      }
      assert classifiers[..j] == classifiers;
      if |data.rules| > 0 {
        var rule := data.rules[0];
        var os := OsName(rule.osName);
        if rule.action == "allow" && (os == goos || os == "") {
          l := l.(shouldInstall := true);
        }
      } else {
        l := l.(shouldInstall := true);
      }
    }
  }

  /** Every native library of a decoded entry is installable, has a URL, and
      carries the entry's coordinates with a classifier listed for the host;
      conversely every host classifier with a URL yields one. */
  lemma {:induction false} NativesOfHost(name: LibrarySpecifier, cs: seq<string>, table: map<string, Artifact>)
    ensures forall n :: n in NativeLibraries(name, cs, table) ==>
      && n.shouldInstall && n.natives == [] && !n.skipOnClasspath
      && n.specifier == name.(classifier := n.specifier.classifier)
      && n.specifier.classifier in cs && n.specifier.classifier in table
      && n.artifact == table[n.specifier.classifier] && n.artifact.url != ""
    ensures forall c :: c in cs && c in table && table[c].url != "" ==>
      Library(table[c], [], name.(classifier := c), true, false) in NativeLibraries(name, cs, table)
  {
    if |cs| > 0 {
      NativesOfHost(name, cs[..|cs| - 1], table);
      assert forall c :: c in cs ==> c in cs[..|cs| - 1] || c == cs[|cs| - 1];
    }
  }

  /** A Maven library ignores rules and natives: it is installed on every host
      from <url>/<coordinates' path>. */
  lemma MavenLibraryIgnoresRules(data: LibraryJson, goos: string)
    requires data.url != ""
    ensures var l := LibraryFromJson(data, goos);
      l.shouldInstall && l.natives == [] && l.artifact.path == Path(data.name)
      && l.artifact.url == data.url + "/" + l.artifact.path
  {
  }

  // ---------------------------------------------------------------------
  // Merging loader metadata over base metadata

  /** The artifact names of the libraries that go on the classpath. */
  function ClasspathArtifacts(libs: seq<Library>): set<string>
  {
    if |libs| == 0 then {}
    else
      var last := libs[|libs| - 1];
      ClasspathArtifacts(libs[..|libs| - 1]) + (if last.skipOnClasspath then {} else {last.specifier.artifact})
  }

  lemma {:induction false} ClasspathArtifactsMembers(libs: seq<Library>)
    ensures forall a :: a in ClasspathArtifacts(libs) <==>
      exists k :: 0 <= k < |libs| && !libs[k].skipOnClasspath && libs[k].specifier.artifact == a
  {
    if |libs| > 0 {
      var init := libs[..|libs| - 1];
      ClasspathArtifactsMembers(init);
      assert forall k :: 0 <= k < |init| ==> init[k] == libs[k];
    }
  }

  /** The libraries of `libs` whose artifact name is not in `taken`, in order. */
  function KeepUntaken(libs: seq<Library>, taken: set<string>): (r: seq<Library>)
    ensures forall l :: l in r <==> l in libs && l.specifier.artifact !in taken
  {
    if |libs| == 0 then []
    else
      var last := libs[|libs| - 1];
      var rest := KeepUntaken(libs[..|libs| - 1], taken);
      assert forall l :: l in libs <==> l in libs[..|libs| - 1] || l == last;
      if last.specifier.artifact in taken then rest else rest + [last]
  }

  /** The merge of loader metadata `w` over base metadata `v`. */
  function Merged(v: VersionMeta, w: VersionMeta): VersionMeta
  {
    v.(game := w.game, jvm := w.jvm,
       libraries := w.libraries + KeepUntaken(v.libraries, ClasspathArtifacts(w.libraries)),
       loaderID := w.loaderID,
       mainClass := if w.mainClass != "" then w.mainClass else v.mainClass)
  }

  /** The number of occurrences Go's map would report for a missing key. */
  function CountOf(m: map<string, nat>, k: string): nat
  {
    if k in m then m[k] else 0
  }

  /** `MergeVersionMeta`: the loader's arguments, loader id and (when set)
      main class; its libraries first, then the base libraries whose artifact
      name no classpath library of the loader already provides. */
  method MergeVersionMeta(v: VersionMeta, w: VersionMeta) returns (r: VersionMeta)
    ensures r == Merged(v, w)
  {
    r := v.(jvm := w.jvm, game := w.game);
    var m := ClasspathCounts(w.libraries);
    var libraries := AppendUncounted(w.libraries, v.libraries, m, ClasspathArtifacts(w.libraries));
    r := r.(libraries := libraries, loaderID := w.loaderID);
    if w.mainClass != "" {
      r := r.(mainClass := w.mainClass);
    }
  }

  /** The first loop of `MergeVersionMeta`: how often each artifact name
      occurs among the classpath libraries. */
  method ClasspathCounts(libs: seq<Library>) returns (m: map<string, nat>)
    ensures forall a :: CountOf(m, a) >= 1 <==> a in ClasspathArtifacts(libs)
  {
    m := map[];
    var i := 0;
    while i < |libs|
      invariant 0 <= i <= |libs|
      invariant forall a :: CountOf(m, a) >= 1 <==> a in ClasspathArtifacts(libs[..i])
    {
      var library := libs[i];
      assert libs[..i + 1][..i] == libs[..i];
      if !library.skipOnClasspath {
        m := m[library.specifier.artifact := CountOf(m, library.specifier.artifact) + 1];
      }
      i := i + 1;
    }
    assert libs[..i] == libs;
  }

  /** The second loop: each base library whose artifact name was not
      counted is appended, in order. */
  method AppendUncounted(libraries: seq<Library>, base: seq<Library>, m: map<string, nat>, ghost taken: set<string>)
    returns (r: seq<Library>)
    requires forall a :: CountOf(m, a) >= 1 <==> a in taken
    ensures r == libraries + KeepUntaken(base, taken)
  {
    r := libraries;
    var j := 0;
    while j < |base|
      invariant 0 <= j <= |base|
      invariant r == libraries + KeepUntaken(base[..j], taken)
    {
      var library := base[j];
      assert base[..j + 1][..j] == base[..j];
      if CountOf(m, library.specifier.artifact) < 1 {
        r := r + [library];
      }
      j := j + 1;
    }
    assert base[..j] == base;
  }

  /** The merged library list starts with every loader library, and a base
      library follows exactly when no loader classpath library has its
      artifact name; loader libraries kept off the classpath do not shadow. */
  lemma MergedLibraries(v: VersionMeta, w: VersionMeta, l: Library)
    ensures Merged(v, w).libraries[..|w.libraries|] == w.libraries
    ensures l in Merged(v, w).libraries[|w.libraries|..] <==>
      l in v.libraries && forall k :: 0 <= k < |w.libraries| && !w.libraries[k].skipOnClasspath ==>
        w.libraries[k].specifier.artifact != l.specifier.artifact
  {
    ClasspathArtifactsMembers(w.libraries);
    assert Merged(v, w).libraries[|w.libraries|..] == KeepUntaken(v.libraries, ClasspathArtifacts(w.libraries));
  }

  /** Merging the zero metadata (vanilla) keeps the base libraries, id and
      main class but clears the arguments and the loader id. */
  lemma MergeZero(v: VersionMeta)
    ensures var r := Merged(v, ZeroMeta);
      r.libraries == v.libraries && r.mainClass == v.mainClass && r.id == v.id
      && r.game == [] && r.jvm == [] && r.loaderID == ""
  {
    KeepUntakenNone(v.libraries);
  }

  lemma {:induction false} KeepUntakenNone(libs: seq<Library>)
    ensures KeepUntaken(libs, {}) == libs
  {
    if |libs| > 0 {
      KeepUntakenNone(libs[..|libs| - 1]);
    }
  }

  // ---------------------------------------------------------------------
  // Download lists

  datatype AssetObject = AssetObject(hash: string, size: int)

  /** An object hash long enough to have a two-character prefix directory. */
  predicate WellFormedHashes(objects: seq<AssetObject>)
  {
    forall k :: 0 <= k < |objects| ==> |objects[k].hash| >= 2
  }

  /** Go's panic on `hash[:2]` of a shorter hash. */
  function SlicePanic(hash: string): string
  {
    "runtime error: slice bounds out of range [:2] with length " + NatToString(|hash|)
  }

  function AssetURL(hash: string): string
    requires |hash| >= 2
  {
    MinecraftResourcesURL + "/" + hash[..2] + "/" + hash
  }

  function AssetPath(assetsDir: string, hash: string): string
    requires |hash| >= 2
  {
    PathJoin(PathJoin(PathJoin(assetsDir, "objects"), hash[..2]), hash)
  }

  /** An asset object whose file is readable and has the object's hash. */
  predicate AssetPresent(files: map<string, Bytes>, sha1: Sha1, assetsDir: string, o: AssetObject)
    requires |o.hash| >= 2
  {
    var path := AssetPath(assetsDir, o.hash);
    path in files && o.hash == HexSha1(sha1, files[path])
  }

  function AssetEntry(assetsDir: string, o: AssetObject): Network.DownloadEntry
    requires |o.hash| >= 2
  {
    Network.DownloadEntry(AssetURL(o.hash), AssetPath(assetsDir, o.hash), o.hash, 0)
  }

  /** The download entries of the objects that are not present, in order. */
  function AssetEntries(files: map<string, Bytes>, sha1: Sha1, assetsDir: string, objects: seq<AssetObject>): seq<Network.DownloadEntry>
    requires WellFormedHashes(objects)
  {
    if |objects| == 0 then []
    else
      var o := objects[|objects| - 1];
      var rest := AssetEntries(files, sha1, assetsDir, objects[..|objects| - 1]);
      if AssetPresent(files, sha1, assetsDir, o) then rest else rest + [AssetEntry(assetsDir, o)]
  }

  /** `AssetIndex.DownloadEntries` over the index's objects in the order the
      map is visited: the entries of the objects that are not present, or
      Go's panic at the first hash too short to slice. */
  function AssetList(files: map<string, Bytes>, sha1: Sha1, assetsDir: string, objects: seq<AssetObject>)
    : Result<seq<Network.DownloadEntry>>
  {
    if |objects| == 0 then Ok([])
    else
      var rest := AssetList(files, sha1, assetsDir, objects[..|objects| - 1]);
      var o := objects[|objects| - 1];
      if rest.Err? then rest
      else if |o.hash| < 2 then Err(SlicePanic(o.hash))
      else if AssetPresent(files, sha1, assetsDir, o) then rest
      else Ok(rest.value + [AssetEntry(assetsDir, o)])
  }

  /** The first hash too short to slice decides the outcome. */
  lemma {:induction false} AssetListStopsAtPanic(files: map<string, Bytes>, sha1: Sha1, assetsDir: string,
                                                 objects: seq<AssetObject>, i: nat)
    requires i < |objects| && |objects[i].hash| < 2
    requires AssetList(files, sha1, assetsDir, objects[..i]).Ok?
    ensures AssetList(files, sha1, assetsDir, objects) == Err(SlicePanic(objects[i].hash))
    decreases |objects|
  {
    if |objects| - 1 == i {
      assert objects[..|objects| - 1] == objects[..i];
    } else {
      var init := objects[..|objects| - 1];
      assert init[..i] == objects[..i];
      AssetListStopsAtPanic(files, sha1, assetsDir, init, i);
    }
  }

  /** With every hash long enough the list is the entries of the objects
      not present; otherwise it is the panic of the first short hash, every
      hash before it being long enough. */
  lemma {:induction false} AssetListCases(files: map<string, Bytes>, sha1: Sha1, assetsDir: string, objects: seq<AssetObject>)
    ensures WellFormedHashes(objects) ==> AssetList(files, sha1, assetsDir, objects) == Ok(AssetEntries(files, sha1, assetsDir, objects))
    ensures AssetList(files, sha1, assetsDir, objects).Err? <==> !WellFormedHashes(objects)
    ensures AssetList(files, sha1, assetsDir, objects).Err? ==>
      exists k :: 0 <= k < |objects| && |objects[k].hash| < 2 && WellFormedHashes(objects[..k])
        && AssetList(files, sha1, assetsDir, objects) == Err(SlicePanic(objects[k].hash))
    decreases |objects|
  {
    if |objects| > 0 {
      var init := objects[..|objects| - 1];
      AssetListCases(files, sha1, assetsDir, init);
      assert forall k :: 0 <= k < |init| ==> init[k] == objects[k];
      var r := AssetList(files, sha1, assetsDir, objects);
      if AssetList(files, sha1, assetsDir, init).Err? {
        var k :| 0 <= k < |init| && |init[k].hash| < 2 && WellFormedHashes(init[..k])
          && AssetList(files, sha1, assetsDir, init) == Err(SlicePanic(init[k].hash));
        assert init[..k] == objects[..k];
      } else if |objects[|objects| - 1].hash| < 2 {
        assert objects[..|objects| - 1] == init;
      }
    }
  }

  /** `AssetIndex.DownloadEntries`, over the index's objects in the order the
      map is visited. */
  method AssetDownloadEntries(disk: Disk, sha1: Sha1, assetsDir: string, objects: seq<AssetObject>)
    returns (r: Result<seq<Network.DownloadEntry>>)
    ensures r == AssetList(disk.files, sha1, assetsDir, objects)
  {
    var entries: seq<Network.DownloadEntry> := [];
    for i := 0 to |objects|
      invariant AssetList(disk.files, sha1, assetsDir, objects[..i]) == Ok(entries)
    {
      assert objects[..i + 1][..i] == objects[..i];
      var o := objects[i];
      if |o.hash| < 2 {
        AssetListStopsAtPanic(disk.files, sha1, assetsDir, objects, i);
        return Err(SlicePanic(o.hash));
      }
      var url := AssetURL(o.hash);
      var path := AssetPath(assetsDir, o.hash);
      var data := disk.Read(path);
      if data.Ok? && o.hash == HexSha1(sha1, data.value) {
        continue;
      }
      entries := entries + [Network.DownloadEntry(url, path, o.hash, 0)];
    }
    assert objects[..|objects|] == objects;
    return Ok(entries);
  }

  /** The asset download list holds an entry for an object exactly when the
      object is not present, and every entry verifies the object's hash. */
  lemma {:induction false} AssetEntriesExact(files: map<string, Bytes>, sha1: Sha1, assetsDir: string, objects: seq<AssetObject>)
    requires WellFormedHashes(objects)
    ensures forall k :: 0 <= k < |objects| ==>
      (AssetEntry(assetsDir, objects[k]) in AssetEntries(files, sha1, assetsDir, objects)
        <== !AssetPresent(files, sha1, assetsDir, objects[k]))
    ensures forall e :: e in AssetEntries(files, sha1, assetsDir, objects) ==>
      exists k :: 0 <= k < |objects| && e == AssetEntry(assetsDir, objects[k]) && !AssetPresent(files, sha1, assetsDir, objects[k])
  {
    if |objects| > 0 {
      var init := objects[..|objects| - 1];
      AssetEntriesExact(files, sha1, assetsDir, init);
      assert forall k :: 0 <= k < |init| ==> init[k] == objects[k];
    }
  }

  /** A file of a Java runtime manifest: a regular file (with its raw
      download) or a link. */
  datatype JavaFile = JavaFile(fileType: string, executable: bool, target: string, rawSha1: string, rawURL: string)

  /** A Java runtime file that is already on disk with its checksum. */
  predicate JavaFilePresent(files: map<string, Bytes>, sha1: Sha1, path: string, f: JavaFile)
  {
    path in files && HexSha1(sha1, files[path]) == f.rawSha1
  }

  /** The download entries for the runtime's regular files that are not
      present, executable ones with mode 0755. */
  function JavaEntries(files: map<string, Bytes>, sha1: Sha1, dir: string, javaFiles: seq<(string, JavaFile)>): seq<Network.DownloadEntry>
  {
    if |javaFiles| == 0 then []
    else
      var rest := JavaEntries(files, sha1, dir, javaFiles[..|javaFiles| - 1]);
      var (name, f) := javaFiles[|javaFiles| - 1];
      var path := PathJoin(dir, name);
      if f.fileType == "file" && !JavaFilePresent(files, sha1, path, f) then
        rest + [Network.DownloadEntry(f.rawURL, path, f.rawSha1, if f.executable then DirMode else 0)]
      else rest
  }

  /** The links to create: each link whose path does not exist yet, mapped to
      its target. */
  function JavaLinks(files: map<string, Bytes>, dirs: set<string>, dir: string, javaFiles: seq<(string, JavaFile)>): map<string, string>
  {
    if |javaFiles| == 0 then map[]
    else
      var rest := JavaLinks(files, dirs, dir, javaFiles[..|javaFiles| - 1]);
      var (name, f) := javaFiles[|javaFiles| - 1];
      var path := PathJoin(dir, name);
      if f.fileType == "link" && path !in files && path !in dirs then rest[path := f.target] else rest
  }

  /** `JavaManifest.DownloadEntries` for runtime `runtimeName`, over the
      manifest's files in the order the map is visited. */
  method JavaDownloadEntries(disk: Disk, sha1: Sha1, javaDir: string, runtimeName: string, javaFiles: seq<(string, JavaFile)>)
    returns (entries: seq<Network.DownloadEntry>, symlinks: map<string, string>)
    ensures entries == JavaEntries(disk.files, sha1, PathJoin(javaDir, runtimeName), javaFiles)
    ensures symlinks == JavaLinks(disk.files, disk.dirs, PathJoin(javaDir, runtimeName), javaFiles)
  {
    symlinks := map[];
    entries := [];
    var dir := PathJoin(javaDir, runtimeName);
    var i := 0;
    while i < |javaFiles|
      invariant 0 <= i <= |javaFiles|
      invariant entries == JavaEntries(disk.files, sha1, dir, javaFiles[..i])
      invariant symlinks == JavaLinks(disk.files, disk.dirs, dir, javaFiles[..i])
    {
      var (name, file) := javaFiles[i];
      assert javaFiles[..i + 1][..i] == javaFiles[..i];
      var path := PathJoin(dir, name);
      if file.fileType == "link" {
        if !disk.Exists(path) {
          symlinks := symlinks[path := file.target];
        }
      } else if file.fileType == "file" {
        var data := disk.Read(path);
        if data.Ok? && HexSha1(sha1, data.value) == file.rawSha1 {
          i := i + 1;
          continue;
        }
        var mode := 0;
        if file.executable {
          mode := DirMode;
        }
        entries := entries + [Network.DownloadEntry(file.rawURL, path, file.rawSha1, mode)];
      }
      i := i + 1;
    }
    assert javaFiles[..i] == javaFiles;
  }

  /** Every Java download entry is a regular file of the manifest that is not
      present, under the runtime directory, with mode 0755 exactly when it is
      executable. */
  lemma {:induction false} JavaEntriesSound(files: map<string, Bytes>, sha1: Sha1, dir: string, javaFiles: seq<(string, JavaFile)>)
    ensures forall e :: e in JavaEntries(files, sha1, dir, javaFiles) ==>
      exists k :: 0 <= k < |javaFiles| && javaFiles[k].1.fileType == "file"
        && e.path == PathJoin(dir, javaFiles[k].0) && !JavaFilePresent(files, sha1, e.path, javaFiles[k].1)
        && e.url == javaFiles[k].1.rawURL && e.sha1 == javaFiles[k].1.rawSha1
        && e.fileMode == (if javaFiles[k].1.executable then DirMode else 0)
  {
    if |javaFiles| > 0 {
      var init := javaFiles[..|javaFiles| - 1];
      JavaEntriesSound(files, sha1, dir, init);
      assert forall k :: 0 <= k < |init| ==> init[k] == javaFiles[k];
    }
  }

  /** A link is scheduled only for a path that does not exist. */
  lemma {:induction false} JavaLinksAbsent(files: map<string, Bytes>, dirs: set<string>, dir: string, javaFiles: seq<(string, JavaFile)>)
    ensures forall p :: p in JavaLinks(files, dirs, dir, javaFiles) ==> p !in files && p !in dirs
  {
    if |javaFiles| > 0 {
      JavaLinksAbsent(files, dirs, dir, javaFiles[..|javaFiles| - 1]);
    }
  }

  // ---------------------------------------------------------------------
  // Checksum-gated caches

  /** A cache file that decodes (into the zero value of the target) and
      whose hex SHA-1 is the expected one. */
  predicate Reusable<T>(files: map<string, Bytes>, sha1: Sha1, cache: JSONCache, expected: string, into: DecoderInto<T>, zero: T)
  {
    cache.path in files && into(zero, files[cache.path]).Ok? && HexSha1(sha1, files[cache.path]) == expected
  }

  /** The value read through: the cached one when it is reusable; otherwise
      the refetched body decoded over whatever the read of the stale cache
      left in the target. */
  function ReadThroughResult<T>(files: map<string, Bytes>, web: Client, sha1: Sha1, cache: JSONCache, expected: string,
                                into: DecoderInto<T>, zero: T): Result<T>
  {
    if Reusable(files, sha1, cache, expected, into, zero) then Read(files, cache, Over(into, zero))
    else FetchOutcome(web, sha1, cache, Over(into, ReadTarget(files, cache, into, zero)))
  }

  function ReadThroughFiles<T>(files: map<string, Bytes>, web: Client, sha1: Sha1, cache: JSONCache, expected: string,
                               into: DecoderInto<T>, zero: T): map<string, Bytes>
  {
    if Reusable(files, sha1, cache, expected, into, zero) then files
    else FilesAfterFetch(files, web, cache.path, cache.url)
  }

  /** The read-through step shared by version metadata, the asset index and
      Java manifests: the cache file is decoded into a zero target; when it
      decodes and has the expected hex SHA-1 that value is used, otherwise
      the file is fetched again and decoded into the same target. */
  method ReadThrough<T>(disk: Disk, web: Client, sha1: Sha1, cache: JSONCache, expected: string, into: DecoderInto<T>, zero: T)
    returns (r: Result<T>)
    modifies disk
    ensures r == ReadThroughResult(old(disk.files), web, sha1, cache, expected, into, zero)
    ensures disk.files == ReadThroughFiles(old(disk.files), web, sha1, cache, expected, into, zero)
  {
    var download := true;
    var target := zero;
    var cached := Read(disk.files, cache, Over(into, zero));
    if cached.Ok? {
      target := cached.value;
      var sum := Sha1Of(disk.files, sha1, cache);
      if sum.Ok? && sum.value == expected {
        download := false;
      }
    }
    if download {
      r := FetchAndRead(disk, web, sha1, cache, Over(into, target));
    } else {
      r := cached;
    }
  }

  /** Read-through keeps a valid cache untouched; an empty expected checksum
      never matches a 40-digit hex digest, so it always refetches; a result
      that does not come from a reusable cache is the fetched body decoded
      over the stale cache's value when that decoded (so, for a decoder that
      merges, the stale entries are kept), and over the zero value when
      there was no cache file. */
  lemma ReadThroughProperties<T>(files: map<string, Bytes>, web: Client, sha1: Sha1, cache: JSONCache, expected: string,
                                 into: DecoderInto<T>, zero: T)
    requires cache.remoteSha1 == ""
    ensures Reusable(files, sha1, cache, expected, into, zero) ==>
      ReadThroughFiles(files, web, sha1, cache, expected, into, zero) == files
      && ReadThroughResult(files, web, sha1, cache, expected, into, zero) == into(zero, files[cache.path])
    ensures expected == "" ==> !Reusable(files, sha1, cache, expected, into, zero)
    ensures !Reusable(files, sha1, cache, expected, into, zero) && ReadThroughResult(files, web, sha1, cache, expected, into, zero).Ok? ==>
      Fetched(web, cache.url) && cache.url != ""
      && ReadThroughFiles(files, web, sha1, cache, expected, into, zero)[cache.path] == web(cache.url).value.body
      && ReadThroughResult(files, web, sha1, cache, expected, into, zero)
         == into(ReadTarget(files, cache, into, zero), web(cache.url).value.body)
    ensures !Reusable(files, sha1, cache, expected, into, zero) && cache.path in files && into(zero, files[cache.path]).Ok?
            && ReadThroughResult(files, web, sha1, cache, expected, into, zero).Ok? ==>
      ReadThroughResult(files, web, sha1, cache, expected, into, zero)
      == into(into(zero, files[cache.path]).value, web(cache.url).value.body)
    ensures cache.path !in files && ReadThroughResult(files, web, sha1, cache, expected, into, zero).Ok? ==>
      ReadThroughResult(files, web, sha1, cache, expected, into, zero) == into(zero, web(cache.url).value.body)
  {
    if expected == "" && cache.path in files {
      assert |HexSha1(sha1, files[cache.path])| == 40;
    }
  }

  function MinecraftCachePath(cachesDir: string, name: string): string
  {
    PathJoin(PathJoin(cachesDir, "minecraft"), name)
  }

  function ManifestCache(cachesDir: string): JSONCache
  {
    JSONCache(MinecraftCachePath(cachesDir, "version_manifest.json"), VersionManifestURL, "")
  }

  /** The manifest `FetchVersionManifest` yields: the fetched one, or else the
      cached file. */
  function ManifestResult(files: map<string, Bytes>, web: Client, sha1: Sha1, cachesDir: string, json: Decoder<VersionManifest>): Result<VersionManifest>
  {
    var cache := ManifestCache(cachesDir);
    var fetched := FetchOutcome(web, sha1, cache, json);
    if fetched.Ok? then fetched else Read(FilesAfterFetch(files, web, cache.path, cache.url), cache, json)
  }

  /** `FetchVersionManifest`: the manifest is always refetched; when that
      fails the cached copy is used, and only when both fail is the read
      error returned. */
  method FetchVersionManifest(disk: Disk, web: Client, sha1: Sha1, cachesDir: string, json: Decoder<VersionManifest>)
    returns (r: Result<VersionManifest>)
    modifies disk
    ensures r == ManifestResult(old(disk.files), web, sha1, cachesDir, json)
    ensures disk.files == FilesAfterFetch(old(disk.files), web, ManifestCache(cachesDir).path, VersionManifestURL)
    ensures !Fetched(web, VersionManifestURL) ==> r == Read(old(disk.files), ManifestCache(cachesDir), json)
  {
    var cache := ManifestCache(cachesDir);
    r := FetchAndRead(disk, web, sha1, cache, json);
    if r.Err? {
      r := Read(disk.files, cache, json);
    }
  }

  /** The version ids "release" and "snapshot" stand for the manifest's
      latest ones; any other id is looked up as given. */
  function ResolveAlias(id: string, manifest: VersionManifest): (r: string)
    ensures id == "release" ==> r == manifest.latestRelease
    ensures id == "snapshot" ==> r == manifest.latestSnapshot
    ensures id != "release" && id != "snapshot" ==> r == id
  {
    if id == "release" then manifest.latestRelease
    else if id == "snapshot" then manifest.latestSnapshot
    else id
  }

  function MetaCache(cachesDir: string, e: ManifestEntry): JSONCache
  {
    JSONCache(MinecraftCachePath(cachesDir, e.id + ".json"), e.url, "")
  }

  /** `FetchVersionMeta`: a failed manifest is reported wrapped; the id (or
      the alias it names) must match a manifest entry exactly, else "invalid
      version"; the entry's metadata is then read through its cache file,
      which is reused only when its SHA-1 is the entry's. */
  method FetchVersionMeta(disk: Disk, web: Client, sha1: Sha1, cachesDir: string, id: string,
                          manifestJson: Decoder<VersionManifest>, metaInto: DecoderInto<VersionMeta>)
    returns (r: Result<VersionMeta>)
    modifies disk
    ensures var files1 := FilesAfterFetch(old(disk.files), web, ManifestCache(cachesDir).path, VersionManifestURL);
      var m := ManifestResult(old(disk.files), web, sha1, cachesDir, manifestJson);
      && (m.Err? ==> r == Err(Wrapped("retrieve version manifest", m.error)) && disk.files == files1)
      && (m.Ok? && FindVersion(m.value.versions, ResolveAlias(id, m.value)).None? ==>
            r == Err("invalid version") && disk.files == files1)
      && (m.Ok? && FindVersion(m.value.versions, ResolveAlias(id, m.value)).Some? ==>
            var e := m.value.versions[FindVersion(m.value.versions, ResolveAlias(id, m.value)).value];
            && r == ReadThroughResult(files1, web, sha1, MetaCache(cachesDir, e), e.sha1, metaInto, ZeroMeta)
            && disk.files == ReadThroughFiles(files1, web, sha1, MetaCache(cachesDir, e), e.sha1, metaInto, ZeroMeta))
  {
    var manifest := FetchVersionManifest(disk, web, sha1, cachesDir, manifestJson);
    if manifest.Err? {
      return Err(Wrapped("retrieve version manifest", manifest.error));
    }
    var resolved := ResolveAlias(id, manifest.value);
    var k := FindVersion(manifest.value.versions, resolved);
    if k.None? {
      return Err("invalid version");
    }
    var e := manifest.value.versions[k.value];
    r := ReadThrough(disk, web, sha1, MetaCache(cachesDir, e), e.sha1, metaInto, ZeroMeta);
  }

  function AssetIndexCache(assetsDir: string, v: VersionMeta): JSONCache
  {
    JSONCache(PathJoin(PathJoin(assetsDir, "indexes"), v.assetIndex.id + ".json"), v.assetIndex.url, "")
  }

  /** `DownloadAssetIndex`: the version's asset index, read through
      assets/indexes/<id>.json and reused only when its SHA-1 is the one the
      version names. */
  method DownloadAssetIndex(disk: Disk, web: Client, sha1: Sha1, assetsDir: string, v: VersionMeta,
                            into: DecoderInto<seq<AssetObject>>)
    returns (r: Result<seq<AssetObject>>)
    modifies disk
    ensures r == ReadThroughResult(old(disk.files), web, sha1, AssetIndexCache(assetsDir, v), v.assetIndex.sha1, into, [])
    ensures disk.files == ReadThroughFiles(old(disk.files), web, sha1, AssetIndexCache(assetsDir, v), v.assetIndex.sha1, into, [])
  {
    r := ReadThrough(disk, web, sha1, AssetIndexCache(assetsDir, v), v.assetIndex.sha1, into, []);
  }

  /** A reference to a Java runtime manifest. */
  datatype JavaRuntimeRef = JavaRuntimeRef(sha1: string, size: int, url: string)

  /** The Java runtime list: platform key, then runtime name, then the
      available builds. */
  type JavaManifestList = map<string, map<string, seq<JavaRuntimeRef>>>

  function JavaListCache(cachesDir: string): JSONCache
  {
    JSONCache(MinecraftCachePath(cachesDir, "java_all.json"), JavaRuntimesURL, "")
  }

  function JavaListResult(files: map<string, Bytes>, web: Client, sha1: Sha1, cachesDir: string, json: Decoder<JavaManifestList>): Result<JavaManifestList>
  {
    var cached := Read(files, JavaListCache(cachesDir), json);
    if cached.Ok? then cached else FetchOutcome(web, sha1, JavaListCache(cachesDir), json)
  }

  /** The files `FetchJavaManifestList` leaves: untouched when the cached
      list decodes, else those after the fetch. */
  function JavaListFiles(files: map<string, Bytes>, web: Client, sha1: Sha1, cachesDir: string, json: Decoder<JavaManifestList>): map<string, Bytes>
  {
    if Read(files, JavaListCache(cachesDir), json).Ok? then files
    else FilesAfterFetch(files, web, JavaListCache(cachesDir).path, JavaRuntimesURL)
  }

  /** `FetchJavaManifestList`: the cached list is used whenever it decodes
      (it is never refreshed); otherwise it is fetched. */
  method FetchJavaManifestList(disk: Disk, web: Client, sha1: Sha1, cachesDir: string, json: Decoder<JavaManifestList>)
    returns (r: Result<JavaManifestList>)
    modifies disk
    ensures r == JavaListResult(old(disk.files), web, sha1, cachesDir, json)
    ensures Read(old(disk.files), JavaListCache(cachesDir), json).Ok? ==> disk.files == old(disk.files)
    ensures Read(old(disk.files), JavaListCache(cachesDir), json).Err? ==>
      disk.files == FilesAfterFetch(old(disk.files), web, JavaListCache(cachesDir).path, JavaRuntimesURL)
  {
    var cache := JavaListCache(cachesDir);
    r := Read(disk.files, cache, json);
    if r.Err? {
      r := FetchAndRead(disk, web, sha1, cache, json);
    }
  }

  /** The platform key of the Java runtime list: the OS ("darwin" read as
      "mac-os") followed by "-<arch>" ("386" read as "i386") unless the
      architecture is amd64. */
  function JavaPlatform(goos: string, goarch: string): (key: string)
    ensures ReplaceAll(goarch, "386", "i386") == "amd64" ==> key == ReplaceAll(goos, "darwin", "mac-os")
    ensures ReplaceAll(goarch, "386", "i386") != "amd64" ==>
      key == ReplaceAll(goos, "darwin", "mac-os") + "-" + ReplaceAll(goarch, "386", "i386")
  {
    var os := ReplaceAll(goos, "darwin", "mac-os");
    var arch := ReplaceAll(goarch, "386", "i386");
    if arch != "amd64" then os + "-" + arch else os
  }

  /** On 64-bit x86 Linux the key is the bare OS name. */
  lemma JavaPlatformLinux()
    ensures JavaPlatform("linux", "amd64") == "linux"
  {
    ContainsNeedsFirstChar("linux", "darwin");
    ContainsNeedsFirstChar("amd64", "386");
    ReplaceAllAbsent("linux", "darwin", "mac-os");
    ReplaceAllAbsent("amd64", "386", "i386");
  }

  /** On Apple silicon the key is "mac-os-arm64". */
  lemma JavaPlatformAppleSilicon()
    ensures JavaPlatform("darwin", "arm64") == "mac-os-arm64"
  {
    ContainsNeedsFirstChar("arm64", "386");
    ReplaceAllAbsent("arm64", "386", "i386");
    DarwinIsMacOs();
  }

  lemma DarwinIsMacOs()
    ensures ReplaceAll("darwin", "darwin", "mac-os") == "mac-os"
  {
    assert HasPrefix("darwin", "darwin");
    assert ReplaceAll("darwin", "darwin", "mac-os") == "mac-os" + ReplaceAll("", "darwin", "mac-os");
  }

  function JavaManifestCache(cachesDir: string, name: string, ref: JavaRuntimeRef): JSONCache
  {
    JSONCache(MinecraftCachePath(cachesDir, "java-" + name + ".json"), ref.url, "")
  }

  /** What `FetchJavaManifest` returns and the files it leaves: the list's
      read-through, then each lookup's error, else the first build's
      manifest read through its cache file. */
  function JavaManifestFetched(files: map<string, Bytes>, web: Client, sha1: Sha1, cachesDir: string, name: string,
                               goos: string, goarch: string,
                               listJson: Decoder<JavaManifestList>, manifestInto: DecoderInto<seq<(string, JavaFile)>>)
    : (Result<seq<(string, JavaFile)>>, map<string, Bytes>)
  {
    var l := JavaListResult(files, web, sha1, cachesDir, listJson);
    var files1 := JavaListFiles(files, web, sha1, cachesDir, listJson);
    var key := JavaPlatform(goos, goarch);
    if l.Err? then (Err(Wrapped("retrieve java manifest list", l.error)), files1)
    else if key !in l.value then (Err("system is unsupported"), files1)
    else if name !in l.value[key] then (Err("invalid name"), files1)
    else if |l.value[key][name]| == 0 then (Err("required version unavailable for this system"), files1)
    else
      var ref := l.value[key][name][0];
      var cache := JavaManifestCache(cachesDir, name, ref);
      (ReadThroughResult(files1, web, sha1, cache, ref.sha1, manifestInto, []),
       ReadThroughFiles(files1, web, sha1, cache, ref.sha1, manifestInto, []))
  }

  /** `FetchJavaManifest`: the list is required ("retrieve java manifest
      list"); the host's platform key, then the runtime name, must be listed,
      with at least one build, else three distinct errors; the first build's
      manifest is read through its cache file, reused only when its SHA-1 is
      the listed one. */
  method FetchJavaManifest(disk: Disk, web: Client, sha1: Sha1, cachesDir: string, name: string, goos: string, goarch: string,
                           listJson: Decoder<JavaManifestList>, manifestInto: DecoderInto<seq<(string, JavaFile)>>)
    returns (r: Result<seq<(string, JavaFile)>>)
    modifies disk
    ensures var l := JavaListResult(old(disk.files), web, sha1, cachesDir, listJson);
      var key := JavaPlatform(goos, goarch);
      && (l.Err? ==> r == Err(Wrapped("retrieve java manifest list", l.error)))
      && (l.Ok? && key !in l.value ==> r == Err("system is unsupported"))
      && (l.Ok? && key in l.value && name !in l.value[key] ==> r == Err("invalid name"))
      && (l.Ok? && key in l.value && name in l.value[key] && |l.value[key][name]| == 0 ==>
            r == Err("required version unavailable for this system"))
    ensures r.Ok? ==> var l := JavaListResult(old(disk.files), web, sha1, cachesDir, listJson);
      var key := JavaPlatform(goos, goarch);
      l.Ok? && key in l.value && name in l.value[key] && |l.value[key][name]| > 0
      && var ref := l.value[key][name][0];
      var cache := JavaManifestCache(cachesDir, name, ref);
      var files1 := JavaListFiles(old(disk.files), web, sha1, cachesDir, listJson);
      && cache.path in disk.files
      && r == manifestInto(if Reusable(files1, sha1, cache, ref.sha1, manifestInto, []) then []
                           else ReadTarget(files1, cache, manifestInto, []), disk.files[cache.path])
    ensures (r, disk.files) == JavaManifestFetched(old(disk.files), web, sha1, cachesDir, name, goos, goarch, listJson, manifestInto)
  {
    var list := FetchJavaManifestList(disk, web, sha1, cachesDir, listJson);
    if list.Err? {
      return Err(Wrapped("retrieve java manifest list", list.error));
    }
    var os := JavaPlatform(goos, goarch);
    if os !in list.value {
      return Err("system is unsupported");
    }
    if name !in list.value[os] {
      return Err("invalid name");
    }
    if |list.value[os][name]| < 1 {
      return Err("required version unavailable for this system");
    }
    var ref := list.value[os][name][0];
    var cache := JavaManifestCache(cachesDir, name, ref);
    ghost var files1 := disk.files;
    r := ReadThrough(disk, web, sha1, cache, ref.sha1, manifestInto, []);
    ReadThroughProperties(files1, web, sha1, cache, ref.sha1, manifestInto, []);
  }
  /** Fetching a Java manifest only ever writes the runtime list's cache
      file and that runtime's manifest cache file; every other file stays as
      it was, and a cached list that decodes is left alone. */
  lemma JavaManifestWritesOnlyCaches(files: map<string, Bytes>, web: Client, sha1: Sha1, cachesDir: string, name: string,
                                     goos: string, goarch: string,
                                     listJson: Decoder<JavaManifestList>, manifestInto: DecoderInto<seq<(string, JavaFile)>>)
    ensures var after := JavaManifestFetched(files, web, sha1, cachesDir, name, goos, goarch, listJson, manifestInto).1;
      && files.Keys <= after.Keys
      && (forall p :: p in files && p != JavaListCache(cachesDir).path && p != MinecraftCachePath(cachesDir, "java-" + name + ".json")
            ==> after[p] == files[p])
    ensures var after := JavaManifestFetched(files, web, sha1, cachesDir, name, goos, goarch, listJson, manifestInto).1;
      var list := JavaListCache(cachesDir).path;
      Read(files, JavaListCache(cachesDir), listJson).Ok? && list != MinecraftCachePath(cachesDir, "java-" + name + ".json") ==>
        list in after && after[list] == files[list]
  {
  }
}

