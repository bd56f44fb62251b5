// Forge post processors of the current Go launcher
// (internal/meta/forge.go, FetchPostProcessors): the client-side
// processors of an install profile turned into Java command lines, with
// "{VARIABLE}", "[library]" and "'literal'" arguments substituted.
module MetaForgeProcessors {
  import opened Wrappers
  import opened Strs
  import opened FileSystem
  import opened Web
  import opened Maven
  import opened MetaMinecraft
  import opened MetaForge
  import Collections

  // ---------------------------------------------------------------------
  // Side filter

  /** A processor runs on the client when it names no side or names "client". */
  predicate ForClient(p: Processor)
  {
    |p.sides| == 0 || "client" in p.sides
  }

  function ClientProcessors(ps: seq<Processor>): (r: seq<Processor>)
    ensures |r| <= |ps|
  {
    if |ps| == 0 then []
    else
      var prev := ClientProcessors(ps[..|ps| - 1]);
      if ForClient(ps[|ps| - 1]) then prev + [ps[|ps| - 1]] else prev
  }

  /** The filter loop: processors for other sides only are dropped. */
  method FilterProcessors(ps: seq<Processor>) returns (r: seq<Processor>)
    ensures r == ClientProcessors(ps)
  {
    r := [];
    for i := 0 to |ps|
      invariant r == ClientProcessors(ps[..i])
    {
      assert ps[..i + 1][..i] == ps[..i];
      if |ps[i].sides| > 0 && !("client" in ps[i].sides) {
        continue;
      }
      r := r + [ps[i]];
    }
    assert ps[..|ps|] == ps;
  }

  /** Exactly the client processors are kept ... */
  lemma {:induction false} ClientProcessorsMembers(ps: seq<Processor>)
    ensures forall p :: p in ClientProcessors(ps) <==> p in ps && ForClient(p)
  {
    if |ps| > 0 {
      ClientProcessorsMembers(ps[..|ps| - 1]);
      assert ps == ps[..|ps| - 1] + [ps[|ps| - 1]];
    }
  }

  /** ... in their order: filtering distributes over concatenation. */
  lemma {:induction false} ClientProcessorsAppend(a: seq<Processor>, b: seq<Processor>)
    ensures ClientProcessors(a + b) == ClientProcessors(a) + ClientProcessors(b)
    decreases |b|
  {
    if |b| == 0 {
      assert a + b == a;
    } else {
      assert (a + b)[..|a + b| - 1] == a + b[..|b| - 1];
      ClientProcessorsAppend(a, b[..|b| - 1]);
    }
  }

  // ---------------------------------------------------------------------
  // Library index

  /** Libraries by specifier; a later library replaces an earlier one. */
  function LibraryIndex(libs: seq<Library>): map<LibrarySpecifier, Library>
  {
    if |libs| == 0 then map[]
    else LibraryIndex(libs[..|libs| - 1])[libs[|libs| - 1].specifier := libs[|libs| - 1]]
  }

  method IndexLibraries(libs: seq<Library>) returns (index: map<LibrarySpecifier, Library>)
    ensures index == LibraryIndex(libs)
  {
    index := map[];
    for i := 0 to |libs|
      invariant index == LibraryIndex(libs[..i])
    {
      assert libs[..i + 1][..i] == libs[..i];
      index := index[libs[i].specifier := libs[i]];
    }
    assert libs[..|libs|] == libs;
  }

  /** A specifier is indexed exactly when some library has it ... */
  lemma {:induction false} LibraryIndexDomain(libs: seq<Library>, spec: LibrarySpecifier)
    ensures spec in LibraryIndex(libs) <==> exists i :: 0 <= i < |libs| && libs[i].specifier == spec
  {
    if |libs| > 0 {
      var n := |libs| - 1;
      LibraryIndexDomain(libs[..n], spec);
      if exists i :: 0 <= i < |libs| && libs[i].specifier == spec {
        var i :| 0 <= i < |libs| && libs[i].specifier == spec;
        if i < n {
          assert libs[..n][i].specifier == spec;
        }
      }
      if exists i :: 0 <= i < n && libs[..n][i].specifier == spec {
        var i :| 0 <= i < n && libs[..n][i].specifier == spec;
        assert libs[i].specifier == spec;
      }
    }
  }

  /** ... and maps to the last library with it. */
  lemma {:induction false} LibraryIndexLastWins(libs: seq<Library>, i: nat)
    requires i < |libs|
    requires forall j :: i < j < |libs| ==> libs[j].specifier != libs[i].specifier
    ensures libs[i].specifier in LibraryIndex(libs) && LibraryIndex(libs)[libs[i].specifier] == libs[i]
  {
    var n := |libs| - 1;
    if i < n {
      assert forall j :: i < j < n ==> libs[..n][j] == libs[j];
      LibraryIndexLastWins(libs[..n], i);
      assert libs[..n][i] == libs[i];
    }
  }

  // ---------------------------------------------------------------------
  // Data variables

  /** Where an embedded installer file ("/path/in/installer") is extracted:
      under the temporary directory. */
  function ExtractedPath(tmpDir: string, client: string): string
  {
    tmpDir + client
  }

  const ErrNotEmbedded := "embedded installer file not present"

  /** The variables of the first `keys` data entries, and the disk after
      their embedded files were extracted; the first missing embedded file
      stops the scan. */
  function Variables(keys: seq<string>, data: map<string, DataEntry>, entries: map<string, Bytes>, tmpDir: string, fs: Fs)
    : (Result<map<string, string>>, Fs)
    requires forall k :: k in keys ==> k in data
  {
    if |keys| == 0 then (Ok(map[]), fs)
    else
      var (prev, fs1) := Variables(keys[..|keys| - 1], data, entries, tmpDir, fs);
      var k := keys[|keys| - 1];
      var client := data[k].client;
      if prev.Err? then (prev, fs1)
      else if !HasPrefix(client, "/") then (Ok(prev.value[k := client]), fs1)
      else if client[1..] !in entries then (Err(ErrNotEmbedded), fs1)
      else
        var path := ExtractedPath(tmpDir, client);
        (Ok(prev.value[k := path]), fs1.Mkdir(Dir(path)).Write(path, entries[client[1..]]))
  }

  /** The loop over the data entries (in the order `keys` gives, Go's map
      order): embedded files are extracted and referenced by their path. */
  method ExtractVariables(disk: Disk, keys: seq<string>, data: map<string, DataEntry>, entries: map<string, Bytes>, tmpDir: string)
    returns (r: Result<map<string, string>>)
    requires forall k :: k in keys ==> k in data
    modifies disk
    ensures (r, disk.State()) == Variables(keys, data, entries, tmpDir, old(disk.State()))
  {
    var vars: map<string, string> := map[];
    for i := 0 to |keys|
      invariant (Ok(vars), disk.State()) == Variables(keys[..i], data, entries, tmpDir, old(disk.State()))
    {
      assert keys[..i + 1][..i] == keys[..i];
      var client := data[keys[i]].client;
      if HasPrefix(client, "/") {
        var path := ExtractedPath(tmpDir, client);
        if client[1..] !in entries {
          r := Err(ErrNotEmbedded);
          assert (r, disk.State()) == Variables(keys[..i + 1], data, entries, tmpDir, old(disk.State()));
          ErrorPersists(keys, i + 1, data, entries, tmpDir, old(disk.State()));
          return;
        }
        disk.MkdirAll(Dir(path));
        disk.WriteFile(path, entries[client[1..]]);
        client := path;
      }
      vars := vars[keys[i] := client];
    }
    assert keys[..|keys|] == keys;
    r := Ok(vars);
  }

  /** Once the scan has failed, later keys change nothing. */
  lemma {:induction false} ErrorPersists(keys: seq<string>, n: nat, data: map<string, DataEntry>, entries: map<string, Bytes>,
                                          tmpDir: string, fs: Fs)
    requires n <= |keys| && forall k :: k in keys ==> k in data
    requires Variables(keys[..n], data, entries, tmpDir, fs).0.Err?
    ensures Variables(keys, data, entries, tmpDir, fs) == Variables(keys[..n], data, entries, tmpDir, fs)
    decreases |keys| - n
  {
    if n < |keys| {
      assert keys[..n + 1][..n] == keys[..n];
      ErrorPersists(keys, n + 1, data, entries, tmpDir, fs);
    } else {
      assert keys[..n] == keys;
    }
  }

  /** A key whose value is not an embedded path is taken as it is. */
  lemma {:induction false} PlainVariable(keys: seq<string>, data: map<string, DataEntry>, entries: map<string, Bytes>,
                                         tmpDir: string, fs: Fs, k: string)
    requires forall k :: k in keys ==> k in data
    requires Variables(keys, data, entries, tmpDir, fs).0.Ok?
    requires k in keys && !HasPrefix(data[k].client, "/")
    ensures k in Variables(keys, data, entries, tmpDir, fs).0.value
    ensures Variables(keys, data, entries, tmpDir, fs).0.value[k] == data[k].client
  {
    var n := |keys| - 1;
    if keys[n] != k {
      assert k in keys[..n] by {
        var i :| 0 <= i < |keys| && keys[i] == k;
        assert keys[..n][i] == k;
      }
      PlainVariable(keys[..n], data, entries, tmpDir, fs, k);
    }
  }

  // ---------------------------------------------------------------------
  // Argument substitution

  const ErrUnknownArgument := "unknown processor argument"
  const ErrInvalidSpecifier := "processor argument contains invalid library specifier"

  /** Go's panic on `arg[0]` of an empty string. */
  const ErrEmptyArgument := "runtime error: index out of range [0] with length 0"

  predicate Enclosed(arg: string, open: char, close: char)
  {
    |arg| > 0 && arg[0] == open && arg[|arg| - 1] == close
  }

  /** The second stage: "[spec]" becomes the library's path, "'x'" becomes x. */
  function Resolve(arg: string, librariesDir: string): (r: Result<string>)
    ensures !Enclosed(arg, '[', ']') && !Enclosed(arg, '\'', '\'') && |arg| > 0 ==> r == Ok(arg)
    ensures Enclosed(arg, '[', ']') ==>
      r == (match NewLibrarySpecifier(Trim(arg, {'[', ']'}))
            case Err(_) => Err(ErrInvalidSpecifier)
            case Ok(spec) => Ok(PathJoin(librariesDir, Path(spec))))
  {
    if |arg| == 0 then Err(ErrEmptyArgument)
    else if Enclosed(arg, '[', ']') then
      match NewLibrarySpecifier(Trim(arg, {'[', ']'}))
      case Err(_) => Err(ErrInvalidSpecifier)
      case Ok(spec) => Ok(PathJoin(librariesDir, Path(spec)))
    else if Enclosed(arg, '\'', '\'') then Ok(Trim(arg, {'\''}))
    else Ok(arg)
  }

  /** One processor argument: "{K}" is first replaced by variable K (an
      unknown K is an error), then the result is resolved. */
  function Substitute(arg: string, vars: map<string, string>, librariesDir: string): (r: Result<string>)
    ensures Enclosed(arg, '{', '}') && Trim(arg, {'{', '}'}) !in vars ==> r == Err(ErrUnknownArgument)
    ensures Enclosed(arg, '{', '}') && Trim(arg, {'{', '}'}) in vars ==> r == Resolve(vars[Trim(arg, {'{', '}'})], librariesDir)
    ensures !Enclosed(arg, '{', '}') ==> r == Resolve(arg, librariesDir)
  {
    if |arg| == 0 then Err(ErrEmptyArgument)
    else if Enclosed(arg, '{', '}') then
      var key := Trim(arg, {'{', '}'});
      if key !in vars then Err(ErrUnknownArgument) else Resolve(vars[key], librariesDir)
    else Resolve(arg, librariesDir)
  }

  /** All arguments of a processor, stopping at the first that fails. */
  function SubstituteAll(args: seq<string>, vars: map<string, string>, librariesDir: string): (r: Result<seq<string>>)
    ensures r.Ok? <==> forall i :: 0 <= i < |args| ==> Substitute(args[i], vars, librariesDir).Ok?
    ensures r.Ok? ==>
      && |r.value| == |args|
      && forall i :: 0 <= i < |args| ==> r.value[i] == Substitute(args[i], vars, librariesDir).value
  {
    var f := a => Substitute(a, vars, librariesDir);
    Collections.TryMapPointwise(args, f);
    Collections.TryMap(args, f)
  }

  // ---------------------------------------------------------------------
  // Commands

  const ErrLibraryNotFound := "post processor library not found"

  /** The classpath of a processor: the runtime paths of its libraries. */
  function ClasspathOf(specs: seq<LibrarySpecifier>, index: map<LibrarySpecifier, Library>, librariesDir: string)
    : (r: Result<seq<string>>)
    ensures r.Ok? <==> forall s :: s in specs ==> s in index
    ensures r.Ok? ==>
      && |r.value| == |specs|
      && forall i :: 0 <= i < |specs| ==> r.value[i] == RuntimePath(librariesDir, index[specs[i]].artifact)
  {
    if |specs| == 0 then Ok([])
    else
      var prev := ClasspathOf(specs[..|specs| - 1], index, librariesDir);
      var last := specs[|specs| - 1];
      assert forall s :: s in specs <==> s in specs[..|specs| - 1] || s == last;
      if prev.Err? then prev
      else if last !in index then Err(ErrLibraryNotFound)
      else Ok(prev.value + [RuntimePath(librariesDir, index[last].artifact)])
  }

  /** The value of the first manifest line starting "Main-Class: ", with
      surrounding white space removed; "" when there is none. */
  function MainClass(lines: seq<string>): (r: string)
  {
    if |lines| == 0 then ""
    else if HasPrefix(lines[0], "Main-Class: ") then Trim(lines[0][12..], WhiteSpace)
    else MainClass(lines[1..])
  }

  const WhiteSpace := {' ', '\t', '\n', '\r', '\U{000B}', '\U{000C}'}

  /** The scanning loop over the manifest's lines. */
  method ScanMainClass(lines: seq<string>) returns (mainClass: string)
    ensures mainClass == MainClass(lines)
  {
    mainClass := "";
    var i := 0;
    while i < |lines|
      invariant 0 <= i <= |lines|
      invariant MainClass(lines) == MainClass(lines[i..])
    {
      if HasPrefix(lines[i], "Main-Class: ") {
        mainClass := Trim(lines[i][12..], WhiteSpace);
        return;
      }
      assert lines[i..][1..] == lines[i + 1..];
      i := i + 1;
    }
  }

  /** A processor's command: its jar's manifest gives the main class, its
      classpath libraries then its jar form the classpath. */
  datatype ForgeProcessor = ForgeProcessor(javaArgs: seq<string>)

  const ManifestName := "META-INF/MANIFEST.MF"

  function JarEntries(files: map<string, Bytes>, jarPath: string, unzip: Unzip): Result<map<string, Bytes>>
  {
    if jarPath !in files then Err(Wrapped("read processor JAR", "open " + jarPath + ": no such file or directory"))
    else
      match unzip(files[jarPath])
      case Err(e) => Err(Wrapped("read processor JAR", e))
      case Ok(entries) => Ok(entries)
  }

  function Command(p: Processor, index: map<LibrarySpecifier, Library>, vars: map<string, string>,
                   librariesDir: string, goos: string, files: map<string, Bytes>, unzip: Unzip): (r: Result<ForgeProcessor>)
    ensures r.Ok? ==>
      && p.jar in index
      && var jarPath := RuntimePath(librariesDir, index[p.jar].artifact);
      && ClasspathOf(p.classpath, index, librariesDir).Ok?
      && SubstituteAll(p.args, vars, librariesDir).Ok?
      && |r.value.javaArgs| == 3 + |p.args|
      && r.value.javaArgs[0] == "-cp"
      && r.value.javaArgs[1] == Join(ClasspathOf(p.classpath, index, librariesDir).value + [jarPath], ListSeparator(goos))
      && r.value.javaArgs[2] != ""
      && r.value.javaArgs[3..] == SubstituteAll(p.args, vars, librariesDir).value
    ensures p.jar !in index ==> r == Err(ErrLibraryNotFound)
  {
    if p.jar !in index then Err(ErrLibraryNotFound)
    else
      var jarPath := RuntimePath(librariesDir, index[p.jar].artifact);
      var jar := JarEntries(files, jarPath, unzip);
      if jar.Err? then Err(jar.error)
      else if ManifestName !in jar.value then Err("processor manifest not present")
      else
        var mainClass := MainClass(Split(RawString(jar.value[ManifestName]), '\n'));
        if mainClass == "" then Err("no main class found in processor manifest")
        else
          var paths := ClasspathOf(p.classpath, index, librariesDir);
          if paths.Err? then Err(paths.error)
          else
            var args := SubstituteAll(p.args, vars, librariesDir);
            if args.Err? then Err(args.error)
            else
              var javaArgs := ["-cp", Join(paths.value + [jarPath], ListSeparator(goos)), mainClass] + args.value;
              assert javaArgs[3..] == args.value;
              Ok(ForgeProcessor(javaArgs))
  }

  /** The commands of the processors, stopping at the first that fails. */
  function Commands(ps: seq<Processor>, index: map<LibrarySpecifier, Library>, vars: map<string, string>,
                    librariesDir: string, goos: string, files: map<string, Bytes>, unzip: Unzip): (r: Result<seq<ForgeProcessor>>)
    ensures r.Ok? <==> forall i :: 0 <= i < |ps| ==> Command(ps[i], index, vars, librariesDir, goos, files, unzip).Ok?
    ensures r.Ok? ==>
      && |r.value| == |ps|
      && forall i :: 0 <= i < |ps| ==> Ok(r.value[i]) == Command(ps[i], index, vars, librariesDir, goos, files, unzip)
  {
    var f := CommandOf(index, vars, librariesDir, goos, files, unzip);
    Collections.TryMapPointwise(ps, f);
    Collections.TryMap(ps, f)
  }

  function CommandOf(index: map<LibrarySpecifier, Library>, vars: map<string, string>,
                     librariesDir: string, goos: string, files: map<string, Bytes>, unzip: Unzip): Processor -> Result<ForgeProcessor>
  {
    p => Command(p, index, vars, librariesDir, goos, files, unzip)
  }

  /** The command loop. */
  method BuildCommands(ps: seq<Processor>, index: map<LibrarySpecifier, Library>, vars: map<string, string>,
                       librariesDir: string, goos: string, disk: Disk, unzip: Unzip) returns (r: Result<seq<ForgeProcessor>>)
    ensures r == Commands(ps, index, vars, librariesDir, goos, disk.files, unzip)
  {
    r := Collections.TryMapLoop(ps, CommandOf(index, vars, librariesDir, goos, disk.files, unzip));
  }

  // ---------------------------------------------------------------------
  // FetchPostProcessors

  /** The variables after the data entries: SIDE is "client" and
      MINECRAFT_JAR the base game's client jar. */
  function WithBuiltins(vars: map<string, string>, base: VersionMeta, librariesDir: string): (r: map<string, string>)
    ensures "SIDE" in r && "MINECRAFT_JAR" in r
    ensures r["SIDE"] == "client" && r["MINECRAFT_JAR"] == RuntimePath(librariesDir, MetaMinecraft.Client(base).artifact)
  {
    vars["SIDE" := "client"]["MINECRAFT_JAR" := RuntimePath(librariesDir, MetaMinecraft.Client(base).artifact)]
  }

  /** The patched client the processors produce. */
  function PatchedClient(profile: InstallProfile): Result<LibrarySpecifier>
  {
    var client := if "PATCHED" in profile.data then profile.data["PATCHED"].client else "";
    match NewLibrarySpecifier(Trim(client, {'[', ']'}))
    case Err(e) => Err(Wrapped("invalid patched client specifier", e))
    case Ok(spec) => Ok(spec)
  }

  /** The commands planned for a profile's client processors. */
  predicate Planned(cmds: seq<ForgeProcessor>, profile: InstallProfile, vars: map<string, string>, base: VersionMeta,
                    librariesDir: string, goos: string, files: map<string, Bytes>, unzip: Unzip)
  {
    Commands(ClientProcessors(profile.processors), LibraryIndex(profile.libraries),
             WithBuiltins(vars, base, librariesDir), librariesDir, goos, files, unzip) == Ok(cmds)
  }

  /** The two fetches `forge.FetchPostProcessors` starts with: the
      installer (an error wrapped as "fetch installer"), then the metadata
      through `forge.FetchMeta`, which fetches the installer again (an error
      wrapped as "retrieve metadata"). The result carries the installer's
      entries and the install profile; the disk is the one both fetches
      leave. */
  function ProfileFetched(fs: Fs, web: Client, cachesDir: string, f: Flavor, version: string, unzip: Unzip,
                          metaJson: MetaJson, profileJson: ProfileJson)
    : (Result<(map<string, Bytes>, InstallProfile)>, Fs)
  {
    var (entries, fs1) := InstallerFetched(fs, web, cachesDir, f, version, unzip);
    if entries.Err? then (Err(Wrapped("fetch installer", entries.error)), fs1)
    else
      var (again, fs2) := InstallerFetched(fs1, web, cachesDir, f, version, unzip);
      var meta := if again.Err? then Err(Wrapped("fetch installer", again.error))
                  else MetaFromEntries(again.value, version, metaJson, profileJson);
      if meta.Err? then (Err(Wrapped("retrieve metadata", meta.error)), fs2)
      else (Ok((entries.value, meta.value.1)), fs2)
  }

  /** Once an installer fetch has succeeded, the installer is on disk, so
      the second fetch makes no request, changes nothing and unpacks the same
      entries: the profile is read from the installer whose entries the
      variables are extracted from. */
  lemma RefetchReusesInstaller(fs: Fs, web: Client, cachesDir: string, f: Flavor, version: string, unzip: Unzip)
    requires InstallerFetched(fs, web, cachesDir, f, version, unzip).0.Ok?
    ensures var (entries, fs1) := InstallerFetched(fs, web, cachesDir, f, version, unzip);
      InstallerFetched(fs1, web, cachesDir, f, version, unzip) == (entries, fs1)
  {
    var path := InstallerPath(cachesDir, f, version);
    var fs1 := InstallerFetched(fs, web, cachesDir, f, version, unzip).1;
    assert path in fs1.files || path in fs1.dirs;
  }

  /** The keys of a data map in one iteration order: each once. */
  predicate KeyOrder(keys: seq<string>, data: map<string, DataEntry>)
  {
    && (forall k :: k in keys ==> k in data)
    && (forall k :: k in data ==> k in keys)
    && (forall i, j :: 0 <= i < j < |keys| ==> keys[i] != keys[j])
  }

  /** A path is present on disk as a file or a directory (`os.Stat`
      succeeds). */
  predicate Exists(fs: Fs, p: string)
  {
    p in fs.files || p in fs.dirs
  }

  /** What follows the fetches for an install profile whose data entries
      are visited in the order `keys`: nothing is to be done when the
      patched client is already installed under `librariesDir`; otherwise
      the data variables are set (embedded files extracted under `tmpDir`),
      the base game's metadata must have been retrieved, and every client
      processor becomes a command. */
  function Processed(entries: map<string, Bytes>, profile: InstallProfile, keys: seq<string>, fs: Fs,
                     librariesDir: string, goos: string, tmpDir: string, base: Result<VersionMeta>, unzip: Unzip)
    : (Result<seq<ForgeProcessor>>, Fs)
    requires forall k :: k in keys ==> k in profile.data
  {
    var client := PatchedClient(profile);
    if client.Err? then (Err(client.error), fs)
    else
      var patched := PathJoin(librariesDir, Path(client.value));
      if Exists(fs, patched) then (Ok([]), fs)
      else
        var (vars, fs1) := Variables(keys, profile.data, entries, tmpDir, fs);
        if vars.Err? then (Err(vars.error), fs1)
        else if base.Err? then (Err(Wrapped("retrieve version metadata", base.error)), fs1)
        else
          var cmds := Commands(ClientProcessors(profile.processors), LibraryIndex(profile.libraries),
                               WithBuiltins(vars.value, base.value, librariesDir), librariesDir, goos, fs1.files, unzip);
          (cmds, fs1)
  }

  /** A bad patched-client specifier fails before the disk is touched. */
  lemma PatchedClientInvalid(entries: map<string, Bytes>, profile: InstallProfile, keys: seq<string>, fs: Fs,
                             librariesDir: string, goos: string, tmpDir: string, base: Result<VersionMeta>, unzip: Unzip)
    requires forall k :: k in keys ==> k in profile.data
    requires PatchedClient(profile).Err?
    ensures var r := Processed(entries, profile, keys, fs, librariesDir, goos, tmpDir, base, unzip);
      && r.1 == fs && r.0.Err?
      && HasPrefix(r.0.error, "invalid patched client specifier: ")
  {
    var r := Processed(entries, profile, keys, fs, librariesDir, goos, tmpDir, base, unzip);
    assert r == (Err(PatchedClient(profile).error), fs);
    var e := NewLibrarySpecifier(Trim(if "PATCHED" in profile.data then profile.data["PATCHED"].client else "", {'[', ']'})).error;
    var p := "invalid patched client specifier: ";
    assert PatchedClient(profile).error == p + e by {
      assert PatchedClient(profile).error == "invalid patched client specifier" + ": " + e;
    }
    assert (p + e)[..|p|] == p;
  }

  /** An installed patched client leaves nothing to do and the disk as it
      was. */
  lemma PatchedClientInstalled(entries: map<string, Bytes>, profile: InstallProfile, keys: seq<string>, fs: Fs,
                               librariesDir: string, goos: string, tmpDir: string, base: Result<VersionMeta>, unzip: Unzip)
    requires forall k :: k in keys ==> k in profile.data
    requires PatchedClient(profile).Ok? && Exists(fs, PathJoin(librariesDir, Path(PatchedClient(profile).value)))
    ensures Processed(entries, profile, keys, fs, librariesDir, goos, tmpDir, base, unzip) == (Ok([]), fs)
  {
  }

  /** Without the base game's metadata, the extracted variables are kept on
      disk and the error is wrapped as "retrieve version metadata". */
  lemma BaseMetadataMissing(entries: map<string, Bytes>, profile: InstallProfile, keys: seq<string>, fs: Fs,
                            librariesDir: string, goos: string, tmpDir: string, base: Result<VersionMeta>, unzip: Unzip)
    requires forall k :: k in keys ==> k in profile.data
    requires PatchedClient(profile).Ok? && !Exists(fs, PathJoin(librariesDir, Path(PatchedClient(profile).value)))
    requires Variables(keys, profile.data, entries, tmpDir, fs).0.Ok? && base.Err?
    ensures Processed(entries, profile, keys, fs, librariesDir, goos, tmpDir, base, unzip)
            == (Err(Wrapped("retrieve version metadata", base.error)), Variables(keys, profile.data, entries, tmpDir, fs).1)
  {
  }

  /** A non-empty plan is the commands of the profile's client processors
      over its data variables and the built-in ones, run against the disk
      the extraction left. */
  lemma ProcessedPlans(entries: map<string, Bytes>, profile: InstallProfile, keys: seq<string>, fs: Fs,
                       librariesDir: string, goos: string, tmpDir: string, base: Result<VersionMeta>, unzip: Unzip)
    requires forall k :: k in keys ==> k in profile.data
    requires Processed(entries, profile, keys, fs, librariesDir, goos, tmpDir, base, unzip).0 != Ok([])
    requires Processed(entries, profile, keys, fs, librariesDir, goos, tmpDir, base, unzip).0.Ok?
    ensures var (vars, fs1) := Variables(keys, profile.data, entries, tmpDir, fs);
      var r := Processed(entries, profile, keys, fs, librariesDir, goos, tmpDir, base, unzip);
      && base.Ok? && vars.Ok? && r.1 == fs1
      && Planned(r.0.value, profile, vars.value, base.value, librariesDir, goos, fs1.files, unzip)
  {
    var client := PatchedClient(profile);
    assert client.Ok?;
    assert !Exists(fs, PathJoin(librariesDir, Path(client.value)));
    var (vars, fs1) := Variables(keys, profile.data, entries, tmpDir, fs);
    assert vars.Ok? && base.Ok?;
    assert Processed(entries, profile, keys, fs, librariesDir, goos, tmpDir, base, unzip)
           == (Commands(ClientProcessors(profile.processors), LibraryIndex(profile.libraries),
                        WithBuiltins(vars.value, base.value, librariesDir), librariesDir, goos, fs1.files, unzip), fs1);
  }

  /** `forge.FetchPostProcessors`: the installer is fetched (and then
      fetched again through `FetchMeta`), then the steps of `Processed` run
      over the profile, visiting the data entries in Go's map order. `base`
      is the outcome of fetching the game's own metadata. */
  method FetchPostProcessors(disk: Disk, web: Client, sha1: Sha1, cachesDir: string, librariesDir: string, goos: string,
                             tmpDir: string, f: Flavor, version: string, unzip: Unzip, metaJson: MetaJson,
                             profileJson: ProfileJson,
                             base: Result<VersionMeta>)
    returns (r: Result<seq<ForgeProcessor>>)
    modifies disk
    ensures var (pre, fs2) := ProfileFetched(old(disk.State()), web, cachesDir, f, version, unzip, metaJson, profileJson);
      && (pre.Err? ==> r == Err(pre.error) && disk.State() == fs2)
      && (pre.Ok? ==> exists keys ::
            && KeyOrder(keys, pre.value.1.data)
            && (r, disk.State()) == Processed(pre.value.0, pre.value.1, keys, fs2, librariesDir, goos, tmpDir, base, unzip))
  {
    var entries := FetchInstaller(disk, web, sha1, cachesDir, f, version, unzip);
    if entries.Err? {
      return Err(Wrapped("fetch installer", entries.error));
    }
    var meta := FetchMeta(disk, web, sha1, cachesDir, f, version, unzip, metaJson, profileJson);
    if meta.Err? {
      return Err(Wrapped("retrieve metadata", meta.error));
    }
    var profile := meta.value.1;
    var keys := Collections.MapKeys(profile.data);
    ghost var fs2 := disk.State();
    var client := PatchedClient(profile);
    if client.Err? {
      r := Err(client.error);
      assert KeyOrder(keys, profile.data);
      return;
    }
    if disk.Exists(PathJoin(librariesDir, Path(client.value))) {
      r := Ok([]);
      assert KeyOrder(keys, profile.data);
      return;
    }
    var processors := FilterProcessors(profile.processors);
    var index := IndexLibraries(profile.libraries);
    var vars := ExtractVariables(disk, keys, profile.data, entries.value, tmpDir);
    if vars.Err? {
      r := Err(vars.error);
      assert KeyOrder(keys, profile.data);
      return;
    }
    if base.Err? {
      r := Err(Wrapped("retrieve version metadata", base.error));
      assert KeyOrder(keys, profile.data);
      return;
    }
    var allVars := WithBuiltins(vars.value, base.value, librariesDir);
    r := BuildCommands(processors, index, allVars, librariesDir, goos, disk, unzip);
    assert KeyOrder(keys, profile.data);
  }
}
