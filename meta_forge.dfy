// Forge and NeoForge metadata of the current Go launcher
// (internal/meta/forge.go): the loader version lookups, the installer URLs
// and their cache files, and the version metadata read out of an installer
// with the install profile's libraries appended.
module MetaForge {
  import opened Wrappers
  import opened Strs
  import opened FileSystem
  import opened Web
  import Network
  import opened Maven
  import opened MetaMinecraft

  // ---------------------------------------------------------------------
  // Loader versions

  const NeoforgeLegacyURL := "https://maven.neoforged.net/api/maven/latest/version/releases/net/neoforged/forge?filter=1.20.1-"
  const NeoforgeFilterURL := "https://maven.neoforged.net/api/maven/latest/version/releases/net/neoforged/neoforge?filter="
  const PromotionsURL := "https://files.minecraftforge.net/net/minecraftforge/forge/promotions_slim.json"

  const ErrNoVersion := "no version found for specified game version"

  /** The URL asked for the newest NeoForge release of a game version:
      1.20.1 uses the legacy "forge" artifact, any other version filters on
      the version without its first component. */
  function NeoforgeURL(gameVersion: string): string
    requires |Split(gameVersion, '.')| >= 2
  {
    if gameVersion == "1.20.1" then NeoforgeLegacyURL
    else NeoforgeFilterURL + Join(Split(gameVersion, '.')[1..], ".")
  }

  /** The decoded "version" field of a NeoForge answer: None when it is
      missing or not a string. */
  type NeoforgeJson = Bytes -> Result<Option<string>>

  /** `FetchNeoforgeVersion`. */
  function FetchNeoforgeVersion(web: Client, gameVersion: string, json: NeoforgeJson): (r: Result<string>)
    ensures |Split(gameVersion, '.')| < 2 ==> r == Err("invalid version format")
    ensures r.Ok? ==>
      var url := NeoforgeURL(gameVersion);
      Fetched(web, url) && json(web(url).value.body) == Ok(Some(r.value))
    ensures |Split(gameVersion, '.')| >= 2 && web(NeoforgeURL(gameVersion)).Ok? && web(NeoforgeURL(gameVersion)).value.status == 404 ==>
      r == Err(ErrNoVersion)
  {
    if |Split(gameVersion, '.')| < 2 then Err("invalid version format")
    else
      var url := NeoforgeURL(gameVersion);
      var resp := web(url);
      if resp.Err? then Err(resp.error)
      else
        var check := Network.CheckResponse("GET", url, resp.value.status);
        if check.Some? then
          if check.value.statusCode == 404 then Err(ErrNoVersion) else Err(Network.ErrorText(check.value))
        else
          var data := json(resp.value.body);
          if data.Err? then Err(data.error)
          else if data.value.None? then Err("invalid data")
          else Ok(data.value.value)
  }

  /** The filter is the game version without its first component. */
  lemma NeoforgeFilter(major: string, rest: string)
    requires '.' !in major && major + "." + rest != "1.20.1"
    ensures |Split(major + "." + rest, '.')| >= 2
    ensures NeoforgeURL(major + "." + rest) == NeoforgeFilterURL + rest
  {
    SplitAtSeparator(major, rest, '.');
    assert major + "." + rest == major + ['.'] + rest;
    var parts := Split(major + "." + rest, '.');
    assert parts[1..] == Split(rest, '.');
    JoinOfSplit(rest, '.');
  }

  /** The "promos" map of the promotions file. */
  type PromotionsJson = Bytes -> Result<map<string, string>>

  /** `FetchForgeVersion`: the promoted "<game>-latest" build, prefixed with
      the game version. */
  function FetchForgeVersion(web: Client, gameVersion: string, json: PromotionsJson): (r: Result<string>)
    ensures r.Ok? <==>
      Fetched(web, PromotionsURL) && json(web(PromotionsURL).value.body).Ok?
      && gameVersion + "-latest" in json(web(PromotionsURL).value.body).value
    ensures r.Ok? ==> r.value == gameVersion + "-" + json(web(PromotionsURL).value.body).value[gameVersion + "-latest"]
    ensures Fetched(web, PromotionsURL) && json(web(PromotionsURL).value.body).Ok?
            && gameVersion + "-latest" !in json(web(PromotionsURL).value.body).value ==>
      r == Err(ErrNoVersion)
    ensures Fetched(web, PromotionsURL) && json(web(PromotionsURL).value.body).Err? ==>
      r == Err(Wrapped("read promoted versions", json(web(PromotionsURL).value.body).error))
  {
    var resp := web(PromotionsURL);
    if resp.Err? then Err(resp.error)
    else
      var check := Network.CheckResponse("GET", PromotionsURL, resp.value.status);
      if check.Some? then Err(Network.ErrorText(check.value))
      else
        var promos := json(resp.value.body);
        if promos.Err? then Err(Wrapped("read promoted versions", promos.error))
        else if gameVersion + "-latest" !in promos.value then Err(ErrNoVersion)
        else Ok(gameVersion + "-" + promos.value[gameVersion + "-latest"])
  }

  // ---------------------------------------------------------------------
  // Installers

  datatype Flavor = Forge | Neoforge

  function InstallerName(f: Flavor, version: string): string
  {
    match f
    case Forge => "forge-" + version + "-installer.jar"
    case Neoforge => "neoforge-" + version + "-installer.jar"
  }

  function InstallerDir(f: Flavor, version: string): string
  {
    match f
    case Forge => "https://maven.minecraftforge.net/net/minecraftforge/forge/" + version
    case Neoforge => "https://maven.neoforged.net/releases/net/neoforged/neoforge/" + version
  }

  /** The installer URL: <repository>/<version>/<flavor>-<version>-installer.jar. */
  function InstallerURL(f: Flavor, version: string): string
  {
    PathJoin(InstallerDir(f, version), InstallerName(f, version))
  }

  /** The cached installer: <caches>/forge/<base name of the URL>. */
  function InstallerPath(cachesDir: string, f: Flavor, version: string): string
  {
    PathJoin(PathJoin(cachesDir, "forge"), Base(InstallerURL(f, version)))
  }

  /** A version without '/' gives the installer its own file name in the
      cache, distinct for the two flavors. */
  lemma InstallerPathName(cachesDir: string, f: Flavor, version: string)
    requires '/' !in version
    ensures InstallerPath(cachesDir, f, version) == PathJoin(PathJoin(cachesDir, "forge"), InstallerName(f, version))
    ensures InstallerPath(cachesDir, Forge, version) != InstallerPath(cachesDir, Neoforge, version)
  {
    InstallerBase(f, version);
    InstallerBase(Forge, version);
    InstallerBase(Neoforge, version);
    var base := PathJoin(cachesDir, "forge");
    var a := PathJoin(base, InstallerName(Forge, version));
    var b := PathJoin(base, InstallerName(Neoforge, version));
    assert a[|base| + 1] == 'f' && b[|base| + 1] == 'n';
  }

  /** The installer URL's base name is the installer's file name. */
  lemma InstallerBase(f: Flavor, version: string)
    requires '/' !in version
    ensures Base(InstallerURL(f, version)) == InstallerName(f, version)
  {
    var name := InstallerName(f, version);
    assert '/' !in name by {
      assert '/' !in "forge-" && '/' !in "neoforge-" && '/' !in "-installer.jar";
    }
    JoinUnder(InstallerDir(f, version), name);
  }

  /** The entries of a ZIP archive, by name. */
  type Unzip = Bytes -> Result<map<string, Bytes>>

  /** The archive read back from the cache file (a failed read gives no
      bytes, which then fail to unzip). */
  function Unpacked(files: map<string, Bytes>, path: string, unzip: Unzip): Result<map<string, Bytes>>
  {
    var data := if path in files then files[path] else [];
    match unzip(data)
    case Err(e) => Err(Wrapped("read", e))
    case Ok(entries) => Ok(entries)
  }

  /** What `forge.FetchInstaller` returns and the disk it leaves: an
      installer already on disk is unpacked as it is; otherwise the download's
      transport error, "invalid version" for a 404, the status error for any
      other failing status, or the downloaded file unpacked. */
  function InstallerFetched(fs: Fs, web: Client, cachesDir: string, f: Flavor, version: string, unzip: Unzip)
    : (Result<map<string, Bytes>>, Fs)
  {
    var path := InstallerPath(cachesDir, f, version);
    var url := InstallerURL(f, version);
    if path in fs.files || path in fs.dirs then (Unpacked(fs.files, path, unzip), fs)
    else if web(url).Err? then (Err(web(url).error), fs)
    else if web(url).value.status == 404 then (Err("invalid version"), fs)
    else if !Success(web(url).value.status) then
      (Err(Network.ErrorText(Network.HTTPStatusError(url, "GET", web(url).value.status))), fs)
    else
      var fs1 := fs.Write(path, web(url).value.body).(dirs := fs.dirs + {Dir(path)});
      (Unpacked(fs1.files, path, unzip), fs1)
  }

  /** `forge.FetchInstaller`: an installer already on disk is reused;
      otherwise it is downloaded, and a 404 means the version is invalid. */
  method FetchInstaller(disk: Disk, web: Client, sha1: Sha1, cachesDir: string, f: Flavor, version: string, unzip: Unzip)
    returns (r: Result<map<string, Bytes>>)
    modifies disk
    ensures var path := InstallerPath(cachesDir, f, version);
      var url := InstallerURL(f, version);
      && (old(disk.Exists(path)) ==> disk.State() == old(disk.State()) && r == Unpacked(disk.files, path, unzip))
      && (!old(disk.Exists(path)) ==>
            && (web(url).Err? ==> r == Err(web(url).error) && disk.State() == old(disk.State()))
            && (web(url).Ok? && web(url).value.status == 404 ==> r == Err("invalid version") && disk.State() == old(disk.State()))
            && (web(url).Ok? && web(url).value.status != 404 && !Success(web(url).value.status) ==>
                  r == Err(Network.ErrorText(Network.HTTPStatusError(url, "GET", web(url).value.status)))
                  && disk.State() == old(disk.State()))
            && (Fetched(web, url) ==>
                  disk.files == old(disk.files)[path := web(url).value.body]
                  && disk.dirs == old(disk.dirs) + {Dir(path)}
                  && r == Unpacked(disk.files, path, unzip)))
    ensures r.Ok? ==> r == Unpacked(disk.files, InstallerPath(cachesDir, f, version), unzip)
    ensures (r, disk.State()) == InstallerFetched(old(disk.State()), web, cachesDir, f, version, unzip)
  {
    var url := InstallerURL(f, version);
    var path := InstallerPath(cachesDir, f, version);
    if !disk.Exists(path) {
      var err := Network.DownloadFile(disk, web, sha1, Network.DownloadEntry(url, path, "", 0));
      if err.Some? {
        if web(url).Ok? && web(url).value.status == 404 {
          return Err("invalid version");
        }
        return Err(err.value);
      }
    }
    var data := disk.Read(path);
    var contents := if data.Ok? then data.value else [];
    var entries := unzip(contents);
    if entries.Err? {
      return Err(Wrapped("read", entries.error));
    }
    return Ok(entries.value);
  }

  // ---------------------------------------------------------------------
  // Install profiles and version metadata

  /** One "data" entry of an install profile. */
  datatype DataEntry = DataEntry(client: string, server: string)

  /** A post processor: the sides it runs on, its jar, classpath and
      arguments. */
  datatype Processor = Processor(sides: seq<string>, jar: LibrarySpecifier, classpath: seq<LibrarySpecifier>, args: seq<string>)

  datatype InstallProfile = InstallProfile(data: map<string, DataEntry>, processors: seq<Processor>, libraries: seq<Library>)

  type MetaJson = Bytes -> Result<VersionMeta>
  type ProfileJson = Bytes -> Result<InstallProfile>

  /** Install-profile libraries as appended: kept off the classpath. */
  function OffClasspath(libs: seq<Library>): (r: seq<Library>)
    ensures |r| == |libs|
    ensures forall i :: 0 <= i < |r| ==> r[i] == libs[i].(skipOnClasspath := true)
  {
    seq(|libs|, i requires 0 <= i < |libs| => libs[i].(skipOnClasspath := true))
  }

  /** The official client named by the MC_OFF data entry, brackets trimmed. */
  function OfficialClient(profile: InstallProfile): (r: Option<Result<Library>>)
    ensures r.None? <==> "MC_OFF" !in profile.data
  {
    if "MC_OFF" !in profile.data then None
    else
      match NewLibrarySpecifier(Trim(profile.data["MC_OFF"].client, {'[', ']'}))
      case Err(_) => Some(Err("invalid official client specifier"))
      case Ok(spec) => Some(Ok(Library(Artifact(Path(spec), "", 0, ""), [], spec, true, false)))
  }

  /** The loader metadata: version.json's libraries, then the profile's
      libraries off the classpath, then the official client if named; the
      loader id is the requested version. */
  function ForgeMeta(meta: VersionMeta, profile: InstallProfile, version: string): (r: Result<VersionMeta>)
    ensures r.Err? <==> OfficialClient(profile) == Some(Err("invalid official client specifier"))
    ensures r.Ok? ==>
      && r.value.loaderID == version
      && r.value.(libraries := meta.libraries, loaderID := meta.loaderID) == meta
      && |r.value.libraries| == |meta.libraries| + |profile.libraries| + (if "MC_OFF" in profile.data then 1 else 0)
      && r.value.libraries[..|meta.libraries| + |profile.libraries|] == meta.libraries + OffClasspath(profile.libraries)
  {
    var libs := meta.libraries + OffClasspath(profile.libraries);
    match OfficialClient(profile)
    case None => Ok(meta.(libraries := libs).(loaderID := version))
    case Some(Err(e)) => Err(e)
    case Some(Ok(client)) =>
      assert (libs + [client])[..|libs|] == libs;
      Ok(meta.(libraries := libs + [client]).(loaderID := version))
  }

  /** The official client is a library that is installed, on the classpath,
      at the Maven path of its specifier. */
  lemma OfficialClientLast(meta: VersionMeta, profile: InstallProfile, version: string)
    requires "MC_OFF" in profile.data
    requires ForgeMeta(meta, profile, version).Ok?
    ensures var libs := ForgeMeta(meta, profile, version).value.libraries;
      var spec := NewLibrarySpecifier(Trim(profile.data["MC_OFF"].client, {'[', ']'})).value;
      && libs[|libs| - 1].specifier == spec
      && libs[|libs| - 1].artifact.path == Path(spec)
      && libs[|libs| - 1].shouldInstall && !libs[|libs| - 1].skipOnClasspath
  {
  }

  /** The result of a successful metadata fetch from installer entries. */
  function MetaFromEntries(entries: map<string, Bytes>, version: string, metaJson: MetaJson, profileJson: ProfileJson)
    : Result<(VersionMeta, InstallProfile)>
  {
    if "version.json" !in entries then Err("version metadata not present in installer")
    else
      var meta := metaJson(entries["version.json"]);
      if meta.Err? then Err(Wrapped("parse version metadata", meta.error))
      else if "install_profile.json" !in entries then Err("install profile not present in installer")
      else
        var profile := profileJson(entries["install_profile.json"]);
        if profile.Err? then Err(Wrapped("parse install profile", profile.error))
        else
          var m := ForgeMeta(meta.value, profile.value, version);
          if m.Err? then Err(m.error) else Ok((m.value, profile.value))
  }

  /** `forge.FetchMeta`: the installer's version.json with the install
      profile's libraries appended (see `ForgeMeta`), and the profile. */
  method FetchMeta(disk: Disk, web: Client, sha1: Sha1, cachesDir: string, f: Flavor, version: string,
                   unzip: Unzip, metaJson: MetaJson, profileJson: ProfileJson)
    returns (r: Result<(VersionMeta, InstallProfile)>)
    modifies disk
    ensures var path := InstallerPath(cachesDir, f, version);
      && (old(disk.Exists(path)) ==> disk.State() == old(disk.State()))
      && (old(disk.Exists(path)) && Unpacked(disk.files, path, unzip).Err? ==>
            r == Err(Wrapped("fetch installer", Unpacked(disk.files, path, unzip).error)))
      && (r.Ok? ==> Unpacked(disk.files, path, unzip).Ok?
                    && r == MetaFromEntries(Unpacked(disk.files, path, unzip).value, version, metaJson, profileJson))
    ensures var (installer, fs1) := InstallerFetched(old(disk.State()), web, cachesDir, f, version, unzip);
      && disk.State() == fs1
      && (installer.Err? ==> r == Err(Wrapped("fetch installer", installer.error)))
      && (installer.Ok? ==> r == MetaFromEntries(installer.value, version, metaJson, profileJson))
  {
    var entries := FetchInstaller(disk, web, sha1, cachesDir, f, version, unzip);
    if entries.Err? {
      return Err(Wrapped("fetch installer", entries.error));
    }
    r := MetaFromInstaller(entries.value, version, metaJson, profileJson);
  }

  /** The reading of version.json and install_profile.json out of the
      installer, and the appending of the profile's libraries. */
  method MetaFromInstaller(files: map<string, Bytes>, version: string, metaJson: MetaJson, profileJson: ProfileJson)
    returns (r: Result<(VersionMeta, InstallProfile)>)
    ensures r == MetaFromEntries(files, version, metaJson, profileJson)
  {
    if "version.json" !in files {
      return Err("version metadata not present in installer");
    }
    var meta := metaJson(files["version.json"]);
    if meta.Err? {
      return Err(Wrapped("parse version metadata", meta.error));
    }
    if "install_profile.json" !in files {
      return Err("install profile not present in installer");
    }
    var profile := profileJson(files["install_profile.json"]);
    if profile.Err? {
      return Err(Wrapped("parse install profile", profile.error));
    }
    var versionMeta := meta.value;
    var libs := profile.value.libraries;
    var i := 0;
    while i < |libs|
      invariant 0 <= i <= |libs|
      invariant versionMeta == meta.value.(libraries := meta.value.libraries + OffClasspath(libs[..i]))
    {
      versionMeta := versionMeta.(libraries := versionMeta.libraries + [libs[i].(skipOnClasspath := true)]);
      assert OffClasspath(libs[..i + 1]) == OffClasspath(libs[..i]) + [libs[i].(skipOnClasspath := true)];
      i := i + 1;
    }
    assert libs[..i] == libs;
    if "MC_OFF" in profile.value.data {
      var specifier := NewLibrarySpecifier(Trim(profile.value.data["MC_OFF"].client, {'[', ']'}));
      if specifier.Err? {
        return Err("invalid official client specifier");
      }
      versionMeta := versionMeta.(libraries := versionMeta.libraries + [Library(Artifact(Path(specifier.value), "", 0, ""), [], specifier.value, true, false)]);
    }
    versionMeta := versionMeta.(loaderID := version);
    return Ok((versionMeta, profile.value));
  }
}
