// Modrinth project lookups: the early Go generation (internal/api/modrinth.go)
// downloads the first file of the first version that supports both the game
// version and the loader; the Deno generation (api/modrinth.ts) looks for
// the first version that supports the game version, whatever its loaders.
module Modrinth {
  import opened Wrappers
  import opened FileSystem
  import opened Web
  import GoUtil
  import DenoApi

  const ApiBase := "https://api.modrinth.com/v2/"

  /** One entry of `files` of a project version. */
  datatype ProjectFile = ProjectFile(url: string, filename: string)

  /** The fields of a project version the launcher reads. */
  datatype ProjectVersion = ProjectVersion(gameVersions: seq<string>, loaders: seq<string>, id: string, files: seq<ProjectFile>)

  function ProjectURL(id: string): string
  {
    ApiBase + "project/" + id
  }

  function VersionsURL(id: string): string
  {
    ApiBase + "project/" + id + "/version"
  }

  /** The search URL: the query goes in as it is, without escaping. */
  function SearchURL(q: string): (r: string)
    ensures |r| == |ApiBase + "search?query="| + |q|
    ensures r[..|ApiBase + "search?query="|] == ApiBase + "search?query="
    ensures r[|ApiBase + "search?query="|..] == q
  {
    ApiBase + "search?query=" + q
  }

  /** The position of the first element at or after `from` that satisfies
      `p`. */
  function FirstFrom<T>(xs: seq<T>, p: T -> bool, from: nat): (r: Option<nat>)
    requires from <= |xs|
    ensures r.Some? ==> from <= r.value < |xs| && p(xs[r.value]) && forall j :: from <= j < r.value ==> !p(xs[j])
    ensures r.None? ==> forall j :: from <= j < |xs| ==> !p(xs[j])
    decreases |xs| - from
  {
    if from == |xs| then None
    else if p(xs[from]) then Some(from)
    else FirstFrom(xs, p, from + 1)
  }

  /** `Array.prototype.find` and the Go loop's early return: the first
      element that satisfies `p`. */
  function First<T>(xs: seq<T>, p: T -> bool): (r: Option<nat>)
    ensures r.Some? ==> r.value < |xs| && p(xs[r.value]) && forall j :: 0 <= j < r.value ==> !p(xs[j])
    ensures r.None? ==> forall j :: 0 <= j < |xs| ==> !p(xs[j])
  {
    FirstFrom(xs, p, 0)
  }

  /** The Go condition: the version lists both the loader and the game
      version. */
  predicate Supports(v: ProjectVersion, gameVersion: string, loader: string)
  {
    loader in v.loaders && gameVersion in v.gameVersions
  }

  /** The Deno condition: only the game version is looked at. */
  predicate SupportsGame(v: ProjectVersion, gameVersion: string)
  {
    gameVersion in v.gameVersions
  }

  // ---------------------------------------------------------------------
  // internal/api/modrinth.go

  /** `GetModrinthProject`: the project as far as it decoded, and the
      request error wrapped. */
  function GetModrinthProject<P>(web: Client, decode: Bytes -> Result<P>, zero: P, id: string): (r: (Option<string>, P))
    ensures GoUtil.GetJSON(web, ProjectURL(id), decode, zero).0.Some? <==> r.0.Some?
    ensures r.0.Some? ==> r == (Some("failed to get project: " + GoUtil.GetJSON(web, ProjectURL(id), decode, zero).0.value), zero)
    ensures r.0.None? ==> r.1 == GoUtil.GetJSON(web, ProjectURL(id), decode, zero).1
  {
    var (err, data) := GoUtil.GetJSON(web, ProjectURL(id), decode, zero);
    if err.Some? then (Some("failed to get project: " + err.value), data) else (None, data)
  }

  /** Go's panic on `version.Files[0]` of a version without files. */
  const FilesPanic := "runtime error: index out of range [0] with length 0"

  /** Where the chosen file goes. */
  function FileDest(path: string, f: ProjectFile): string
  {
    path + "/" + f.filename
  }

  /** The outcome of `DownloadModrinthProject`: the version list fetched
      (a body that does not decode is an empty list), the first version that
      supports both loader and game version, and the download of its first
      file into `path`. */
  function ProjectDownloaded(fs: Fs, web: Client, decode: Bytes -> Result<seq<ProjectVersion>>,
                             path: string, id: string, gameVersion: string, loader: string): (r: (Option<string>, Fs))
  {
    var (err, data) := GoUtil.GetJSON(web, VersionsURL(id), decode, []);
    if err.Some? then (Some("failed to get version info: " + err.value), fs)
    else
      match First(data, v => Supports(v, gameVersion, loader))
      case None => (Some("no version found"), fs)
      case Some(k) =>
        if |data[k].files| == 0 then (Some(FilesPanic), fs)
        else
          var f := data[k].files[0];
          var (e, fs1) := GoUtil.Download(fs, web, f.url, FileDest(path, f));
          (if e.Some? then Some("failed to download project file: " + e.value) else None, fs1)
  }

  /** `DownloadModrinthProject`: the loop returns at the first version that
      fits. */
  method DownloadModrinthProject(disk: Disk, web: Client, decode: Bytes -> Result<seq<ProjectVersion>>,
                                 path: string, id: string, gameVersion: string, loader: string) returns (err: Option<string>)
    modifies disk
    ensures (err, disk.State()) == ProjectDownloaded(old(disk.State()), web, decode, path, id, gameVersion, loader)
  {
    var (e, data) := GoUtil.GetJSON(web, VersionsURL(id), decode, []);
    if e.Some? {
      return Some("failed to get version info: " + e.value);
    }
    var i := 0;
    while i < |data|
      invariant 0 <= i <= |data|
      invariant forall j :: 0 <= j < i ==> !Supports(data[j], gameVersion, loader)
    {
      var version := data[i];
      if loader in version.loaders && gameVersion in version.gameVersions {
        assert First(data, v => Supports(v, gameVersion, loader)) == Some(i);
        if |version.files| == 0 {
          return Some(FilesPanic);
        }
        var f := version.files[0];
        var derr := GoUtil.DownloadFile(disk, web, f.url, FileDest(path, f));
        if derr.Some? {
          return Some("failed to download project file: " + derr.value);
        }
        return None;
      }
      i := i + 1;
    }
    assert First(data, v => Supports(v, gameVersion, loader)).None?;
    return Some("no version found");
  }

  /** Success means the version list was fetched and some version fits;
      every file already on disk is kept, and the only file that can appear
      is the first file of the first version that fits. */
  lemma ProjectDownloadWritesChosenFile(fs: Fs, web: Client, decode: Bytes -> Result<seq<ProjectVersion>>,
                                        path: string, id: string, gameVersion: string, loader: string)
    ensures var (err, fs1) := ProjectDownloaded(fs, web, decode, path, id, gameVersion, loader);
      var (e, data) := GoUtil.GetJSON(web, VersionsURL(id), decode, []);
      && (err.None? ==> e.None? && First(data, v => Supports(v, gameVersion, loader)).Some?)
      && (forall p :: p in fs.files ==> p in fs1.files && fs1.files[p] == fs.files[p])
      && (forall p :: p in fs1.files && p !in fs.files ==>
            e.None? && First(data, v => Supports(v, gameVersion, loader)).Some?
            && var k := First(data, v => Supports(v, gameVersion, loader)).value;
            |data[k].files| > 0 && p == FileDest(path, data[k].files[0]))
  {
    var (e, data) := GoUtil.GetJSON(web, VersionsURL(id), decode, []);
    if e.None? {
      var c := First(data, v => Supports(v, gameVersion, loader));
      if c.Some? && |data[c.value].files| > 0 {
        var f := data[c.value].files[0];
        GoUtil.DownloadKeepsFiles(fs, web, f.url, FileDest(path, f));
      }
    }
  }

  /** A version list without a version that fits ends in "no version found"
      and changes nothing. */
  lemma NoFitNoChange(fs: Fs, web: Client, decode: Bytes -> Result<seq<ProjectVersion>>,
                      path: string, id: string, gameVersion: string, loader: string)
    requires GoUtil.GetJSON(web, VersionsURL(id), decode, []).0.None?
    requires forall v :: v in GoUtil.GetJSON(web, VersionsURL(id), decode, []).1 ==> !Supports(v, gameVersion, loader)
    ensures ProjectDownloaded(fs, web, decode, path, id, gameVersion, loader) == (Some("no version found"), fs)
  {
    var data := GoUtil.GetJSON(web, VersionsURL(id), decode, []).1;
    var c := First(data, v => Supports(v, gameVersion, loader));
  }

  // ---------------------------------------------------------------------
  // api/modrinth.ts

  /** `search(q)`: the decoded body of the search request. */
  function Search<S>(web: Client, decode: Bytes -> Result<S>, q: string): Result<S>
  {
    DenoApi.FetchJSON(web, SearchURL(q), decode)
  }

  /** `getProject(id)`. */
  function GetProject<P>(web: Client, decode: Bytes -> Result<P>, id: string): Result<P>
  {
    DenoApi.FetchJSON(web, ProjectURL(id), decode)
  }

  const NoProjectVersion := "Could not find a project version for the specified game version"

  /** `getProjectVersion(id, gameVersion)`: the first listed version that
      supports the game version; it throws when none does. */
  function GetProjectVersion(web: Client, decode: Bytes -> Result<seq<ProjectVersion>>, id: string, gameVersion: string): (r: Result<ProjectVersion>)
    ensures r.Ok? ==>
      var vs := DenoApi.FetchJSON(web, VersionsURL(id), decode);
      vs.Ok? && r.value in vs.value && SupportsGame(r.value, gameVersion)
    ensures r.Ok? ==>
      var vs := DenoApi.FetchJSON(web, VersionsURL(id), decode).value;
      exists k :: 0 <= k < |vs| && r.value == vs[k]
        && forall j :: 0 <= j < k ==> !SupportsGame(vs[j], gameVersion)
    ensures r.Err? ==>
      var vs := DenoApi.FetchJSON(web, VersionsURL(id), decode);
      (vs.Err? && r.error == vs.error) || (vs.Ok? && r.error == NoProjectVersion && forall v :: v in vs.value ==> !SupportsGame(v, gameVersion))
  {
    match DenoApi.FetchJSON(web, VersionsURL(id), decode)
    case Err(e) => Err(e)
    case Ok(vs) =>
      match First(vs, v => SupportsGame(v, gameVersion))
      case None => Err(NoProjectVersion)
      case Some(k) => Ok(vs[k])
  }

  /** The Deno lookup ignores loaders: whenever the Go loop would pick a
      version, the Deno lookup picks that one or an earlier one, and the two
      agree when every listed version supports the loader. */
  lemma DenoPicksNoLater(vs: seq<ProjectVersion>, gameVersion: string, loader: string)
    ensures First(vs, v => Supports(v, gameVersion, loader)).Some? ==>
      First(vs, v => SupportsGame(v, gameVersion)).Some?
      && First(vs, v => SupportsGame(v, gameVersion)).value <= First(vs, v => Supports(v, gameVersion, loader)).value
    ensures (forall v :: v in vs ==> loader in v.loaders) ==>
      First(vs, v => SupportsGame(v, gameVersion)) == First(vs, v => Supports(v, gameVersion, loader))
  {
    var g := First(vs, v => Supports(v, gameVersion, loader));
    var d := First(vs, v => SupportsGame(v, gameVersion));
    if g.Some? {
      assert SupportsGame(vs[g.value], gameVersion);
    }
    if forall v :: v in vs ==> loader in v.loaders {
      if d.Some? {
        assert vs[d.value] in vs;
        assert Supports(vs[d.value], gameVersion, loader);
      }
      if g.Some? && d.Some? {
        assert forall j :: 0 <= j < |vs| ==> vs[j] in vs;
      }
    }
  }
}
