// Fabric and Quilt loader metadata of the current Go launcher
// (internal/meta/fabric.go): "latest" resolution against the loader list,
// the profile cache key and URL, and the mapping of HTTP 400/404 to a
// version error. The cache read it calls is an oracle taking the request.
module MetaFabric {
  import opened Wrappers
  import opened FileSystem
  import Network
  import opened MetaMinecraft

  /** A loader metadata service: its name, versions endpoint and the base of
      its profiles endpoint ("<base>/<game>/<loader>/profile/json"). */
  datatype FabricAPI = FabricAPI(name: string, versions: string, profilesBase: string)

  const Fabric := FabricAPI("fabric", "https://meta.fabricmc.net/v2/versions/loader",
                            "https://meta.fabricmc.net/v2/versions/loader")
  const Quilt := FabricAPI("quilt", "https://meta.quiltmc.org/v3/versions/loader",
                           "https://meta.quiltmc.org/v3/versions/loader")

  /** What a cache read is asked for: the file, the URL, whether to refetch. */
  datatype CacheRequest = CacheRequest(path: string, url: string, alwaysFetch: bool)

  /** A cache read fails with an HTTP status error or with any other error. */
  datatype ReadError = StatusError(status: Network.HTTPStatusError) | OtherError(text: string)

  datatype Outcome<T> = Got(value: T) | Failed(err: ReadError)

  function ErrorString(e: ReadError): string
  {
    match e
    case StatusError(s) => Network.ErrorText(s)
    case OtherError(t) => t
  }

  /** The loader versions of the list, newest first. */
  type VersionsReader = CacheRequest -> Outcome<seq<string>>
  type MetaReader = CacheRequest -> Outcome<VersionMeta>

  /** The loader list lives in <caches>/<name>/versions.json and is
      refetched on every read. */
  function VersionsRequest(f: FabricAPI, cachesDir: string): (q: CacheRequest)
    ensures q.alwaysFetch && q.url == f.versions
    ensures q.path == PathJoin(PathJoin(cachesDir, f.name), "versions.json")
  {
    CacheRequest(PathJoin(PathJoin(cachesDir, f.name), "versions.json"), f.versions, true)
  }

  /** `FetchVersions`: the cache read, with its error passed on unchanged. */
  function FetchVersions(f: FabricAPI, cachesDir: string, read: VersionsReader): (r: Result<seq<string>>)
    ensures read(VersionsRequest(f, cachesDir)).Got? <==> r.Ok?
    ensures r.Ok? ==> r.value == read(VersionsRequest(f, cachesDir)).value
    ensures r.Err? ==> r.error == ErrorString(read(VersionsRequest(f, cachesDir)).err)
  {
    match read(VersionsRequest(f, cachesDir))
    case Got(v) => Ok(v)
    case Failed(e) => Err(ErrorString(e))
  }

  /** The profile URL, the template filled with the game and loader versions. */
  function ProfileURL(f: FabricAPI, gameVersion: string, loaderVersion: string): string
  {
    f.profilesBase + "/" + gameVersion + "/" + loaderVersion + "/profile/json"
  }

  /** A profile is cached in <caches>/<name>/<loader>-<game>.json. */
  function MetaRequest(f: FabricAPI, cachesDir: string, gameVersion: string, loaderVersion: string): (q: CacheRequest)
    ensures !q.alwaysFetch && q.url == ProfileURL(f, gameVersion, loaderVersion)
    ensures q.path == PathJoin(PathJoin(cachesDir, f.name), loaderVersion + "-" + gameVersion + ".json")
  {
    CacheRequest(PathJoin(PathJoin(cachesDir, f.name), loaderVersion + "-" + gameVersion + ".json"),
                 ProfileURL(f, gameVersion, loaderVersion), false)
  }

  const ErrInvalidVersion := "invalid or unsuitable game/fabric version"

  /** Go's panic on `versions[0]` of an empty list. */
  const ErrIndexOutOfRange := "runtime error: index out of range [0] with length 0"

  /** "latest" becomes the first version of the list; anything else is kept. */
  function ResolveLoader(f: FabricAPI, cachesDir: string, loaderVersion: string, readVersions: VersionsReader): (r: Result<string>)
    ensures loaderVersion != "latest" ==> r == Ok(loaderVersion)
  {
    if loaderVersion != "latest" then Ok(loaderVersion)
    else
      var versions := FetchVersions(f, cachesDir, readVersions);
      if versions.Err? then Err(Wrapped("fetch versions", versions.error))
      else if |versions.value| == 0 then Err(ErrIndexOutOfRange)
      else Ok(versions.value[0])
  }

  /** The error of a failed profile read: 400 and 404 mean the versions do
      not exist, anything else is reported as it is. */
  function MetaError(e: ReadError): string
  {
    if e.StatusError? && (e.status.statusCode == 400 || e.status.statusCode == 404) then ErrInvalidVersion
    else ErrorString(e)
  }

  /** `FetchMeta`: the profile of the resolved loader for the game version,
      with LoaderID set to the resolved loader version. */
  function FetchMeta(f: FabricAPI, cachesDir: string, gameVersion: string, loaderVersion: string,
                     readVersions: VersionsReader, readMeta: MetaReader): (r: Result<VersionMeta>)
    ensures r.Ok? ==> ResolveLoader(f, cachesDir, loaderVersion, readVersions).Ok?
    ensures r.Ok? ==>
      var loader := ResolveLoader(f, cachesDir, loaderVersion, readVersions).value;
      var got := readMeta(MetaRequest(f, cachesDir, gameVersion, loader));
      got.Got? && r.value == got.value.(loaderID := loader)
  {
    var loader := ResolveLoader(f, cachesDir, loaderVersion, readVersions);
    if loader.Err? then Err(loader.error)
    else
      match readMeta(MetaRequest(f, cachesDir, gameVersion, loader.value))
      case Failed(e) => Err(MetaError(e))
      case Got(meta) => Ok(meta.(loaderID := loader.value))
  }

  /** "latest" is the same request as the first listed loader version. */
  lemma LatestIsFirstListed(f: FabricAPI, cachesDir: string, gameVersion: string,
                            readVersions: VersionsReader, readMeta: MetaReader)
    requires readVersions(VersionsRequest(f, cachesDir)).Got?
    requires |readVersions(VersionsRequest(f, cachesDir)).value| > 0
    ensures var first := readVersions(VersionsRequest(f, cachesDir)).value[0];
      FetchMeta(f, cachesDir, gameVersion, "latest", readVersions, readMeta)
      == FetchMeta(f, cachesDir, gameVersion, first, readVersions, readMeta)
  {
    var first := readVersions(VersionsRequest(f, cachesDir)).value[0];
    if first == "latest" {
    } else {
      assert ResolveLoader(f, cachesDir, "latest", readVersions) == Ok(first);
    }
  }

  /** A failing loader list fails "latest", wrapped. */
  lemma LatestNeedsList(f: FabricAPI, cachesDir: string, gameVersion: string,
                        readVersions: VersionsReader, readMeta: MetaReader)
    requires readVersions(VersionsRequest(f, cachesDir)).Failed?
    ensures FetchMeta(f, cachesDir, gameVersion, "latest", readVersions, readMeta)
         == Err(Wrapped("fetch versions", ErrorString(readVersions(VersionsRequest(f, cachesDir)).err)))
  {
  }

  /** The error mapping of a failed profile read: exactly 400 and 404 become
      the version error; every other failure passes through unchanged. */
  lemma ProfileErrors(f: FabricAPI, cachesDir: string, gameVersion: string, loaderVersion: string,
                      readVersions: VersionsReader, readMeta: MetaReader)
    requires loaderVersion != "latest"
    requires readMeta(MetaRequest(f, cachesDir, gameVersion, loaderVersion)).Failed?
    ensures var e := readMeta(MetaRequest(f, cachesDir, gameVersion, loaderVersion)).err;
      && (e.StatusError? && e.status.statusCode in {400, 404} ==>
            FetchMeta(f, cachesDir, gameVersion, loaderVersion, readVersions, readMeta) == Err(ErrInvalidVersion))
      && (e.StatusError? && e.status.statusCode !in {400, 404} ==>
            FetchMeta(f, cachesDir, gameVersion, loaderVersion, readVersions, readMeta) == Err(Network.ErrorText(e.status)))
      && (e.OtherError? ==>
            FetchMeta(f, cachesDir, gameVersion, loaderVersion, readVersions, readMeta) == Err(e.text))
  {
  }
}
