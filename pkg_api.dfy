// The version metadata of the first Go generation (pkg/api/minecraft.go):
// the manifest is fetched, the first version with the exact id is chosen
// and its metadata fetched; decode failures are ignored and leave the
// zero value. The JSON decoders are parameters.
module PkgApi {
  import opened Wrappers
  import opened FileSystem
  import opened Web
  import opened Manifest
  import GoUtil

  /** The fields of a library the first generation reads. */
  datatype ApiLibrary = ApiLibrary(name: string, path: string, url: string)

  /** The fields of the version metadata the first generation reads. */
  datatype ApiMeta = ApiMeta(assetIndexID: string, assetIndexURL: string, clientURL: string,
                             mainClass: string, libraries: seq<ApiLibrary>)

  const ZeroMeta := ApiMeta("", "", "", "", [])

  const EmptyManifest := VersionManifest("", "", [])

  const ManifestURL := "https://launchermeta.mojang.com/mc/game/version_manifest.json"

  /** The session `Launch` passes to the game. */
  datatype AuthData = AuthData(token: string, refresh: string, uuid: string, username: string)

  /** The Go runtime's message when a method is called through a nil
      response. */
  const NilDereference := "runtime error: invalid memory address or nil pointer dereference"

  /** The manifest as `GetJSON` leaves it: the error of the request, or the
      decoded manifest, or the empty one when the body does not decode. */
  function FetchManifest(web: Client, decode: Bytes -> Result<VersionManifest>): (Option<string>, VersionManifest)
  {
    GoUtil.GetJSON(web, ManifestURL, decode, EmptyManifest)
  }

  /** `GetVersionMeta` as written: the deferred `resp.Body.Close()` runs
      before the response is checked, so a transport failure of the metadata
      request dereferences a nil response. */
  function GetVersionMetaAsWritten(web: Client, id: string, decodeManifest: Bytes -> Result<VersionManifest>,
                                   decodeMeta: Bytes -> Result<ApiMeta>): Result<ApiMeta>
  {
    var (err, manifest) := FetchManifest(web, decodeManifest);
    if err.Some? then Err("Failed to retrieve version manifest")
    else
      var k := FindVersion(manifest.versions, id);
      if k.None? then Err("Invalid version")
      else
        var url := manifest.versions[k.value].url;
        if web(url).Err? then Err(NilDereference)
        else MetaOf(web, url, decodeMeta)
  }

  /** A successful metadata request: a bad status is reported, a body that
      does not decode gives the zero value. */
  function MetaOf(web: Client, url: string, decodeMeta: Bytes -> Result<ApiMeta>): (r: Result<ApiMeta>)
    requires web(url).Ok?
    ensures r.Err? <==> !Success(web(url).value.status)
  {
    if GoUtil.CheckResponse(web(url), "GET", url).Some? then Err("Failed to retrieve version metadata")
    else
      var decoded := decodeMeta(web(url).value.body);
      Ok(if decoded.Ok? then decoded.value else ZeroMeta)
  }

  /** `GetVersionMeta` as evidently intended: every failed metadata request,
      transport failures included, is "Failed to retrieve version metadata". */
  function GetVersionMeta(web: Client, id: string, decodeManifest: Bytes -> Result<VersionManifest>,
                          decodeMeta: Bytes -> Result<ApiMeta>): (r: Result<ApiMeta>)
    ensures FetchManifest(web, decodeManifest).0.Some? ==> r == Err("Failed to retrieve version manifest")
    ensures (FetchManifest(web, decodeManifest).0.None? && FindVersion(FetchManifest(web, decodeManifest).1.versions, id).None?)
            ==> r == Err("Invalid version")
  {
    var (err, manifest) := FetchManifest(web, decodeManifest);
    if err.Some? then Err("Failed to retrieve version manifest")
    else
      var k := FindVersion(manifest.versions, id);
      if k.None? then Err("Invalid version")
      else
        var url := manifest.versions[k.value].url;
        if !Fetched(web, url) then Err("Failed to retrieve version metadata")
        else MetaOf(web, url, decodeMeta)
  }

  /** The metadata fetched is that of the first manifest entry with exactly
      the id asked for, decoded, or the zero value when it does not decode. */
  lemma GetVersionMetaFetchesFirstMatch(web: Client, id: string, decodeManifest: Bytes -> Result<VersionManifest>,
                                        decodeMeta: Bytes -> Result<ApiMeta>)
    requires GetVersionMeta(web, id, decodeManifest, decodeMeta).Ok?
    ensures var manifest := FetchManifest(web, decodeManifest).1;
      var k := FindVersion(manifest.versions, id);
      && k.Some?
      && (forall j :: 0 <= j < k.value ==> manifest.versions[j].id != id)
      && var url := manifest.versions[k.value].url;
         && Fetched(web, url)
         && GetVersionMeta(web, id, decodeManifest, decodeMeta).value
            == (if decodeMeta(web(url).value.body).Ok? then decodeMeta(web(url).value.body).value else ZeroMeta)
  {
  }

  /** A manifest body that does not decode looks like an empty manifest:
      every id is then an "Invalid version". */
  lemma UndecodableManifestIsEmpty(web: Client, id: string, decodeManifest: Bytes -> Result<VersionManifest>,
                                   decodeMeta: Bytes -> Result<ApiMeta>)
    requires Fetched(web, ManifestURL)
    requires decodeManifest(web(ManifestURL).value.body).Err?
    ensures GetVersionMeta(web, id, decodeManifest, decodeMeta) == Err("Invalid version")
  {
  }

  /** The two definitions agree except on a transport failure of the
      metadata request, where the source as written panics. */
  lemma TransportFailurePanics(web: Client, id: string, decodeManifest: Bytes -> Result<VersionManifest>,
                               decodeMeta: Bytes -> Result<ApiMeta>)
    ensures var manifest := FetchManifest(web, decodeManifest);
      var k := FindVersion(manifest.1.versions, id);
      var failed := manifest.0.None? && k.Some? && web(manifest.1.versions[k.value].url).Err?;
      && (failed ==> GetVersionMetaAsWritten(web, id, decodeManifest, decodeMeta) == Err(NilDereference))
      && (failed ==> GetVersionMeta(web, id, decodeManifest, decodeMeta) == Err("Failed to retrieve version metadata"))
      && (!failed ==> GetVersionMetaAsWritten(web, id, decodeManifest, decodeMeta) == GetVersionMeta(web, id, decodeManifest, decodeMeta))
  {
  }
}
