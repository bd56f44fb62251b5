// Version metadata of the second Go generation (internal/api/minecraft.go):
// the manifest, an empty id standing for the latest release, the first
// exact match fetched; decode failures are ignored. The records here are
// also those of internal/network/api/minecraft.go, which has the same
// fields.
module InternalApi {
  import opened Wrappers
  import opened FileSystem
  import opened Web
  import opened Manifest
  import MetaMinecraft
  import GoUtil

  /** The fields of a library this generation reads: its Maven name, a
      loader repository URL (empty for Mojang libraries), the Mojang
      artifact's path and URL, and the rules. */
  datatype GenLibrary = GenLibrary(name: string, url: string, artifactPath: string, artifactURL: string,
                                   rules: seq<MetaMinecraft.Rule>)

  /** The fields of the version metadata this generation reads. */
  datatype GenMeta = GenMeta(id: string, versionType: string, mainClass: string, assetIndexID: string,
                             assetIndexURL: string, clientURL: string, libraries: seq<GenLibrary>)

  /** The fields of the Fabric/Quilt profile this generation reads. */
  datatype GenFabricMeta = GenFabricMeta(mainClass: string, jvm: seq<string>, libraries: seq<GenLibrary>)

  const ZeroMeta := GenMeta("", "", "", "", "", "", [])

  const ZeroFabricMeta := GenFabricMeta("", [], [])

  const ManifestURL := "https://launchermeta.mojang.com/mc/game/version_manifest.json"

  /** The manifest as `GetJSON` leaves it. */
  function FetchManifest(web: Client, decode: Bytes -> Result<VersionManifest>): (Option<string>, VersionManifest)
  {
    GoUtil.GetJSON(web, ManifestURL, decode, VersionManifest("", "", []))
  }

  /** The id looked up: an empty one is the manifest's latest release. */
  function ResolvedId(manifest: VersionManifest, id: string): string
  {
    if id == "" then manifest.latestRelease else id
  }

  /** `GetVersionMeta`. */
  function GetVersionMeta(web: Client, id: string, decodeManifest: Bytes -> Result<VersionManifest>,
                          decodeMeta: Bytes -> Result<GenMeta>): (r: Result<GenMeta>)
    ensures FetchManifest(web, decodeManifest).0.Some? ==>
      r == Err("failed to retrieve version manifest (" + FetchManifest(web, decodeManifest).0.value + ")")
  {
    var (err, manifest) := FetchManifest(web, decodeManifest);
    if err.Some? then Err("failed to retrieve version manifest (" + err.value + ")")
    else
      var k := FindVersion(manifest.versions, ResolvedId(manifest, id));
      if k.None? then Err("invalid version")
      else
        var url := manifest.versions[k.value].url;
        var check := GoUtil.CheckResponse(web(url), "GET", url);
        if check.Some? then Err("failed to retrieve version metadata (" + check.value + ")")
        else
          var decoded := decodeMeta(web(url).value.body);
          Ok(if decoded.Ok? then decoded.value else ZeroMeta)
  }

  /** An empty id is exactly the latest release's id. */
  lemma EmptyIdIsLatestRelease(web: Client, decodeManifest: Bytes -> Result<VersionManifest>,
                               decodeMeta: Bytes -> Result<GenMeta>)
    ensures var latest := FetchManifest(web, decodeManifest).1.latestRelease;
      GetVersionMeta(web, "", decodeManifest, decodeMeta) == GetVersionMeta(web, latest, decodeManifest, decodeMeta)
  {
  }

  /** Success means the first manifest entry with the resolved id answered
      with a 2xx response; the metadata is its decoded body, or the zero
      value when the body does not decode. */
  lemma GetVersionMetaOk(web: Client, id: string, decodeManifest: Bytes -> Result<VersionManifest>,
                         decodeMeta: Bytes -> Result<GenMeta>)
    requires GetVersionMeta(web, id, decodeManifest, decodeMeta).Ok?
    ensures var manifest := FetchManifest(web, decodeManifest).1;
      var k := FindVersion(manifest.versions, ResolvedId(manifest, id));
      && k.Some?
      && var url := manifest.versions[k.value].url;
         && Fetched(web, url)
         && GetVersionMeta(web, id, decodeManifest, decodeMeta).value
            == (if decodeMeta(web(url).value.body).Ok? then decodeMeta(web(url).value.body).value else ZeroMeta)
  {
  }

  /** The errors: a failed manifest request, an id absent from the manifest,
      a failed metadata request; nothing else. */
  lemma GetVersionMetaErrors(web: Client, id: string, decodeManifest: Bytes -> Result<VersionManifest>,
                             decodeMeta: Bytes -> Result<GenMeta>)
    requires GetVersionMeta(web, id, decodeManifest, decodeMeta).Err?
    ensures var (err, manifest) := FetchManifest(web, decodeManifest);
      var e := GetVersionMeta(web, id, decodeManifest, decodeMeta).error;
      || err.Some?
      || (FindVersion(manifest.versions, ResolvedId(manifest, id)).None? && e == "invalid version")
      || (var k := FindVersion(manifest.versions, ResolvedId(manifest, id));
          k.Some? && !Fetched(web, manifest.versions[k.value].url))
  {
  }
}
