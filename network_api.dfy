// The Mojang lookups of internal/network/api/minecraft.go: the manifest,
// the latest release id, and the metadata of the first manifest entry with
// exactly the requested id. `network.FetchJSONData`, which they call, is
// not part of this model: its outcome for a URL is a parameter.
module NetworkApi {
  import opened Wrappers
  import opened Strs
  import opened Manifest
  import opened InternalApi

  /** What `network.FetchJSONData` yields for a URL, decoded. */
  type Fetcher<T> = string -> Result<T>

  /** `GetVersionManifest`: a failure is wrapped with its context. */
  function GetVersionManifest(fetch: Fetcher<VersionManifest>): (r: Result<VersionManifest>)
    ensures r.Ok? <==> fetch(ManifestURL).Ok?
    ensures r.Ok? ==> r.value == fetch(ManifestURL).value
    ensures r.Err? ==> r.error == "failed to retrieve version manifest: " + fetch(ManifestURL).error
  {
    match fetch(ManifestURL)
    case Ok(m) => Ok(m)
    case Err(e) => Err("failed to retrieve version manifest: " + e)
  }

  /** `GetLatestRelease`: the manifest's latest release id; a manifest error
      is passed on as it is. */
  function GetLatestRelease(fetch: Fetcher<VersionManifest>): (r: Result<string>)
    ensures r.Ok? <==> GetVersionManifest(fetch).Ok?
    ensures r.Ok? ==> r.value == fetch(ManifestURL).value.latestRelease
    ensures r.Err? ==> r.error == GetVersionManifest(fetch).error
  {
    var manifest := GetVersionManifest(fetch);
    if manifest.Err? then Err(manifest.error) else Ok(manifest.value.latestRelease)
  }

  /** `GetVersionMeta`: the id is matched exactly, with no alias for the
      latest release; the first matching entry is fetched. */
  function GetVersionMeta(fetchManifest: Fetcher<VersionManifest>, fetchMeta: Fetcher<GenMeta>, id: string)
    : (r: Result<GenMeta>)
    ensures GetVersionManifest(fetchManifest).Err? ==> r == Err(GetVersionManifest(fetchManifest).error)
  {
    var manifest := GetVersionManifest(fetchManifest);
    if manifest.Err? then Err(manifest.error)
    else
      var k := FindVersion(manifest.value.versions, id);
      if k.None? then Err("invalid version")
      else
        match fetchMeta(manifest.value.versions[k.value].url)
        case Ok(meta) => Ok(meta)
        case Err(e) => Err("failed to retrieve version metadata: " + e)
  }

  /** With the manifest in hand, the outcome is decided by the first entry
      whose id is exactly `id`: its metadata, or its fetch error wrapped;
      "invalid version" exactly when no entry has that id. */
  lemma GetVersionMetaOutcome(fetchManifest: Fetcher<VersionManifest>, fetchMeta: Fetcher<GenMeta>, id: string)
    requires fetchManifest(ManifestURL).Ok?
    ensures var versions := fetchManifest(ManifestURL).value.versions;
      var r := GetVersionMeta(fetchManifest, fetchMeta, id);
      && ((forall j :: 0 <= j < |versions| ==> versions[j].id != id) <==> r == Err("invalid version"))
      && (forall k :: 0 <= k < |versions| && versions[k].id == id && (forall j :: 0 <= j < k ==> versions[j].id != id) ==>
            r == (match fetchMeta(versions[k].url)
                  case Ok(meta) => Ok(meta)
                  case Err(e) => Err("failed to retrieve version metadata: " + e)))
  {
    var versions := fetchManifest(ManifestURL).value.versions;
    var found := FindVersion(versions, id);
    if found.Some? {
      var k0 := found.value;
      forall k | 0 <= k < |versions| && versions[k].id == id && (forall j :: 0 <= j < k ==> versions[j].id != id)
        ensures k == k0
      {
      }
      if fetchMeta(versions[k0].url).Err? {
        NotWrapped(fetchMeta(versions[k0].url).error);
      }
    }
  }

  // A wrapped metadata error is never the "invalid version" text.
  lemma NotWrapped(e: string)
    ensures "failed to retrieve version metadata: " + e != "invalid version"
  {
    assert ("failed to retrieve version metadata: " + e)[0] == 'f';
  }

  /** There is no default version: an empty id matches no entry that has an
      id, so it is "invalid version" rather than, say, the latest release. */
  lemma EmptyIdIsInvalid(fetchManifest: Fetcher<VersionManifest>, fetchMeta: Fetcher<GenMeta>)
    requires fetchManifest(ManifestURL).Ok?
    requires forall v :: v in fetchManifest(ManifestURL).value.versions ==> v.id != ""
    ensures GetVersionMeta(fetchManifest, fetchMeta, "") == Err("invalid version")
  {
    var versions := fetchManifest(ManifestURL).value.versions;
    assert forall j :: 0 <= j < |versions| ==> versions[j] in versions;
  }
}
