// The Mojang version manifest, shared by every generation of the launcher:
// the latest release and snapshot ids and the list of versions, searched
// front to back for an exact id.
module Manifest {
  import opened Wrappers

  datatype ManifestEntry = ManifestEntry(id: string, versionType: string, url: string, sha1: string, releaseTime: string)

  datatype VersionManifest = VersionManifest(latestRelease: string, latestSnapshot: string, versions: seq<ManifestEntry>)

  /** The position of the first entry whose id is exactly `id`. */
  function FindVersion(versions: seq<ManifestEntry>, id: string): (r: Option<nat>)
    ensures r.Some? ==> r.value < |versions| && versions[r.value].id == id
    ensures r.Some? ==> forall j :: 0 <= j < r.value ==> versions[j].id != id
    ensures r.None? <==> forall j :: 0 <= j < |versions| ==> versions[j].id != id
  {
    if |versions| == 0 then None
    else if versions[0].id == id then Some(0)
    else
      var rest := FindVersion(versions[1..], id);
      assert forall j :: 1 <= j < |versions| ==> versions[j] == versions[1..][j - 1];
      if rest.None? then None else Some(rest.value + 1)
  }

  /** Two manifests that agree up to and including the first match find the
      same entry: nothing after the first exact match is consulted. */
  lemma {:induction false} FindVersionIgnoresTail(versions: seq<ManifestEntry>, tail: seq<ManifestEntry>, id: string)
    requires FindVersion(versions, id).Some?
    ensures FindVersion(versions + tail, id) == FindVersion(versions, id)
  {
    var k := FindVersion(versions, id).value;
    assert forall j :: 0 <= j <= k ==> (versions + tail)[j] == versions[j];
  }
}
