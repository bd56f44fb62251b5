// The combined metadata of the current Go launcher (internal/meta/all.go):
// the base game's metadata merged with that of the chosen mod loader.
// The fetches it composes are given as their outcomes.
module MetaAll {
  import opened Wrappers
  import opened MetaMinecraft
  import MetaFabric
  import MetaForge

  datatype Loader = Vanilla | Fabric | Quilt | NeoForge | Forge | Other(name: string)

  /** The loader fetches `FetchAllVersionMeta` calls: Fabric/Quilt metadata
      for a game and loader version, the newest NeoForge and Forge versions
      of a game version, and Forge/NeoForge metadata of a loader version. */
  datatype Fetchers = Fetchers(
    fabricMeta: (MetaFabric.FabricAPI, string, string) -> Result<VersionMeta>,
    neoforgeVersion: string -> Result<string>,
    forgeVersion: string -> Result<string>,
    forgeMeta: (MetaForge.Flavor, string) -> Result<VersionMeta>)

  /** A Forge-style loader: "latest" is first resolved for the base game id. */
  function ForgeStyle(id: string, loaderVersion: string, resolve: string -> Result<string>, flavor: MetaForge.Flavor,
                      fetch: (MetaForge.Flavor, string) -> Result<VersionMeta>, name: string): (r: Result<VersionMeta>)
    ensures loaderVersion != "latest" ==>
      r == (match fetch(flavor, loaderVersion)
            case Ok(m) => Ok(m)
            case Err(e) => Err(Wrapped("retrieve " + name + " metadata", e)))
    ensures loaderVersion == "latest" && resolve(id).Err? ==> r == Err(Wrapped("retrieve " + name + " version", resolve(id).error))
    ensures loaderVersion == "latest" && resolve(id).Ok? ==>
      r == (match fetch(flavor, resolve(id).value)
            case Ok(m) => Ok(m)
            case Err(e) => Err(Wrapped("retrieve " + name + " metadata", e)))
  {
    var version := if loaderVersion == "latest" then resolve(id) else Ok(loaderVersion);
    if version.Err? then Err(Wrapped("retrieve " + name + " version", version.error))
    else
      match fetch(flavor, version.value)
      case Err(e) => Err(Wrapped("retrieve " + name + " metadata", e))
      case Ok(m) => Ok(m)
  }

  /** The loader's metadata: Go's zero value for vanilla and any other
      loader name. */
  function LoaderMeta(loader: Loader, id: string, loaderVersion: string, fetch: Fetchers): Result<VersionMeta>
  {
    match loader
    case Fabric =>
      (match fetch.fabricMeta(MetaFabric.Fabric, id, loaderVersion)
       case Ok(m) => Ok(m)
       case Err(e) => Err(Wrapped("retrieve Fabric/Quilt metadata", e)))
    case Quilt =>
      (match fetch.fabricMeta(MetaFabric.Quilt, id, loaderVersion)
       case Ok(m) => Ok(m)
       case Err(e) => Err(Wrapped("retrieve Fabric/Quilt metadata", e)))
    case NeoForge => ForgeStyle(id, loaderVersion, fetch.neoforgeVersion, MetaForge.Neoforge, fetch.forgeMeta, "NeoForge")
    case Forge => ForgeStyle(id, loaderVersion, fetch.forgeVersion, MetaForge.Forge, fetch.forgeMeta, "Forge")
    case _ => Ok(ZeroMeta)
  }

  /** `FetchAllVersionMeta`: `base` is the outcome of fetching the game's
      metadata; every loader lookup uses its id. */
  function FetchAllVersionMeta(loader: Loader, loaderVersion: string, base: Result<VersionMeta>, fetch: Fetchers)
    : (r: Result<VersionMeta>)
    ensures base.Err? ==> r == Err(Wrapped("retrieve version metadata", base.error))
    ensures r.Ok? <==> base.Ok? && LoaderMeta(loader, base.value.id, loaderVersion, fetch).Ok?
    ensures r.Ok? ==> r.value == Merged(base.value, LoaderMeta(loader, base.value.id, loaderVersion, fetch).value)
  {
    if base.Err? then Err(Wrapped("retrieve version metadata", base.error))
    else
      var loaderMeta := LoaderMeta(loader, base.value.id, loaderVersion, fetch);
      if loaderMeta.Err? then Err(loaderMeta.error)
      else Ok(Merged(base.value, loaderMeta.value))
  }

  /** Vanilla (and any unknown loader) keeps the base libraries, main class
      and id, but clears the arguments and the loader id. */
  lemma VanillaClearsArguments(loader: Loader, loaderVersion: string, base: VersionMeta, fetch: Fetchers)
    requires loader.Vanilla? || loader.Other?
    ensures var r := FetchAllVersionMeta(loader, loaderVersion, Ok(base), fetch);
      && r.Ok?
      && r.value.libraries == base.libraries && r.value.mainClass == base.mainClass && r.value.id == base.id
      && r.value.game == [] && r.value.jvm == [] && r.value.loaderID == ""
  {
    MergeZero(base);
  }

  /** Fabric and Quilt are asked about the base game's id, whatever version
      string the caller gave. */
  lemma FabricUsesBaseId(loader: Loader, loaderVersion: string, base: VersionMeta, fetch: Fetchers)
    requires loader.Fabric? || loader.Quilt?
    requires fetch.fabricMeta(if loader.Fabric? then MetaFabric.Fabric else MetaFabric.Quilt, base.id, loaderVersion).Ok?
    ensures FetchAllVersionMeta(loader, loaderVersion, Ok(base), fetch)
         == Ok(Merged(base, fetch.fabricMeta(if loader.Fabric? then MetaFabric.Fabric else MetaFabric.Quilt, base.id, loaderVersion).value))
  {
  }

  /** "latest" Forge/NeoForge is the version the lookup names for the base
      game's id; a failed lookup fails the whole fetch. */
  lemma ForgeLatestResolved(loader: Loader, resolve: string -> Result<string>, flavor: MetaForge.Flavor,
                            base: VersionMeta, fetch: Fetchers)
    requires || (loader == Forge && resolve == fetch.forgeVersion && flavor == MetaForge.Forge)
             || (loader == NeoForge && resolve == fetch.neoforgeVersion && flavor == MetaForge.Neoforge)
    ensures var r := FetchAllVersionMeta(loader, "latest", Ok(base), fetch);
      && (resolve(base.id).Err? ==> r.Err?)
      && (resolve(base.id).Ok? && fetch.forgeMeta(flavor, resolve(base.id).value).Ok? ==>
            r == Ok(Merged(base, fetch.forgeMeta(flavor, resolve(base.id).value).value)))
  {
    var name := if loader == Forge then "Forge" else "NeoForge";
    assert LoaderMeta(loader, base.id, "latest", fetch) == ForgeStyle(base.id, "latest", resolve, flavor, fetch.forgeMeta, name);
  }
}
