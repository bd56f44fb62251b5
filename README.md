# cmd-launcher, modelled in Dafny

cmd-launcher is a command-line Minecraft: Java Edition launcher. Given a
game version and, optionally, a mod loader (Fabric, Quilt, NeoForge or
Forge), it fetches Mojang's version manifest and the version metadata,
merges in the loader's metadata, downloads the client jar, the libraries
(with SHA-1 checks), the native libraries and the asset objects, signs the
player in with a Microsoft account (OAuth device code or browser code,
then Xbox Live, XSTS and the Minecraft services), and finally builds the
Java command line that starts the game. Instances (a directory with an
`instance.json`) and the HTTP caches live under one root directory.

The repository holds several generations of the program, and each is
modelled in its own modules:

- the current Go packages: `internal/meta` (manifest, version metadata,
  Maven coordinates, Fabric/Quilt and Forge/NeoForge metadata, the cache
  layer), `internal/network` (downloads, caches, status checks),
  `pkg/auth` (device-code and browser sign-in, token store),
  `pkg/launcher` (instances, library selection, assets, natives, the
  launch plan and the command line) and `pkg/env`;
- the earlier Go packages: `internal/api`, `internal/network/api`,
  `internal/auth`, `internal/launcher`, `internal/util.go`, `pkg/api`,
  the Modrinth client `internal/api/modrinth.go`, the `search` and `start`
  commands and the output strings of `internal/cli/output/lang.go`;
- the Deno/TypeScript generation: `launcher.ts`, `api.ts`, `api/*.ts`
  (among them the Modrinth client `api/modrinth.ts`) and `cli/*.ts`.

Everything outside the program is a parameter of the model: the web is a
function from URL (or request) to a response or an error, the disk is a
`Disk` object over a snapshot of files, modes and directories, and JSON
decoders, SHA-1, zip readers, semantic-version parsing and the OS
process runner are oracles. Functions that change the disk are methods
whose `ensures` equates the result and the new snapshot with a
specification function of the old snapshot. Properties of those
specification functions are proved as lemmas. Errors are the Go error
strings, with `%w` wrapping written out as `context: error`.

## Model

| member | source | states |
|---|---|---|
| Maven.String | internal/meta/maven.go:32-38 | the specifier's fields joined with ':', the classifier appended only when non-empty |
| Maven.NewLibrarySpecifier | internal/meta/maven.go:72-86 | fewer than three ':'-fields is the "specifier too short" error; otherwise the first three fields, and the fourth as classifier when present |
| Maven.ParseOfString | internal/meta/maven.go:32-86 | parsing the string form of a specifier with colon-free fields gives it back |
| Maven.StringOfParse | internal/meta/maven.go:32-86 | a three-field string, or a four-field one with a non-empty classifier, is the string form of what it parses to |
| Maven.ParseDropsExtraFields | internal/meta/maven.go:82-84 | fields after the fourth are lost by parsing, so the round trip does not give the input back |
| Maven.Path | internal/meta/maven.go:41-56 | group with '.' as '/', artifact, version, then artifact-version[-classifier] with ".zip" for an "@zip" version and ".jar" otherwise |
| Maven.ZipSuffixRemoved | internal/meta/maven.go:43-45 | a version ending in "@zip" loses the marker in the path |
| Maven.PathOfZip | internal/meta/maven.go:41-56 | a version v0+"@zip" names the directory v0 and a ".zip" file |
| Maven.PathExample | internal/meta/maven.go:41-56 | net.fabricmc:fabric-loader:0.15.0 maps to net/fabricmc/fabric-loader/0.15.0/fabric-loader-0.15.0.jar |
| Maven.MarshalJSON | internal/meta/maven.go:58-60 | a specifier is written as the JSON string of its string form |
| Maven.UnmarshalJSON | internal/meta/maven.go:61-69 | only a JSON string decodes, and it decodes as NewLibrarySpecifier parses it |
| Maven.JsonRoundTrip | internal/meta/maven.go:58-69 | marshal then unmarshal gives back a specifier with colon-free fields |
| MavenFetch.SumPathBesideArtifact | internal/meta/maven.go:93 | the checksum file is the artifact's path under the libraries directory with ".sha1" appended |
| MavenFetch.MavenLibrary | internal/meta/maven.go:110-117 | the library points at the artifact's repository URL and path and carries the checksum text |
| MavenFetch.FetchMavenLibrary | internal/meta/maven.go:89-118 | a stored checksum is used without a request; otherwise the ".sha1" URL is fetched, checked and saved beside the artifact; failures are the transport error or "retrieve library checksum: …" |
| GoUtil.CheckResponse | internal/util.go:13-21 | a transport error passes through; a status outside 200..299 is an error naming method, URL and status; otherwise no error |
| GoUtil.GetJSON | internal/util.go:23-31 | only the request can fail; an undecodable body leaves the target value unchanged |
| GoUtil.DownloadFile | internal/util.go:33-54 | an existing destination is left alone with no request; otherwise the file is created before the request and holds the body on success, or stays empty on failure |
| GoUtil.DownloadKeepsFiles | internal/util.go:34-36 | a download never changes a file that already existed |
| GoUtil.DownloadFileTwice | internal/util.go:33-54 | a failed download is never retried: the second call finds the empty file and reports success |
| GoUtil.GetPathFromMavenIsMavenPath | internal/util.go:56-61 | for a three-field name the path is group-with-slashes/artifact/version/artifact-version.jar |
| GoUtil.GetPathFromMavenDropsClassifier | internal/util.go:56-61 | a fourth (classifier) field never shows in the path |
| GoUtil.MavenPath | internal/util.go:56-61 | a name with fewer than three fields is the index-out-of-range panic; otherwise the path above |
| FabricTs.SplitThree | fabric.ts:5 | splitting a name of three colon-free parts on ':' gives the three parts |
| FabricTs.PathBeforeRewrite | fabric.ts:4-8 | only the group's first '.' becomes '/' before the "ow2.asm" rewrite |
| FabricTs.GoLayout | internal/util.go:56-61 | the Go helper's path for a three-field name, for comparison |
| FabricTs.OneDotGroupAgrees | fabric.ts:4-8 | a group with one '.' gives the Go helper's path when that path contains no "ow2.asm" |
| FabricTs.TwoDotGroupDiverges | fabric.ts:4-8 | with two dots in the group only the first becomes '/', unlike the Go helper |
| FabricTs.AsmGroup | fabric.ts:7 | org.ow2.asm names end up under org/ow2/asm, as in the Go layout |
| FabricTs.AsmLayouts | fabric.ts:7 | both layouts of an org.ow2.asm name start with "org/" |
| FabricTs.AsmRewrite | fabric.ts:7 | the first "ow2.asm" rewritten is the one right after "org/" |
| FabricTs.FetchFabricLibrary | fabric.ts:11-18 | the library path under rootDir/libraries is returned; the Fabric Maven file is downloaded only when that path does not exist |
| FabricTs.GetFabricMeta | fabric.ts:20-30 | the profile of the first loader listed for 1.20.4 is fetched for the requested game version; an empty list or a failed request fails |
| MetaMinecraft.Client | internal/meta/minecraft.go:177-189 | the client jar as an always-installed library com.mojang:minecraft:<id> at com/mojang/minecraft/<id>/<id>.jar with the version's client checksum, size and URL |
| MetaMinecraft.ClientSpecifier | internal/meta/minecraft.go:178 | for an id without ':' the client's coordinates print back as com.mojang:minecraft:<id> |
| MetaMinecraft.ClientPathIsNotMavenPath | internal/meta/minecraft.go:178-182 | the client's artifact path differs from the Maven path of its own coordinates |
| MetaMinecraft.DownloadEntry | internal/meta/minecraft.go:215-221 | the entry carries the artifact's URL and checksum, and its path under the libraries directory |
| MetaMinecraft.DownloadedAfterDownload | internal/meta/minecraft.go:202-214 | after a download that passes the checksum the artifact counts as downloaded; after one that fails the check it does not |
| MetaMinecraft.MalformedChecksumNeverDownloaded | internal/meta/minecraft.go:208-213 | a checksum that is not 40 hex digits never matches, so such an artifact is never counted as downloaded |
| MetaMinecraft.RulesAllowFirstOnly | internal/meta/minecraft.go:288-296 | only the first rule decides whether a library is installed |
| MetaMinecraft.DisallowFirstWins | internal/meta/minecraft.go:288-293 | a "disallow" first rule excludes the library even when a later rule allows the host |
| MetaMinecraft.OsxRuleMatchesDarwin | internal/meta/minecraft.go:290-291 | a rule naming "osx" matches the darwin host |
| MetaMinecraft.HostClassifiers | internal/meta/minecraft.go:268-274 | a classifier is chosen exactly when some natives entry, with "osx" read as darwin, names the host |
| MetaMinecraft.UnmarshalJSON | internal/meta/minecraft.go:232-299 | a library with a URL is a Maven library installed everywhere; otherwise it keeps its artifact, gains one native per host classifier that has a URL, and is installed as its first rule says |
| MetaMinecraft.NativesOfHost | internal/meta/minecraft.go:275-287 | every native is the library with a host classifier whose artifact has a URL, and every such classifier yields one |
| MetaMinecraft.MavenLibraryIgnoresRules | internal/meta/minecraft.go:258-265 | a library with a URL is installed on every host from <url>/<path>, whatever its rules and natives |
| MetaMinecraft.ClasspathArtifactsMembers | internal/meta/minecraft.go:392-397 | an artifact name is counted exactly when some loader library on the classpath has it |
| MetaMinecraft.KeepUntaken | internal/meta/minecraft.go:401-405 | the kept base libraries are exactly those whose artifact name is not taken |
| MetaMinecraft.MergeVersionMeta | internal/meta/minecraft.go:388-412 | the loader's arguments and loader id replace the base ones; the loader's libraries come first, then the base libraries not shadowed; the main class is replaced only when the loader has one |
| MetaMinecraft.MergedLibraries | internal/meta/minecraft.go:392-406 | a base library survives the merge exactly when no loader library on the classpath has its artifact name |
| MetaMinecraft.MergeZero | internal/meta/minecraft.go:388-412 | merging the zero metadata keeps the base libraries, id and main class but clears the arguments and loader id |
| MetaMinecraft.KeepUntakenNone | internal/meta/minecraft.go:401-405 | with nothing taken every base library is kept, in order |
| MetaMinecraft.AssetDownloadEntries | internal/meta/minecraft.go:310-328 | the loop's result, for any objects, is the asset list: the entries of the objects whose file is missing or has the wrong hash, or the slice panic of the first hash shorter than two characters |
| MetaMinecraft.AssetListStopsAtPanic | internal/meta/minecraft.go:312-314 | when every object before position i has a long enough hash, a hash at i shorter than two characters makes the whole list its slice panic |
| MetaMinecraft.AssetListCases | internal/meta/minecraft.go:310-328 | the list fails exactly when some hash is shorter than two characters, with the panic of the first such hash; with every hash long enough it is the entries of the objects not present |
| MetaMinecraft.AssetEntriesExact | internal/meta/minecraft.go:310-328 | an object gets an entry exactly when it is not present, and every entry checks the object's hash |
| MetaMinecraft.JavaDownloadEntries | internal/meta/minecraft.go:79-111 | entries for the runtime's regular files that are not present, and links for link paths that do not exist |
| MetaMinecraft.JavaEntriesSound | internal/meta/minecraft.go:90-107 | every entry is a regular file of the manifest that is not present, with its raw URL and checksum, and mode 0755 exactly when executable |
| MetaMinecraft.JavaLinksAbsent | internal/meta/minecraft.go:86-89 | a link is scheduled only for a path that does not exist |
| MetaMinecraft.ReadThrough | internal/meta/minecraft.go:363-381 | a cache file that decodes over the zero value and whose SHA-1 is the expected one is used; otherwise the data is fetched again, stored, and decoded over the value the stale read left (the zero value when there was no file or it did not decode) |
| MetaMinecraft.ReadThroughProperties | internal/meta/minecraft.go:367-380 | a reusable cache is read with no change to the files; an empty expected checksum never reuses; a refetched body is stored as the cache file and decoded over the stale cache's decoded value when that decoded, over the zero value when there was no file |
| MetaMinecraft.FetchVersionManifest | internal/meta/minecraft.go:331-345 | the manifest is fetched, and the cached copy is read only when the fetch fails |
| MetaMinecraft.ResolveAlias | internal/meta/minecraft.go:355-360 | "release" and "snapshot" name the manifest's latest versions; any other id is kept |
| MetaMinecraft.FetchVersionMeta | internal/meta/minecraft.go:350-385 | a manifest failure is wrapped as "retrieve version manifest"; an unknown id is "invalid version"; otherwise the version's metadata is read through its checksum-gated cache, a refetch decoded over the stale metadata |
| MetaMinecraft.DownloadAssetIndex | internal/meta/minecraft.go:415-435 | the asset index is read through its cache under indexes/<id>.json, gated by the index checksum; a refetched index is decoded over the stale one, so the decoder decides which stale entries stay |
| MetaMinecraft.FetchJavaManifestList | internal/meta/minecraft.go:437-449 | a cached list that decodes is used and never refreshed; otherwise it is fetched |
| MetaMinecraft.JavaPlatform | internal/meta/minecraft.go:457-462 | darwin becomes mac-os and 386 becomes i386; the architecture is appended unless it is amd64 |
| MetaMinecraft.JavaPlatformLinux | internal/meta/minecraft.go:457-462 | 64-bit x86 Linux is keyed "linux", with no architecture suffix |
| MetaMinecraft.JavaPlatformAppleSilicon | internal/meta/minecraft.go:457-462 | Apple silicon is keyed "mac-os-arm64": darwin is renamed and arm64 kept |
| MetaMinecraft.FetchJavaManifest | internal/meta/minecraft.go:451-500 | errors in order: list failure wrapped as "retrieve java manifest list", "system is unsupported", "invalid name", "required version unavailable for this system"; otherwise the first listed manifest read through its cache; the result and the files left are those of the specification: the list's read-through, then the manifest's, the stored manifest decoded over the stale one unless the cache was reused |
| MetaMinecraft.JavaManifestWritesOnlyCaches | internal/meta/minecraft.go:437-500 | fetching a Java manifest deletes nothing and changes no file but the runtime list's cache and that runtime's manifest cache, and a cached list that decodes is left as it was |
| MetaFabric.VersionsRequest | internal/meta/fabric.go:40-44 | the loader list is read from <caches>/<name>/versions.json at the versions endpoint and is always refetched |
| MetaFabric.FetchVersions | internal/meta/fabric.go:39-51 | the list read from the cache, or the cache's error unchanged |
| MetaFabric.MetaRequest | internal/meta/fabric.go:64-67 | a profile is cached at <caches>/<name>/<loader>-<game>.json, fetched from the profile URL, and not refetched |
| MetaFabric.ResolveLoader | internal/meta/fabric.go:57-63 | any version other than "latest" is kept; "latest" is the first listed version, a list failure is wrapped as "fetch versions", and an empty list is the index panic |
| MetaFabric.FetchMeta | internal/meta/fabric.go:56-81 | success is the profile of the resolved loader, with its loader id set to that version |
| MetaFabric.LatestIsFirstListed | internal/meta/fabric.go:57-63 | asking for "latest" is the same as asking for the first listed loader version |
| MetaFabric.LatestNeedsList | internal/meta/fabric.go:58-61 | when the loader list fails, "latest" fails with that error wrapped as "fetch versions" |
| MetaFabric.ProfileErrors | internal/meta/fabric.go:70-78 | a failed profile read with status 400 or 404 is "invalid or unsuitable game/fabric version"; any other status error or failure is passed on unchanged |
| MetaForge.FetchNeoforgeVersion | internal/meta/forge.go:54-92 | a game version with fewer than two '.'-parts is "invalid version format"; a 404 is "no version found for specified game version"; success is the "version" string of the body |
| MetaForge.NeoforgeFilter | internal/meta/forge.go:61-66 | the filter of a version other than 1.20.1 is the game version without its first component |
| MetaForge.FetchForgeVersion | internal/meta/forge.go:114-138 | success exactly when the promotions decode and list "<game>-latest", giving "<game>-<build>"; a missing key is "no version found…"; a decode failure is wrapped as "read promoted versions" |
| MetaForge.InstallerPathName | internal/meta/forge.go:144-158 | the cached installer is <caches>/forge/<flavor>-<version>-installer.jar, distinct for the two flavors |
| MetaForge.FetchInstaller | internal/meta/forge.go:156-187 | an installer on disk is reused with no request; otherwise it is downloaded, a 404 being "invalid version" and other failures passed on with the disk unchanged; the archive is then unzipped, a bad archive wrapped as "read" |
| MetaForge.OffClasspath | internal/meta/forge.go:225-228 | each install-profile library is appended unchanged except that it is kept off the classpath |
| MetaForge.OfficialClient | internal/meta/forge.go:229-241 | an official client is added exactly when the profile has an MC_OFF entry; a bad specifier is "invalid official client specifier" |
| MetaForge.ForgeMeta | internal/meta/forge.go:225-243 | version.json's libraries, then the profile's off the classpath, then the official client if any; every other field unchanged; loader id is the requested version |
| MetaForge.OfficialClientLast | internal/meta/forge.go:229-241 | the official client is the last library: installed, on the classpath, at its specifier's Maven path |
| MetaForge.FetchMeta | internal/meta/forge.go:190-244 | the disk is the one the installer fetch leaves; an installer failure (download, 404 "invalid version", status, unpacking) is wrapped as "fetch installer"; otherwise the result is that of reading the unpacked entries, with its missing-entry, parse and "invalid official client specifier" errors, for the cached and the downloaded installer alike |
| MetaForge.MetaFromInstaller | internal/meta/forge.go:196-243 | missing entries give "version metadata not present in installer" or "install profile not present in installer"; parse errors are wrapped; otherwise the merged metadata of ForgeMeta and the profile |
| MetaAll.ForgeStyle | internal/meta/all.go:38-59 | "latest" is first resolved for the base game id, a failure wrapped as "retrieve <Forge/NeoForge> version"; a metadata failure is wrapped as "retrieve <name> metadata" |
| MetaAll.FetchAllVersionMeta | internal/meta/all.go:19-63 | a base failure is wrapped as "retrieve version metadata"; success exactly when the base and the loader lookups succeed, giving the loader metadata merged over the base |
| MetaAll.VanillaClearsArguments | internal/meta/all.go:28-62 | vanilla and unknown loaders keep the base libraries, main class and id but clear the arguments and loader id |
| MetaAll.FabricUsesBaseId | internal/meta/all.go:29-37 | Fabric and Quilt are asked about the resolved base id, not the version string the caller gave |
| MetaAll.ForgeLatestResolved | internal/meta/all.go:38-59 | "latest" Forge/NeoForge uses the version the lookup names for the base id; a failed lookup fails the whole fetch |
| MetaCaches.Read | internal/meta/caches.go:19-33 | the decoded file under the caches directory; a missing file or a decode error is passed on |
| MetaCaches.Write | internal/meta/caches.go:34-48 | a marshal failure is wrapped and nothing is written; otherwise the JSON lands at the cache's absolute path |
| MetaCaches.WriteThenRead | internal/meta/caches.go:23-48 | reading back what Write stored gives the value, when its JSON decodes to it |
| MetaCaches.Sha1Sum | internal/meta/caches.go:50-57 | the raw 20-byte digest of the file as a string; an unreadable file is wrapped as "failed to read cache" |
| MetaCaches.Sha1SumIsNotHex | internal/meta/caches.go:55-56 | the raw digest never equals a 40-character hex checksum |
| MetaForgeProcessors.ClientProcessors | internal/meta/forge.go:273-278 | the kept processors are never more than those given |
| MetaForgeProcessors.FilterProcessors | internal/meta/forge.go:273-278 | the filter loop keeps exactly the processors for no side or for the client, in order |
| MetaForgeProcessors.ClientProcessorsMembers | internal/meta/forge.go:274 | a processor is kept exactly when it lists no side or lists "client" |
| MetaForgeProcessors.ClientProcessorsAppend | internal/meta/forge.go:273-278 | the filter distributes over concatenation, so order is kept |
| MetaForgeProcessors.IndexLibraries | internal/meta/forge.go:267-271 | the index loop builds the specifier-to-library map of the profile's libraries |
| MetaForgeProcessors.LibraryIndexDomain | internal/meta/forge.go:269-271 | a specifier is indexed exactly when some library has it |
| MetaForgeProcessors.LibraryIndexLastWins | internal/meta/forge.go:269-271 | a specifier maps to the last library that has it |
| MetaForgeProcessors.ExtractVariables | internal/meta/forge.go:280-310 | the data loop sets each variable to its client value; an embedded "/…" file is extracted under the temporary directory and referenced by that path; a missing one stops with "embedded installer file not present" |
| MetaForgeProcessors.ErrorPersists | internal/meta/forge.go:284-287 | once the scan has failed, later data entries change nothing |
| MetaForgeProcessors.PlainVariable | internal/meta/forge.go:309 | a value that does not start with '/' is taken as it is |
| MetaForgeProcessors.Resolve | internal/meta/forge.go:376-385 | "[spec]" becomes the library's path under the libraries directory (a bad specifier is an error); "'x'" becomes x; anything else is kept |
| MetaForgeProcessors.Substitute | internal/meta/forge.go:368-386 | "{K}" is replaced by variable K, an unknown K being "unknown processor argument"; the result is then resolved |
| MetaForgeProcessors.SubstituteAll | internal/meta/forge.go:367-387 | succeeds exactly when every argument substitutes, giving them in order |
| MetaForgeProcessors.ClasspathOf | internal/meta/forge.go:359-366 | succeeds exactly when every classpath specifier is indexed, giving their runtime paths in order |
| MetaForgeProcessors.ScanMainClass | internal/meta/forge.go:347-354 | the scan loop finds the first "Main-Class: " line's value, trimmed, or "" |
| MetaForgeProcessors.Command | internal/meta/forge.go:322-397 | an unindexed jar is "post processor library not found"; a command is -cp, the classpath plus the jar joined with the host's path-list separator (";" on windows, ":" elsewhere), a non-empty main class, then the substituted arguments |
| MetaForgeProcessors.Commands | internal/meta/forge.go:322-398 | succeeds exactly when every processor's command does, giving them in order |
| MetaForgeProcessors.BuildCommands | internal/meta/forge.go:322-398 | the command loop computes the same commands |
| MetaForgeProcessors.WithBuiltins | internal/meta/forge.go:312-318 | SIDE is "client" and MINECRAFT_JAR is the base game's client jar path |
| MetaForgeProcessors.RefetchReusesInstaller | internal/meta/forge.go:248-255 | after a successful installer fetch, the second fetch (inside the metadata fetch) makes no request, changes nothing and unpacks the same entries |
| MetaForgeProcessors.PatchedClientInvalid | internal/meta/forge.go:257-260 | a bad patched-client specifier fails with "invalid patched client specifier: …" and leaves the disk as it was |
| MetaForgeProcessors.PatchedClientInstalled | internal/meta/forge.go:261-263 | when the patched client is already under the libraries directory, the result is an empty plan and the disk is unchanged |
| MetaForgeProcessors.BaseMetadataMissing | internal/meta/forge.go:314-317 | a failed base-game metadata fetch is wrapped as "retrieve version metadata", after the embedded files were extracted |
| MetaForgeProcessors.ProcessedPlans | internal/meta/forge.go:265-399 | a non-empty plan needs the base metadata and is the commands of the profile's client processors over its data variables and the built-in ones, run against the disk the extraction left |
| MetaForgeProcessors.FetchPostProcessors | internal/meta/forge.go:247-400 | an installer failure is wrapped as "fetch installer" and a metadata failure as "retrieve metadata", with the disk both fetches leave; otherwise, for the data entries visited in some order that lists each key once, the result and the disk are those of the patched-client check, the variable extraction, the base-metadata check and the command building, in that order |
| Network.ErrorText | internal/network/network.go:96-98 | the status error reads "METHOD URL (code)" |
| Network.CheckResponse | internal/network/network.go:101-110 | an error exactly when the status lies outside 200..299, carrying the method, URL and status code |
| Network.WriteBody | internal/network/network.go:36-56 | the file holds exactly the body, its parent directory exists, and its mode is the given one when non-zero, otherwise what it was or the creation default; nothing else changes |
| Network.DownloadFile | internal/network/network.go:26-65 | a transport error or a bad status is returned with the disk unchanged; otherwise the body is written under a created parent directory, the mode set when one is given, and a checksum mismatch reported after the write as "invalid checksum from " and the URL quoted with escapes as %q does |
| NetworkCache.Sha1Of | internal/network/cache.go:67-78 | the 40-character hex SHA-1 of the cache file; a missing path or a directory fails |
| NetworkCache.Get | internal/network/cache.go:25-64 | a valid cache is served without a fetch; a needed fetch with no URL is "no URL to fetch from"; a needed download that fails is wrapped in "data not cached and request failed"; with AlwaysFetch a failed refetch of a valid cache is ignored; a success is the decoding of the file now on disk |
| NetworkCaches.Read | internal/network/caches.go:19-29 | the decoded cache file, or the read or decode error |
| NetworkCaches.FetchAndRead | internal/network/caches.go:32-47 | no URL is "no URL to fetch from"; otherwise the download, then the file read back from disk |
| NetworkCaches.FetchAndReadOutcomes | internal/network/caches.go:32-47 | a successful fetch stores the body and decodes it; a failed one leaves the files untouched and fails |
| NetworkCaches.Sha1Of | internal/network/caches.go:50-61 | the hex digest of the cache file, or the read error |
| NetworkCaches.ReadBytes | internal/network/caches.go:69-76 | the raw contents of the cache file, or the read error |
| NetworkCaches.FetchAndReadBytes | internal/network/caches.go:79-91 | the same URL guard, a download without checksum, then the raw contents |
| NetworkApi.GetVersionManifest | internal/network/api/minecraft.go:115-122 | a failure is wrapped as "failed to retrieve version manifest" |
| NetworkApi.GetLatestRelease | internal/network/api/minecraft.go:124-130 | the manifest's latest release id; a manifest error is passed on |
| NetworkApi.GetVersionMeta | internal/network/api/minecraft.go:132-149 | the metadata of the first entry whose id is exactly the one asked for; a fetch failure is wrapped as "failed to retrieve version metadata" |
| NetworkApi.GetVersionMetaOutcome | internal/network/api/minecraft.go:132-149 | "invalid version" exactly when no manifest entry has the id |
| NetworkApi.EmptyIdIsInvalid | internal/network/api/minecraft.go:138-148 | with a manifest whose entries all have ids, the empty id is "invalid version": no default version is substituted |
| InternalApi.GetVersionMeta | internal/api/minecraft.go:128-156 | the manifest request's error is wrapped; an empty id means the latest release; the first exact match is fetched and checked; an undecodable body gives the zero value |
| InternalApi.EmptyIdIsLatestRelease | internal/api/minecraft.go:137-139 | asking for "" is the same as asking for the manifest's latest release id |
| InternalApi.GetVersionMetaOk | internal/api/minecraft.go:141-153 | success fetches the first exact match and is its decoded metadata, or the zero value when it does not decode |
| InternalApi.GetVersionMetaErrors | internal/api/minecraft.go:128-156 | the only errors are a failed manifest request, an id absent from the manifest and a failed metadata request |
| PkgApi.MetaOf | pkg/api/minecraft.go:124-130 | a bad status is "Failed to retrieve version metadata"; an undecodable body gives the zero value |
| PkgApi.GetVersionMeta | pkg/api/minecraft.go:110-134 | a failed manifest request is "Failed to retrieve version manifest"; an id with no exact match is "Invalid version"; every failed metadata request, transport failures included, is "Failed to retrieve version metadata" |
| PkgApi.GetVersionMetaFetchesFirstMatch | pkg/api/minecraft.go:120-131 | the metadata fetched is that of the first entry with exactly the id, or the zero value when it does not decode |
| PkgApi.UndecodableManifestIsEmpty | pkg/api/minecraft.go:114-120 | a manifest body that does not decode acts as an empty manifest, so every id is "Invalid version" |
| PkgApi.TransportFailurePanics | pkg/api/minecraft.go:122-126 | the code as written agrees with the corrected definition except on a transport failure of the metadata request, where it panics on the nil response |
| Manifest.FindVersion | internal/network/api/minecraft.go:138-139 | the position of the first entry whose id is exactly the one asked for, or none |
| Manifest.FindVersionIgnoresTail | internal/meta/minecraft.go:361-362 | entries after the first exact match are never consulted |
| Strs.Quote | internal/network/network.go:60 | %q wraps the text in double quotes, escapes the quote, the backslash and non-printable characters, and the result reads back to the text through Unquote |
| Strs.UnescapeEscape | internal/network/network.go:60 | reading back the escaped form of any text gives the text |
| Strs.QuoteEscapesQuoteAndNewline | pkg/launcher/launcher.go:205-208 | a quote inside the text becomes \" and a newline becomes \n |
| Strs.QuoteEscapesControl | pkg/launcher/launcher.go:205-208 | a control character without a short escape becomes \xHH |
| Strs.QuoteEscapesSoftHyphen | pkg/launcher/launcher.go:205-208 | a non-printable Latin-1 character such as the soft hyphen becomes \u00ad |
| LauncherLibraries.NewRuntimeLibrary | pkg/launcher/libraries.go:27-46 | a library with a URL gets the Maven-layout path, <url>/<path> and its own checksum and size; any other keeps its download artifact; the runtime path is the artifact path under the libraries directory |
| LauncherLibraries.DownloadEntry | pkg/launcher/libraries.go:73-78 | the entry fetches the artifact's URL to the runtime path, with no checksum and the default mode |
| LauncherLibraries.Chosen | pkg/launcher/libraries.go:87-90 | on linux/arm64 an org.lwjgl library is replaced by the Maven lookup of its path with "linux" turned into "linux-arm64"; any other library is kept |
| LauncherLibraries.FilterLibraries | pkg/launcher/libraries.go:83-99 | the loop returns the installed and required slices of the admitted, possibly swapped libraries |
| LauncherLibraries.FilteredIsPartition | pkg/launcher/libraries.go:83-99 | the two slices are the partition of the selected libraries by isInstalled |
| LauncherLibraries.FilterLibrariesSplit | pkg/launcher/libraries.go:91-95 | every selected library is in exactly one slice, installed ones on the left and the rest on the right, each in input order |
| LauncherLibraries.SelectedMembers | pkg/launcher/libraries.go:49-90 | the selected libraries are exactly the chosen runtime libraries of the libraries whose first rule admits the host |
| LauncherLibraries.GetClientLibrary | pkg/launcher/libraries.go:102-115 | the client jar as a library com.mojang:minecraft:<id> at com/mojang/minecraft/<id>/<id>.jar with the client download's checksum, size and URL |
| LauncherLibraries.ClientLibraryAgrees | pkg/launcher/libraries.go:102-115 | the client library is always admitted, and its artifact and path are those internal/meta's VersionMeta.Client gives |
| LauncherLibraries.FirstAsm | pkg/launcher/libraries.go:122-126 | the position of the first library naming org.ow2.asm:asm:, or none |
| LauncherLibraries.FixLibraries | pkg/launcher/libraries.go:120-130 | the loop computes the fixed library list |
| LauncherLibraries.FixedRemovesFirstOnly | pkg/launcher/libraries.go:120-130 | for Fabric the first org.ow2.asm:asm: library alone is removed and the rest kept in order; other loaders, or no such library, leave the list unchanged |
| LauncherLibrary.Patch | pkg/launcher/library.go:51-93 | a library that is not an LWJGL linux native on linux/arm64, or whose version does not parse, is returned unchanged |
| LauncherLibrary.PatchCases | pkg/launcher/library.go:62-90 | jemalloc from 3.0.0 below 3.3.2 gets the patched jemalloc URL; otherwise the 3.1.6-3.2.2 range without 3.2.0 gets the combined URL; otherwise the natives-linux-arm64 Maven library, or the library itself when that lookup fails |
| LauncherLibrary.CombinedRangeBounds | pkg/launcher/library.go:71 | the range includes 3.1.6 and 3.2.2 and excludes 3.2.0, pre-releases, 3.1.5 and 3.2.3 |
| LauncherLibrary.Key | pkg/launcher/library.go:20 | the dedup key is group, artifact and classifier joined with ':' |
| LauncherLibrary.FilterLibraries | pkg/launcher/library.go:15-48 | the loop returns the installed and required slices of the state it builds |
| LauncherLibrary.PlaceEntries | pkg/launcher/library.go:35-45 | the inner loop appends each entry with a URL, patched, to installed or required by its download state, in order |
| LauncherLibrary.PlacedIsPartition | pkg/launcher/library.go:35-45 | the inner loop partitions the patched downloadable entries by their download state |
| LauncherLibrary.FilteredCounts | pkg/launcher/library.go:16-28 | the loop's count map is the per-key count of non-Mojang libraries |
| LauncherLibrary.FilteredIsPartition | pkg/launcher/library.go:15-48 | the two slices are the partition of the selected libraries by download state |
| LauncherLibrary.CountsNonMojang | pkg/launcher/library.go:27-28 | a key's count is the number of non-Mojang libraries that have it |
| LauncherLibrary.ShadowedByEarlierBase | pkg/launcher/library.go:22-25 | a Mojang library is dropped exactly when an earlier non-Mojang library has its key |
| LauncherLibrary.SelectedStep | pkg/launcher/library.go:17-45 | each library adds its patched downloadable expansion unless it is shadowed or its rules exclude the host |
| LauncherLibrary.PatchedMembers | pkg/launcher/library.go:26-39 | the output holds exactly the patched expansion entries that have a URL |
| LauncherLibrary.FilterLibrariesSplit | pkg/launcher/library.go:40-44 | every selected library is in exactly one slice, downloaded ones in installed and the rest in required, each in input order |
| LauncherAssets.NewAsset | pkg/launcher/assets.go:23-29 | the asset is fetched from resources/<h[:2]>/<h> and lives at <assets>/objects/<h[:2]>/<h> |
| LauncherAssets.IsDownloadedIsPresent | pkg/launcher/assets.go:32-39 | an asset counts as downloaded exactly when its object is present as internal/meta's download list judges it |
| LauncherAssets.DownloadEntry | pkg/launcher/assets.go:42-47 | the entry carries only the asset's URL and runtime path |
| LauncherAssets.Assets | pkg/launcher/assets.go:51-52 | one asset per object, in order |
| LauncherAssets.FilterAssets | pkg/launcher/assets.go:50-58 | the loop returns the required assets |
| LauncherAssets.RequiredStopsAtPanic | pkg/launcher/assets.go:25 | the first hash too short to slice decides the outcome: the slice panic |
| LauncherAssets.FilterWellFormed | pkg/launcher/assets.go:50-58 | filtering keeps hashes well formed |
| LauncherAssets.AssetsAppend | pkg/launcher/assets.go:51-52 | the assets of one more object are the old ones plus its asset |
| LauncherAssets.RequiredIsFilter | pkg/launcher/assets.go:50-58 | with every hash long enough, the required assets are exactly those of the missing objects, each once, in index order |
| LauncherAssets.DownloadAssetIndex | pkg/launcher/assets.go:61-81 | a reusable cached index is read with no change to the files; otherwise the cache is refreshed and the new body decoded over the stale index (empty when there was none or it did not decode), its error returned |
| LauncherAssets.IndexReuseCases | pkg/launcher/assets.go:69-74 | the cache is reused exactly when it decodes and its hex SHA-1 is the version's; an empty expected checksum always refetches |
| Natives.ExtractJarFile | pkg/launcher/natives.go:32-82 | the archive is opened, the destination created, then every entry that is not a directory, not under META-INF/ and not already there is written flat under the destination |
| Natives.ExtractAllAppend | pkg/launcher/natives.go:17-25 | the jar loop over a concatenation is the loop over the first part and then, unless it failed, over the second |
| Natives.ExtractLibraryNatives | pkg/launcher/natives.go:18-24 | the natives of one library are extracted in order |
| Natives.ExtractNatives | pkg/launcher/natives.go:16-28 | every native of every library is extracted in order; a failure is wrapped as "extract natives from <base name>" and stops the loop |
| Natives.ExtractEntriesNeverOverwrites | pkg/launcher/natives.go:60-79 | a file already at an output path is never changed, and only entries that are not directories and not under META-INF/ are written |
| Natives.DestCreatedFirst | pkg/launcher/natives.go:50-58 | the destination directory exists once the archive opens, before any entry is written |
| Natives.ExtractAllStopsAtFirstFailure | pkg/launcher/natives.go:21-23 | a failure names the jar it came from and the jars after it are never opened |
| LauncherPrepare.Launch | pkg/launcher/launcher.go:90-103 | a missing Java path fails with "java executable does not exist"; a path without an execute bit, or a directory, fails with "java binary is not executable"; otherwise the runner's outcome is returned for the command made of the Java path, the argument vector and the game directory |
| LauncherPrepare.ArgvLayout | pkg/launcher/launcher.go:96-101 | the argument vector is the JVM arguments, then "-cp", the classpath joined with the platform list separator, the main class, then the game arguments, and nothing else |
| LauncherPrepare.StringArgs | pkg/launcher/launcher.go:272-285 | only plain-string argument values are kept (rule-guarded values are dropped), so a string is in the result exactly when it is a string argument of the input |
| LauncherPrepare.SubstitutedAll | pkg/launcher/launcher.go:277-285 | each JVM template keeps its position and has the version name, library directory and classpath separator placeholders filled in |
| LauncherPrepare.BaseGameArgs | pkg/launcher/launcher.go:232-246 | the fixed game flags are ten flag/value pairs |
| LauncherPrepare.GameFlags | pkg/launcher/launcher.go:232-258 | the method builds the fixed flags followed by the optional quick-play, uuid, demo, chat and multiplayer flags |
| LauncherPrepare.OptionalFlags | pkg/launcher/launcher.go:244-258 | the optional flags are exactly the quick-play server, uuid, demo, chat and multiplayer flags, each present only when its option is set, in that order |
| LauncherPrepare.AppendStrings | pkg/launcher/launcher.go:272-276 | the loop appends exactly the plain-string game arguments, in order, to what was there |
| LauncherPrepare.JavaFlagArgs | pkg/launcher/launcher.go:260-271 | the loop builds the macOS first-thread flag, the -Xms/-Xmx memory flags and the user's space-separated Java arguments |
| LauncherPrepare.AppendJvmArgs | pkg/launcher/launcher.go:277-285 | the loop appends the substituted plain-string JVM templates of the version, in order |
| LauncherPrepare.JvmArgsAll | pkg/launcher/launcher.go:277-285 | filling in the JVM entries one at a time from the front gives exactly the plain-string entries, in order, each with the version name, library directory and path-list separator substituted |
| LauncherPrepare.CreateArgs | pkg/launcher/launcher.go:230-287 | the game arguments are the fixed flags, the optional flags and the version's game arguments; the Java arguments are the Java flags followed by the substituted JVM templates |
| LauncherPrepare.GameArgsLayout | pkg/launcher/launcher.go:247-258 | each optional game flag appears, with its value, exactly when its option is set, in the order quick-play server, uuid, demo, disable chat, disable multiplayer |
| LauncherPrepare.JavaFlagsLayout | pkg/launcher/launcher.go:260-271 | -XstartOnFirstThread comes first exactly on darwin; -Xms<n>m and -Xmx<n>m appear exactly when the memory bound is non-zero; the user's arguments follow, split on spaces |
| LauncherPrepare.FetchVersion | pkg/launcher/launcher.go:303-310 | a failure to fetch the base Minecraft metadata is returned wrapped in "retrieve version metadata" whatever the loader |
| LauncherPrepare.FetchVersionAgreesWithAll | pkg/launcher/launcher.go:303-348 | for every loader, fetchVersion succeeds exactly when the merged metadata of meta.FetchAllVersionMeta does and then returns the same version |
| LauncherPrepare.WithClient | pkg/launcher/launcher.go:122-126 | only the library list changes: the client jar is appended to it unless a custom jar is configured |
| LauncherPrepare.LibraryEntries | pkg/launcher/launcher.go:127-134 | there is one download entry per required library, at the same position, for its artifact under the libraries directory |
| LauncherPrepare.RequiredDownloads | pkg/launcher/launcher.go:127-134 | the loop produces exactly the download entries of the required libraries |
| LauncherPrepare.FinalizeClasspath | pkg/launcher/launcher.go:186-195 | the loop produces the runtime paths of the installed then required libraries not skipped on the classpath, with the custom jar last when one is set |
| LauncherPrepare.PlanLaunch | pkg/launcher/launcher.go:106-158 | the method's outcome and emitted events are those of the planning phase, which ends before the download step: metadata resolved, libraries filtered into the download list, asset index fetched, Java manifest and path located, stopping at the first failure with its wrapped error |
| LauncherPrepare.Prepare | pkg/launcher/launcher.go:106-197 | the method's outcome and events equal the whole preparation: planning, the download step with its progress events appended after the resolution events, the Forge post-processors, argument creation and the classpath |
| LauncherPrepare.Successes | pkg/launcher/launcher.go:214-224 | the count is the length of the run of successful downloads before the first failure |
| LauncherPrepare.Download | pkg/launcher/launcher.go:202-226 | the method creates the links' directories and symlinks, then runs the downloads, reporting one progress event per success and stopping at the first failed download or link; the link errors quote the path with escapes as %q does |
| LauncherPrepare.ProgressCountsFromZero | pkg/launcher/launcher.go:214-224 | when every download succeeds there is one progress event per entry and the last reports completed = total - 1, so completed never reaches total |
| LauncherPrepare.ClasspathOfMembers | pkg/launcher/launcher.go:186-193 | a path is on the classpath exactly when it is the runtime path of some library not skipped on the classpath |
| LauncherPrepare.CustomJarReplacesClient | pkg/launcher/launcher.go:122-126 | with a custom jar the client jar is not added and the custom jar is the last classpath entry; without one the client jar follows the version's libraries and the classpath is that of all libraries |
| LauncherPrepare.PreparedEvents | pkg/launcher/launcher.go:106-226 | preparation that gets past metadata reports MetadataResolved, then LibrariesResolved with the number of admitted libraries, then AssetsResolved with the number of asset objects exactly when the asset index is fetched; a success then reports Downloading(i, total) for i = 0, 1, ... once per download outcome (none for an empty list), so one per entry when each entry reports once |
| LauncherPrepare.DownloadOrder | pkg/launcher/launcher.go:127-144 | the download list is the library entries followed by the asset entries, and only the asset entries when libraries are skipped |
| PkgLaunch.LibraryItems | pkg/launcher/launch.go:18-23 | each library is fetched from its artifact URL to <root>/libraries/<artifact path>, one download per library in order |
| PkgLaunch.FabricItems | pkg/launcher/launch.go:31-35 | each loader library is fetched from the repository URL followed directly by its Maven path, to <root>/libraries/<Maven path>; a name with fewer than three fields is the Maven-path panic |
| PkgLaunch.FetchItems | pkg/launcher/launch.go:18-42 | the library loop downloads in order and stops at the first failure, returning the paths so far and an error naming the library, exactly as the loop specification |
| PkgLaunch.FetchAllPaths | pkg/launcher/launch.go:18-42 | the returned paths are the destinations of the leading items in order, and all of them exactly when no error is returned |
| PkgLaunch.FetchAssetObjects | pkg/launcher/launch.go:44-52 | the asset step reads the index, downloads each object to assets/objects/<h[:2]>/<h> and the index to assets/indexes/<id>.json, ignoring every download error |
| PkgLaunch.FetchObjectsOnlyPanics | pkg/launcher/launch.go:47-50 | the object loop can only fail with the slice panic of a hash shorter than two characters, and cannot fail when every hash has at least two |
| PkgLaunch.GameArgs | pkg/launcher/launch.go:117 | the game arguments are always six flag/value pairs, with an empty version and a UUID |
| PkgLaunch.Installed | pkg/launcher/launch.go:54-99 | a successful installation has loader metadata exactly when the mod loader is fabric or quilt (with the corrected metadata fetch) |
| PkgLaunch.FetchLoader | pkg/launcher/launch.go:75-92 | the method looks up the loader at the Fabric or Quilt prefix and downloads its libraries, with the outcome and disk of the loader specification |
| PkgLaunch.Install | pkg/launcher/launch.go:54-99 | the method creates the instance directory, fetches the metadata, the libraries, the loader and the client jar, with the outcome and disk of the installation specification (with the corrected metadata fetch) |
| PkgLaunch.StartGame | pkg/launcher/launch.go:101-137 | the method fetches the assets and starts java, returning the error and leaving the disk of the specification |
| PkgLaunch.Launch | pkg/launcher/launch.go:54-138 | the whole launch returns the error and leaves the disk that the launch specification gives (with the corrected metadata fetch) |
| PkgLaunch.LaunchCommand | pkg/launcher/launch.go:103-121 | a started command runs "java" in the instance directory with -XstartOnFirstThread -cp <classpath>, the FabricMcEmu flag only with a loader, the version's main class without one, and the game arguments ending with --uuid |
| PkgLaunch.VanillaIgnoresLoader | pkg/launcher/launch.go:76-92 | without fabric or quilt, the outcome does not depend on the loader metadata service at all |
| PkgLaunch.InstalledClasspath | pkg/launcher/launch.go:70-99 | the classpath is the base libraries' paths in order, then the loader libraries' Maven paths, then the instance's client.jar last |
| EarlyLibrary.InlinePath | internal/launcher/libraries.go:31-33 | the Maven path these files build inline from a loader library's name is the one internal/util.go's GetPathFromMaven builds |
| EarlyLibrary.LibraryArtifact | internal/launcher/libraries.go:27-41 | a library without a repository URL keeps its Mojang download; a loader library gets the Maven path of its name, the URL <repository>/<path> and its own checksum and size |
| EarlyLibrary.FirstRuleAllowsIsStricter | internal/launcher/libraries.go:42-54 | every library the early first-rule check installs is also installed by the later rule of internal/meta/minecraft.go |
| EarlyLibrary.EmptyOsRuleRejected | internal/launcher/libraries.go:42-54 | an "allow" first rule naming no OS is rejected on a named host by the early check yet accepted by the later one, so the two rules differ |
| EarlyLauncherLibraries.RuntimePathOf | internal/launcher/libraries.go:76-78 | the runtime path is the artifact path joined under the libraries directory: the Maven path for a loader library, the download path otherwise |
| EarlyLauncherLibraries.IsInstalledCases | internal/launcher/libraries.go:55-67 | a library is not installed when its file is missing, installed when the file exists and there is no checksum, and otherwise installed exactly when the file's SHA-1 hex matches |
| EarlyLauncherLibraries.MavenLibrary | internal/launcher/libraries.go:97-108 | the looked-up library keeps its name, has no rules and no repository URL, and downloads from Maven Central with the fetched checksum text and size zero |
| EarlyLauncherLibraries.FetchLibraryFromMaven | internal/launcher/libraries.go:80-109 | the method reads the cached checksum or fetches <url>.sha1 and caches the body, with the outcome and disk of the lookup specification |
| EarlyLauncherLibraries.MavenLookupCached | internal/launcher/libraries.go:82-95 | after a successful lookup, a second one sends no request and returns the same library on the same disk |
| EarlyLauncherLibraries.Replacement | internal/launcher/libraries.go:115-118 | a library that is not an LWJGL library on linux/arm64 is kept and the disk is untouched; a replacement keeps a well-formed name |
| EarlyLauncherLibraries.Filtered | internal/launcher/libraries.go:111-127 | every library the filter returns has a well-formed name |
| EarlyLauncherLibraries.FilterLibraries | internal/launcher/libraries.go:111-127 | the loop returns the installed and required slices and leaves the disk of the filter specification |
| EarlyLauncherLibraries.FilteredCount | internal/launcher/libraries.go:111-127 | each library the install rule admits lands in exactly one of the two slices |
| EarlyLauncherLibraries.FilteredElsewhere | internal/launcher/libraries.go:111-127 | off linux/arm64 the disk is untouched and the two slices are the partition of the admitted libraries by their installation state, in input order |
| EarlyLauncherLibraries.GetRuntimeLibraryPaths | internal/launcher/libraries.go:129-134 | one runtime path per library, in order |
| EarlyLauncherLibraries.Install | internal/launcher/libraries.go:68-75 | the method downloads the artifact to its runtime path, skipping an existing file, with the error naming the artifact path |
| EarlyLauncherLibraries.InstallLibraries | internal/launcher/libraries.go:136-149 | the loop installs the libraries in order and stops at the first failure, with the error naming the library, as the specification |
| EarlyLauncherLibraries.DownloadKeeps | internal/util.go:33-54 | a download never removes a file or a directory and leaves something at its destination |
| EarlyLauncherLibraries.InstalledAllPresent | internal/launcher/libraries.go:136-149 | installing never removes anything, and after an install without error every library's runtime path exists |
| EarlyLauncherLibraries.InstalledAllFailure | internal/launcher/libraries.go:136-149 | an error is that of the first library whose install fails, after every library before it installed without error |
| EarlyResources.MavenPath | internal/launcher/resources.go:19-24 | this file's own Maven path of a loader library's name is the one internal/util.go builds |
| EarlyResources.ArmArtifact | internal/launcher/resources.go:41-46 | the arm64 jar is fetched from Maven Central at its own path |
| EarlyResources.MainArtifact | internal/launcher/resources.go:58-65 | a loader library is fetched from its repository URL followed directly by its Maven path; any other library keeps its Mojang download |
| EarlyResources.ScanAnyRule | internal/launcher/resources.go:29-55 | off the LWJGL arm64 swap, the rule loop collects nothing and installs the library exactly when some rule, not only the first, allows the host |
| EarlyResources.ScanSwap | internal/launcher/resources.go:39-49 | on the swap the library itself is never installed and each allowing rule contributes one arm64 jar |
| EarlyResources.LibraryArtifactsCases | internal/launcher/resources.go:28-66 | a library without rules contributes its own artifact; off the swap, its own artifact exactly when some rule allows the host; on the swap, one arm64 jar per allowing rule |
| EarlyResources.AnyRuleVersusFirstRule | internal/launcher/resources.go:29-55 | a disallowing rule followed by an allowing one admits a library here but not under internal/launcher/libraries.go's first-rule check |
| EarlyResources.ScanRules | internal/launcher/resources.go:29-55 | the inner loop computes the install decision and the arm64 jars of the rule scan |
| EarlyResources.CollectArtifacts | internal/launcher/resources.go:27-66 | the first loop collects the artifacts of every library in order |
| EarlyResources.DownloadArtifacts | internal/launcher/resources.go:68-77 | the download loop goes in order and stops at the first failure, as the download specification |
| EarlyResources.InstallLibraries | internal/launcher/resources.go:26-78 | installLibraries downloads exactly the collected artifacts of the libraries, with the paths, error and disk of the download specification |
| EarlyResources.DownloadAllPaths | internal/launcher/resources.go:68-77 | the paths returned are <root>/libraries/<path> of the leading artifacts, all of them exactly when there is no error |
| EarlyResources.DownloadObjects | internal/launcher/resources.go:98-103 | the loop fetches the objects in order, stopping with the slice panic at the first hash shorter than two characters, as the object-loop specification |
| EarlyResources.DownloadAssets | internal/launcher/resources.go:80-110 | the method returns the error and leaves the disk of the asset specification |
| EarlyResources.DownloadOthers | internal/util.go:33-54 | a download changes no file but its destination |
| EarlyResources.ObjectIsNotIndex | internal/launcher/resources.go:82-100 | an object file and an index file never share a path |
| EarlyResources.FetchObjectsKeepsIndex | internal/launcher/resources.go:98-103 | the object loop never creates, removes or changes the index file |
| EarlyResources.AssetsIndexCache | internal/launcher/resources.go:80-110 | a cached index that parses is reused without a fetch and left unchanged; a stale one is fetched and, after the objects, removed and downloaded again; an error is only the wrapped index-fetch error or a short-hash panic, never an object download failure |
| EarlyAssets.GetRequiredAssets | internal/launcher/assets.go:18-32 | the result is an error exactly when some object's hash is too short to slice, that hash's panic; otherwise the index restricted to the stale objects, read from the disk |
| EarlyAssets.RequiredAssetsExact | internal/launcher/assets.go:18-32 | an object is required exactly when it is in the index and its file is missing or its SHA-1 hex is not the hash, and it keeps its name and value |
| EarlyAssets.DownloadAssets | internal/launcher/assets.go:34-47 | the method downloads every object to objects/<h[:2]>/<h> in map order, ignoring failures, with the outcome and disk of the loop specification |
| EarlyAssets.FetchAssetsPanics | internal/launcher/assets.go:39-45 | the loop fails exactly when some hash is shorter than two characters, with the slice panic of such a hash; download failures never surface |
| EarlyAssets.FetchAssetsKeepsFiles | internal/launcher/assets.go:39-45 | the object loop deletes nothing: a file present before is present after |
| EarlyAssets.DownloadAssetIndex | internal/launcher/assets.go:49-69 | the method returns the index and leaves the disk of the specification: a cached file is decoded, a missing one is fetched and written as JSON |
| EarlyAssets.IndexCacheRoundTrip | internal/launcher/assets.go:49-69 | a fetched index is returned and cached so that, when the JSON codec round-trips, a second call returns it without fetching and changes nothing |
| EarlyAssets.CachedIndexNotRefetched | internal/launcher/assets.go:53-67 | a cached file is never refetched and the disk is unchanged; the call fails exactly when the cached file does not decode |
| InternalLauncher.LibraryItem | internal/launcher/launcher.go:32-40 | a Mojang library is fetched from its artifact URL to <root>/libraries/<artifact path>; a loader library from the repository URL followed directly by its Maven path, failing exactly when its name is too short for a Maven path |
| InternalLauncher.Kept | internal/launcher/launcher.go:24-31 | a library is kept exactly when it is in the input and its first rule does not name another OS |
| InternalLauncher.DownloadLibraries | internal/launcher/launcher.go:22-48 | the method returns the paths, error and disk of the getLibraries specification |
| InternalLauncher.GetLibrariesPaths | internal/launcher/launcher.go:22-48 | the paths are the destinations of the leading kept libraries in order, all of them exactly when no error is returned |
| InternalLauncher.GetLibrariesKeepsFiles | internal/launcher/launcher.go:22-48 | the library loop only adds files: every file already there is left as it was |
| InternalLauncher.RuleActionIgnored | internal/launcher/launcher.go:25-31 | only the OS of the first rule decides: changing its action or the later rules never changes whether the library is skipped |
| InternalLauncher.AssetIndex | internal/launcher/launcher.go:50-60 | a cached index file always yields an index (one that does not decode is empty); otherwise the index is had exactly when the request to the index URL succeeds |
| InternalLauncher.DownloadObjects | internal/launcher/launcher.go:61-64 | the loop fetches the objects in order, ignoring download errors and stopping with the slice panic at the first hash shorter than two characters, as the object-loop specification |
| InternalLauncher.DownloadAssets | internal/launcher/launcher.go:50-68 | the method returns the status and leaves the disk of the getAssets specification |
| InternalLauncher.GetObjectsOnlyPanics | internal/launcher/launcher.go:61-64 | the object loop ends without error exactly when every hash has at least two characters; download failures are ignored |
| InternalLauncher.GetObjectsKeepsFiles | internal/launcher/launcher.go:61-64 | the object loop only adds files: every file already there is left as it was |
| InternalLauncher.CachedIndexKept | internal/launcher/launcher.go:50-68 | with a cached index getAssets never reports a fetch failure and the index file is left as it was |
| InternalLauncher.LoaderPrefix | internal/launcher/launcher.go:111-119 | a metadata service is chosen exactly for "fabric" and "quilt" |
| InternalLauncher.VersionMeta | internal/launcher/launcher.go:93-102 | a cached <version>.json always yields metadata and keeps the version name; otherwise the outcome is the metadata fetch's, and the version becomes the fetched id |
| InternalLauncher.LoaderMeta | internal/launcher/launcher.go:120-129 | a cached <loader>.json always yields metadata and leaves the disk unchanged; otherwise the outcome is the loader service's |
| InternalLauncher.LoaderStep | internal/launcher/launcher.go:109-135 | no loader gives nothing and changes nothing; an unknown loader name fails with "invalid mod loader" and changes nothing; success has loader metadata exactly when a loader was asked for |
| InternalLauncher.Installed | internal/launcher/launcher.go:87-135 | a successful installation has loader metadata exactly when a loader was asked for |
| InternalLauncher.GameArgs | internal/launcher/launcher.go:159-162 | the game arguments are six flag/value pairs, seven when there is a UUID |
| InternalLauncher.ReadLoaderMeta | internal/launcher/launcher.go:120-129 | the method reads the cache or fetches and caches with mode 0644, with the outcome and disk of the loader-metadata specification |
| InternalLauncher.FetchLoader | internal/launcher/launcher.go:109-135 | the method returns the loader, its library paths and the disk of the loader-step specification |
| InternalLauncher.Install | internal/launcher/launcher.go:87-135 | the method returns the installation and leaves the disk of the specification |
| InternalLauncher.StartGame | internal/launcher/launcher.go:137-166 | the method fetches the assets and the client jar and runs java, returning the error and leaving the disk of the specification |
| InternalLauncher.Launch | internal/launcher/launcher.go:87-167 | the whole launch returns the error and leaves the disk that the launch specification gives |
| InternalLauncher.ArgsLayout | internal/launcher/launcher.go:146-162 | the arguments are -cp <classpath>, -XstartOnFirstThread exactly on darwin, the loader's JVM arguments and main class or the version's main class, then the game arguments with an empty --version value and --uuid only when there is one |
| InternalLauncher.StartedCommand | internal/launcher/launcher.go:141-166 | the started command is java in the version directory with the library paths then <version>.jar as classpath, followed by the JVM and game arguments |
| InternalLauncher.LaunchCommand | internal/launcher/launcher.go:87-167 | a started command is java in the version directory, its classpath ending with <versionDir>/<version>.jar, with the argument layout above |
| InternalLauncher.CachedMetaSkipsManifest | internal/launcher/launcher.go:93-102 | with a cached version.json the version manifest is never consulted and the version name is kept |
| InternalLauncher.InvalidLoaderAfterLibraries | internal/launcher/launcher.go:104-119 | an unknown loader is refused with "invalid mod loader" only after the version's libraries were downloaded, leaving that disk |
| InternalLauncher.LoaderCacheWritten | internal/launcher/launcher.go:120-134 | a loader lookup that succeeds without a cache file leaves the cache file holding the encoded metadata, whatever the loader's libraries do |
| InternalRun.GetVersionDir | internal/launcher/run.go:23-25 | the version directory lies under <root>/versions/ |
| InternalRun.ResolvedVersion | internal/launcher/run.go:45-51 | "latest" becomes the manifest's latest release, failing with the manifest error; any other version is kept |
| InternalRun.ReadThrough | internal/launcher/run.go:58-68 | a cached file is decoded and the disk left alone; without one the outcome is the fetch's, and a successful fetch is written to the file with mode 0644 while a failed one changes nothing |
| InternalRun.ReadThroughFile | internal/launcher/run.go:58-68 | the method reads or fetches and caches, with the outcome and disk of the read-through specification |
| InternalRun.LoaderStep | internal/launcher/run.go:75-92 | any loader name but "fabric" gives no loader and changes nothing; a successful step has a loader exactly for "fabric" |
| InternalRun.Installed | internal/launcher/run.go:44-92 | a successful installation has a loader exactly for "fabric" and is for the resolved version |
| InternalRun.GameArgs | internal/launcher/run.go:115-118 | the game arguments carry the version directory, the version and its type, and --uuid last only when there is one |
| InternalRun.Install | internal/launcher/run.go:44-92 | the method returns the installation and leaves the disk of the specification |
| InternalRun.FetchLoader | internal/launcher/run.go:75-92 | the method returns the loader, its library paths and the disk of the loader-step specification |
| InternalRun.StartGame | internal/launcher/run.go:94-120 | the method fetches assets and the client and runs java, returning the error and leaving the disk of the specification |
| InternalRun.Launch | internal/launcher/run.go:44-121 | the whole launch returns the error and leaves the disk that the launch specification gives |
| InternalRun.LatestIsLatestRelease | internal/launcher/run.go:45-51 | launching "latest" is launching the latest release; when the manifest cannot be read nothing changes and its error is returned |
| InternalRun.MetaReadThrough | internal/launcher/run.go:58-68 | the metadata launched is the cached file's (the zero value when it does not decode), otherwise the fetched one, which is then written to <version>.json |
| InternalRun.OnlyFabricHasLoader | internal/launcher/run.go:76-92 | any loader name other than "fabric", "quilt" included, launches the plain version and never asks for loader metadata |
| InternalRun.LaunchCommand | internal/launcher/run.go:101-120 | a started command is java in <root>/versions/<version> for the resolved version, with -cp and the classpath ending in that directory's <version>.jar, then the JVM and game arguments |
| InternalInstance.GetInstance | internal/launcher/instance.go:149-162 | a missing instance directory is "instance does not exist"; the lookup succeeds exactly when the directory exists and its instance.json is there and decodes, and then the instance is what the file says |
| InternalInstance.ResolvedVersion | internal/launcher/instance.go:108-114 | any version other than "release" and "snapshot" is kept as given |
| InternalInstance.Created | internal/launcher/instance.go:99-137 | a loader other than none or "fabric" is "invalid mod loader" with nothing changed; success only when no instance of that name exists; a failure changes nothing |
| InternalInstance.CreateInstance | internal/launcher/instance.go:99-137 | the method returns the instance and leaves the disk of the creation specification |
| InternalInstance.CreateThenGet | internal/launcher/instance.go:120-136 | a created instance lives in <instances>/<name> with the default configuration and the resolved version, whose metadata exists, and reads back unchanged |
| InternalInstance.CreateRefusesExisting | internal/launcher/instance.go:104-106 | an existing instance is never overwritten: creation fails with "instance already exists" and changes nothing |
| InternalInstance.ReleaseIsLatest | internal/launcher/instance.go:108-110 | creating "release" is creating the latest release id |
| InternalInstance.Deleted | internal/launcher/instance.go:138-147 | an unreadable instance gives its lookup error and changes nothing; otherwise the directory named in the stored metadata is removed with everything under it |
| InternalInstance.DeleteInstance | internal/launcher/instance.go:138-147 | the method returns the error and leaves the disk of the deletion specification |
| InternalInstance.DeletedIsGone | internal/launcher/instance.go:138-147 | an instance whose metadata names its own directory no longer exists after deletion, and instances outside that directory read the same |
| InternalInstance.AllInstances | internal/launcher/instance.go:164-180 | the listing has at most one instance per directory entry |
| InternalInstance.GetAllInstances | internal/launcher/instance.go:164-180 | a failed directory read is wrapped in "failed to read instances directory"; otherwise the instances of the listed entries |
| InternalInstance.AllInstancesAreLoadable | internal/launcher/instance.go:164-180 | the listing keeps exactly the directories that load as instances, each once and in listing order, as read by GetInstance |
| InternalInstance.MemoryFlags | internal/launcher/instance.go:61-66 | -Xms comes first exactly when the minimum is set and -Xmx last exactly when the maximum is set, and nothing else |
| InternalInstance.GameArgs | internal/launcher/instance.go:78-94 | the game arguments carry the instance directory, version, type and window size, then --quickPlayMultiplayer and --uuid each only when given |
| InternalInstance.GetVersionMeta | internal/launcher/instance.go:189-202 | the method reads <dir>/<version>.json or fetches and writes it, as the read-through specification |
| InternalInstance.DownloadClient | internal/launcher/instance.go:219-229 | the method reads the metadata again and downloads the client jar, with the error wrapping and disk of the specification |
| InternalInstance.Prepare | internal/launcher/instance.go:45-53 | the method returns the metadata and leaves the disk of the preparation part of Start, each failure wrapped once more |
| InternalInstance.JvmPrefix | internal/launcher/instance.go:57-66 | the arguments start with -cp and the classpath, then -XstartOnFirstThread on macOS only, then the memory flags |
| InternalInstance.StartGame | internal/launcher/instance.go:55-96 | the method builds the arguments, reads the Fabric metadata for a Fabric instance, and runs the configured Java, as the specification |
| InternalInstance.Start | internal/launcher/instance.go:45-97 | the whole start returns the error and leaves the disk that the start specification gives |
| InternalInstance.StartArgsLayout | internal/launcher/instance.go:57-76 | the arguments are -cp <classpath>, the macOS flag on darwin, the memory flags, then the Fabric or version main class, and the game arguments last |
| InternalInstance.StartCommand | internal/launcher/instance.go:55-96 | a started command runs the configured Java in the instance directory with the classpath ending in <dir>/<version>.jar and the layout above |
| InternalInstance.ClientErrorWrappedTwice | internal/launcher/instance.go:51-53 | a failed client download reaches the caller wrapped twice in "failed to download client" |
| LauncherInstance.Instance.Dir | pkg/launcher/instance.go:33-35 | an instance's directory is <instances>/<name> |
| LauncherInstance.Instance.Rename | pkg/launcher/instance.go:38-44 | a rename fails when the directory is missing ("no such file or directory") or when a directory has the new name, its own name included ("file exists"), and then nothing changes; on success the directory moves and the instance's name follows, its metadata and stored fields untouched |
| LauncherInstance.RenameMovesConfig | pkg/launcher/instance.go:38-44 | a successful rename is to a different name, keeps the number of instance directories, puts the new name in place of the old with the same instance.json under it, and leaves every other name as it was |
| LauncherInstance.RenameToSelfFails | pkg/launcher/instance.go:39 | renaming an existing instance to its own name is the "file exists" error of `os.Rename` on a directory |
| LauncherInstance.Fetched | pkg/launcher/instance.go:133-161 | an instance without instance.json does not exist; a fetched instance is named after its directory and holds exactly the decoded stored fields |
| LauncherInstance.FetchInstance | pkg/launcher/instance.go:133-161 | the method succeeds exactly when the fetch specification does, returning a fresh instance with that value, or the same error |
| LauncherInstance.CreateInstance | pkg/launcher/instance.go:77-118 | a failure changes nothing and carries the specification's error; success adds the instance's directory and its encoded instance.json and returns a fresh instance with the created value |
| LauncherInstance.CreatedFields | pkg/launcher/instance.go:91-111 | a new instance stores the resolved game id, not the alias asked for, the loader version of the merged metadata, the loader asked for, and the default 1708x960, 512-4096 MB configuration with the Java found on the PATH or none |
| LauncherInstance.CreateThenFetch | pkg/launcher/instance.go:77-161 | a created instance can be fetched back under its name with the same stored fields, when its instance.json round-trips and its metadata can be fetched |
| LauncherInstance.CreateOverBrokenInstance | pkg/launcher/instance.go:78-80 | a directory whose instance.json does not load is no instance: creation proceeds exactly as if the file were absent and overwrites it |
| LauncherInstance.RemoveInstance | pkg/launcher/instance.go:121-130 | an instance that cannot be fetched is not removed and its fetch error is returned; otherwise its directory and instance.json go and nothing else changes |
| LauncherInstance.RemovedIsGone | pkg/launcher/instance.go:121-130 | after removal the instance no longer exists and every other instance fetches as before |
| LauncherInstance.AllInstances | pkg/launcher/instance.go:164-183 | the listing has at most one instance per directory entry |
| LauncherInstance.FetchAllInstances | pkg/launcher/instance.go:164-183 | a missing directory lists nothing; a failed read is wrapped in "read instances directory"; otherwise one fresh instance per loadable entry, in order, with the listed values |
| LauncherInstance.AllInstancesAreLoadable | pkg/launcher/instance.go:172-181 | the listing keeps exactly the directories that load as instances, each once and in listing order, named after their directories |
| DenoApi.Requested | api/mojang.ts:29-31 | a missing or empty version asks for the manifest's latest release; any other version is asked for as given |
| DenoApi.DataOf | api/mojang.ts:32-36 | the lookup fails with "Invalid version" exactly when no manifest entry has that id; otherwise the data is fetched from the first matching entry's URL |
| DenoApi.GetVersionData | api/mojang.ts:27-37 | a manifest failure is returned as is; otherwise the data of the requested id, the latest release when none is given |
| DenoApi.GetVersionDataExact | api/game.ts:17-24 | once the manifest is read, the id is looked up exactly as given, with no default |
| DenoApi.LatestWhenUnset | api.ts:24-34 | no version and the empty version fetch the same data, that of the latest release, and any other version is looked up as api/game.ts does |
| DenoApi.ExactHasNoDefault | api/game.ts:17-22 | the api/game.ts lookup has no default: the empty id is "Invalid version" when no entry has it |
| DenoApi.FilterVersions | api.ts:19-21 | filtering succeeds exactly when the manifest can be read |
| DenoApi.FilterVersionsMembers | api.ts:19-21 | an entry is kept exactly when it is in the manifest and has the requested type |
| DenoApi.Prefix2 | api.ts:41 | the object prefix is the first two characters of the hash, or the whole hash when it is shorter, as JavaScript's slice clamps |
| DenoApi.ObjectURLAgrees | api.ts:40-44 | for hashes of two or more characters the object URL is the one the Go generations build; a shorter hash gives <hash>/<hash> rather than an error |
| DenoApi.DownloadLibrary | api.ts:36-39 | the library's artifact is downloaded to libraries/<path>, always overwriting |
| DenoApi.DownloadAsset | api.ts:40-44 | the object is downloaded to assets/objects/<h[:2]>/<h>, always overwriting |
| DenoApi.Fetched | api/mojang.ts:56-75 | an existing path is left alone with no request; a successful download leaves something at the path; no file is changed except the destination and no directory removed |
| DenoApi.FetchedOnce | api/mojang.ts:56-75 | after a successful gated download a second one changes nothing and succeeds |
| DenoApi.Paths | launcher.ts:45-52 | one destination per download, in order |
| DenoApi.FetchAll | launcher.ts:45-52 | a successful loop returns every destination in order and each exists afterwards; no existing file is changed and no directory removed |
| DenoApi.PrependStep | launcher.ts:45-52 | one successful turn of the loop moves its destination into the accumulated paths |
| DenoApi.FetchOne | api/mojang.ts:58-61 | the method downloads only when nothing exists at the path, leaving the result and disk of the gated-download specification |
| DenoApi.FetchEach | launcher.ts:45-52 | the loop fetches each missing destination in order, stopping at the first failure, as the loop specification |
| DenoApi.FetchLibrary | api/mojang.ts:56-63 | the library is downloaded to <root>/libraries/<path> only when nothing is there, and that path is returned unless the download fails |
| DenoApi.FetchAsset | api/mojang.ts:66-75 | the object is downloaded to <root>/assets/objects/<h[:2]>/<h> only when nothing is there |
| DenoApi.SavedAssetData | api/mojang.ts:40-53 | the index is always fetched and its objects returned; it is saved only when no file is there yet, and a fetch failure changes nothing |
| DenoApi.GetAndSaveAssetData | api/mojang.ts:40-53 | the method returns the objects and leaves the disk of the specification |
| DenoApi.StaleIndexKept | api/mojang.ts:44-52 | a saved index file is never refreshed, although the objects returned are those just fetched |
| DenoFs.WithParent | util.ts:15-18 | only the parent directory is added, and only when nothing is there yet |
| DenoFs.Downloaded | util.ts:4-12 | the download fails exactly when the request does, changing nothing; otherwise the body, whatever the status, is written to the destination under its parent directory |
| DenoFs.Download | util.ts:4-12 | the method returns the error and leaves the disk of the download specification |
| DenoFs.Saved | util.ts:14-20 | the data is written at the path, under its parent directory, and no directory is removed |
| DenoFs.SaveFile | util.ts:14-20 | the method leaves the disk of the save specification |
| DenoLauncher.LoaderCacheDir | launcher.ts:54 | the loader cache directory is "quilt" exactly for Quilt and "fabric" for any other loader |
| DenoLauncher.ReadThrough | launcher.ts:34-38 | with the cache flag on and a usable cache file, its value is returned and nothing changes; otherwise a fetch failure changes nothing and a fetched value is returned and written to the cache file; no other file changes |
| DenoLauncher.ReadThroughFile | launcher.ts:34-38 | the method returns the value and leaves the disk of the read-through specification |
| DenoLauncher.LibraryFetches | launcher.ts:45-52 | each base library is fetched from its artifact URL to <root>/libraries/<path>, in order |
| DenoLauncher.LoaderFetches | launcher.ts:67-75 | each loader library is fetched from <repository>/<Maven path> to <root>/libraries/<Maven path>, in order |
| DenoLauncher.AssetFetches | launcher.ts:85-92 | each object is fetched from the resources host to <root>/assets/objects/<h[:2]>/<h>, in order |
| DenoLauncher.LoaderStep | launcher.ts:53-76 | without a loader nothing happens; with one, success means the loader's main class replaces the game's and its library paths follow the base ones; only the loader cache file can be overwritten |
| DenoLauncher.Prepare | launcher.ts:28-76 | a prepared version lists the base library paths first, in order, and without a loader keeps the game's main class and no other paths; only the two metadata cache files can be overwritten |
| DenoLauncher.InstalledAfter | launcher.ts:78-107 | success returns the main class, the asset index id, <instanceDir>/<version>.jar and the library paths; only the asset index cache file can be overwritten |
| DenoLauncher.InstallLoader | launcher.ts:53-76 | the method returns the main class and paths and leaves the disk of the loader-step specification |
| DenoLauncher.PrepareVersion | launcher.ts:28-76 | the method returns the prepared version and leaves the disk of the specification |
| DenoLauncher.InstallAssetsAndClient | launcher.ts:78-107 | the method returns the launch arguments and leaves the disk of the specification |
| DenoLauncher.InstallVersion | launcher.ts:28-108 | installVersion returns the launch arguments and leaves the disk of the install specification |
| DenoLauncher.InstallKeepsFiles | launcher.ts:28-108 | an install never overwrites or removes a file other than its three cache files |
| DenoLauncher.CachedMetaNotFetched | launcher.ts:34-38 | with the cache flag on and a usable metadata cache, the version metadata service is never consulted |
| DenoLauncher.AssetIndexIgnoresCacheFlag | launcher.ts:78-83 | a usable cached asset index is used whatever the cache flag, and the index service is never consulted |
| DenoLauncher.JvmArgs | launcher.ts:111-116 | the JVM arguments are -cp with the client jar then the libraries joined by ':', then -XstartOnFirstThread exactly on darwin |
| DenoLauncher.GameArgs | launcher.ts:117-132 | the game arguments are always six flag/value pairs |
| DenoLauncher.RunLayout | launcher.ts:110-137 | run starts the configured JVM in the instance directory with the classpath, the darwin flag, the main class, an empty version, the account's token or "a", its UUID or a random one, the player name and the asset index id |
| DenoLauncher.UsernameFallback | launcher.ts:124-127 | the player name is the account's, else the offline name, else "Player" followed by a number |
| Modrinth.SearchURL | api/modrinth.ts:76-79 | the search URL is the API's search endpoint followed by the query exactly as given, unescaped |
| Modrinth.First | api/modrinth.ts:93-95 | the position found is of an element that satisfies the condition with none before it; no position means no element satisfies it |
| Modrinth.GetModrinthProject | internal/api/modrinth.go:90-97 | a failed fetch is reported as "failed to get project: " with the fetch error and the zero project; otherwise the decoded project comes back without error |
| Modrinth.DownloadModrinthProject | internal/api/modrinth.go:98-114 | the loop stops at the first version listing both the loader and the game version and downloads its first file; the error and disk are those of the download specification |
| Modrinth.ProjectDownloadWritesChosenFile | internal/api/modrinth.go:98-114 | success implies the version list was fetched and a version fits; every existing file is kept and the only new file is the first file of the first fitting version |
| Modrinth.NoFitNoChange | internal/api/modrinth.go:104-113 | when no listed version fits, the result is "no version found" and the disk is unchanged |
| Modrinth.GetProjectVersion | api/modrinth.ts:89-102 | a returned version is the first in the fetched list that supports the game version (every earlier one does not); an error is the fetch error, or the "Could not find a project version" error when no listed version supports the game version |
| Modrinth.DenoPicksNoLater | api/modrinth.ts:93-95 | the TypeScript lookup, which ignores loaders, picks the Go lookup's version or an earlier one, and exactly that version when every version supports the loader |
| Search.Matching | internal/cli/cmd/search.go:38-42 | the rows are entries whose key contains the query, tagged with their own position, in list order |
| Search.MatchingComplete | internal/cli/cmd/search.go:38-42 | an entry has a row exactly when its key contains the query |
| Search.EmptyQueryKeepsAll | internal/cli/cmd/search.go:38-42 | an empty query lists every entry at its own position |
| Search.CollectMatches | internal/cli/cmd/search.go:38-42 | the appending loop yields exactly the matching rows |
| Search.ReverseInPlace | internal/cli/cmd/search.go:71-73 | slices.Reverse leaves the array holding its old contents back to front |
| Search.ReversedTwice | internal/cli/cmd/search.go:71-73 | reversing twice restores the sequence |
| Search.ReversedMultiset | internal/cli/cmd/search.go:71-73 | reversing keeps the same elements with the same multiplicities |
| Search.OrderRows | internal/cli/cmd/search.go:71-73 | the rows come back reversed exactly when the reverse flag is set |
| Search.CliSearch | internal/cli/cmd/search.go:22-82 | the versions, fabric and quilt kinds give a translated header with the matching rows, each failed fetch gives its own wrapped error, and any other kind gives an empty table |
| Search.CliSearchRun | internal/cli/cmd/search.go:22-82 | the command's table or error is that of the search specification |
| Search.InstanceSearch | internal/cmd/search.go:22-78 | the instances, versions, fabric and quilt kinds give their header with the matching rows; a failed fetch gives "get all instances", "retrieve version manifest" or "retrieve fabric/quilt versions" with the cause; an unknown kind gives an empty table |
| Search.InstanceSearchRun | internal/cmd/search.go:22-78 | the command's table or error is that of the search specification |
| Search.SearchVersions | cmd/search.go:24-43 | a manifest failure exits with status 1 and "failed to search for versions"; otherwise the table lists the matching versions, not reversed |
| Search.SearchVersionsRun | cmd/search.go:24-43 | the command's outcome is that of the specification |
| Search.SearchInstances | cmd/search.go:54-73 | a failure to list instances exits with status 1 and "failed to get all instances"; otherwise the table lists the matching instances |
| Search.SearchInstancesRun | cmd/search.go:54-73 | the command's outcome is that of the specification |
| Search.ReverseOnlyReorders | internal/cli/cmd/search.go:71-73 | reversal keeps the same rows, reversing twice restores them, and the last row comes first |
| Search.OrderedShowsSame | internal/cli/cmd/search.go:71-73 | a position is shown after reordering exactly when it was shown before |
| Search.MatchingShows | internal/cli/cmd/search.go:38-42 | rows built from the matches show position i exactly when entry i's key contains the query |
| Search.VersionSearchShowsMatches | internal/cli/cmd/search.go:26-42 | the version search shows manifest position i exactly when that version's id contains the query, reversed or not |
| Search.InstanceSearchShowsMatches | internal/cmd/search.go:27-37 | the instance search shows instance i exactly when its name contains the query, reversed or not |
| Search.LoaderSearchShowsMatches | internal/cli/cmd/search.go:43-68 | the fabric search shows loader version i exactly when it contains the query, reversed or not |
| Lang.Output.constructor | internal/cli/output/lang.go:202 | before any language is set the English table is active |
| Lang.Output.SetLang | internal/cli/output/lang.go:205-212 | the German tag makes the German table active, and any other tag the English one |
| Lang.Output.Translations | internal/cli/output/lang.go:215-217 | the table returned is the English or the German one |
| Lang.Output.Translate | internal/cli/output/lang.go:220-226 | a key the active table has gives its text, and a key it lacks gives the key itself |
| Lang.EnglishTable | internal/cli/output/lang.go:7-103 | no English text is empty, and "start.arg.verbose" reads "Increase verbosity" |
| Lang.GermanTable | internal/cli/output/lang.go:105-200 | no German text is empty, and the German table has no "start.arg.verbose" entry |
| Lang.GermanKeys | internal/cli/output/lang.go:7-200 | the German table has exactly the English keys except "start.arg.verbose" |
| Lang.TranslateNeverEmpty | internal/cli/output/lang.go:220-226 | over tables without empty texts, a non-empty key never translates to an empty text |
| Lang.GermanMissesVerbose | internal/cli/output/lang.go:59 | under the German table the verbosity flag's key comes back untranslated |
| Lang.EnglishHasVerbose | internal/cli/output/lang.go:59 | under the English table the verbosity flag reads "Increase verbosity" |
| Env.DirsFromLayout | pkg/env.go:30-36 | each directory SetDirs derives lies directly under the root, under its own name: instances, libraries, caches, assets and account.json |
| Env.DirsFromDistinct | pkg/env.go:30-36 | no two of the root and the five derived paths coincide, whatever the root |
| Env.Globals.Init | pkg/env.go:44-47 | at start-up the directories are those derived from $HOME/.minecraft, whether or not creating it fails |
| Env.Globals.SetDirs | pkg/env.go:30-42 | the variables become those derived from the new root even when creating it fails; a failure is reported as "create root directory: " with the cause and creates nothing, success creates the root; files are untouched |
| EnvInternal.Globals.constructor | internal/env.go:5-10 | before any root is set every directory variable is empty |
| EnvInternal.Globals.SetDirsFromRoot | internal/env.go:12-19 | the variables become those derived from the root, the same layout as the newer generation's, and a second call with the same root changes nothing |
| CliMain.GetDirs | cli/main.ts:12-18 | the instance directory is <root>/instances/<version>, and the root is absolute whenever the working directory is |
| CliMain.GetDirsAbsolute | cli/main.ts:13-15 | an absolute --dir is used verbatim as the root |
| CliMain.GetDirsRelative | cli/main.ts:14-16 | a relative --dir is placed under the working directory |
| CliMain.GetDirsDefault | cli/main.ts:13 | without --dir the root is .minecraft in an absolute home directory |
| CliMain.GetDirsNoHome | cli/main.ts:13-16 | with HOME unset the root becomes <cwd>/undefined/.minecraft |
| Oauth.AuthorizeQuery | internal/auth/microsoft.go:26-32 | the authorization request carries exactly the client id, response_type "code", the redirect URI, the scope and response_mode "query" |
| Oauth.GrantForm | internal/auth/microsoft.go:74-88 | the token request carries exactly the client id, scope, redirect URI, the grant type of its kind and the credential under "code" or "refresh_token" |
| Oauth.GrantFormDetermines | internal/auth/microsoft.go:79-88 | the grant type says refresh exactly when a refresh token is sent, exactly one of code and refresh_token is present, and it holds the credential given |
| Oauth.IdentityToken | internal/auth/microsoft.go:219 | the identity token is "XBL3.0 x=" followed by the userhash, ';' and the XSTS token |
| Oauth.ParseIdentity | internal/auth/microsoft.go:219 | a token that parses is rebuilt exactly from the userhash and XSTS token read back |
| Oauth.IdentityRoundTrip | internal/auth/microsoft.go:219 | the identity token gives back its userhash and XSTS token whenever the userhash holds no ';' |
| PkgAuthStore.WrittenStagesValidity | pkg/auth/store.go:22-111 | a freshly written stage is valid exactly when its response carried a token (for Xbox Live also a userhash) that expires after now |
| PkgAuthStore.WriteXbl | pkg/auth/store.go:61-65 | writing an Xbox Live response fails exactly when it has no claims, the index panic; otherwise the stage holds the first claim's userhash, the token and its expiry |
| PkgAuthStore.MsaRefreshForm | pkg/auth/store.go:26-31 | the refresh request carries exactly the client id, the scope, grant_type refresh_token and the stored refresh token, with no redirect URI |
| PkgAuthStore.RefreshedMsa | pkg/auth/store.go:25-37 | a failed refresh leaves the whole store as it was; a successful one changes only the Microsoft stage |
| PkgAuthStore.RefreshedXbl | pkg/auth/store.go:53-60 | a failed refresh leaves the whole store as it was; a successful one changes only the Xbox Live stage |
| PkgAuthStore.RefreshedXsts | pkg/auth/store.go:75-82 | a failed refresh leaves the whole store as it was; a successful one changes only the XSTS stage |
| PkgAuthStore.RefreshedMinecraft | pkg/auth/store.go:98-105 | a failed refresh leaves the whole store as it was; a successful one changes only the Minecraft stage |
| PkgAuthStore.AuthStore.constructor | pkg/auth/store.go:113-119 | the store starts with every token empty and every expiry the zero time |
| PkgAuthStore.AuthStore.Assign | pkg/auth/store.go:149 | the global store becomes the given store |
| PkgAuthStore.AuthStore.WriteMsaResponse | pkg/auth/store.go:38-42 | writing a Microsoft response replaces only the Microsoft stage |
| PkgAuthStore.AuthStore.RefreshMsa | pkg/auth/store.go:25-37 | the refresh returns the endpoint's error and leaves the store of the refresh specification |
| PkgAuthStore.AuthStore.RefreshXbl | pkg/auth/store.go:53-60 | the refresh sends the stored Microsoft token and leaves the error and store of the specification |
| PkgAuthStore.AuthStore.RefreshXsts | pkg/auth/store.go:75-82 | the refresh sends the stored Xbox Live token and leaves the error and store of the specification |
| PkgAuthStore.AuthStore.RefreshMinecraft | pkg/auth/store.go:98-105 | the refresh sends the stored XSTS token and userhash and leaves the error and store of the specification |
| PkgAuthStore.AuthStore.WriteToCache | pkg/auth/store.go:122-125 | the cache file holds the encoded store, with mode 0644 when it is created |
| PkgAuthStore.AuthStore.Clear | pkg/auth/store.go:128-131 | the cache file holds an encoded empty store, while the store in memory keeps its contents |
| PkgAuthStore.Loaded | pkg/auth/store.go:145-148 | the loaded store is the decoded file, or the empty store when the file does not decode |
| PkgAuthStore.ReadFromCache | pkg/auth/store.go:136-151 | an existing file is read without change; a missing one is created empty and read as empty content; either way the global store is replaced by what was loaded |
| PkgAuthStore.CacheRoundTrip | pkg/auth/store.go:122-151 | when the decoder reads back what the encoder wrote, the store read from the cache is the store written to it |
| PkgAuthStore.ClearedCacheIsEmpty | pkg/auth/store.go:128-151 | after Clear the cache reads back as the empty store, whose Microsoft stage is not valid |
| PkgAuth.StatusError | internal/network/network.go:101-110 | a response is accepted exactly when its status is in 200-299 |
| PkgAuth.AuthCodeURL | pkg/auth/auth.go:33-44 | the authorization URL is the authorize endpoint with exactly the client id, response_type "code", the redirect URI, the launcher's scope and response_mode "query" |
| PkgAuth.FetchDeviceCode | pkg/auth/auth.go:59-79 | a transport error is returned as it is, a failing status is an error, and a device code comes only from a successful response's decoded body |
| PkgAuth.AuthenticateMSA | pkg/auth/auth.go:94-106 | a transport error is returned as it is; otherwise the answer is the decoded body whatever the status, so error responses come back as values |
| PkgAuth.AuthenticateXBL | pkg/auth/auth.go:119-155 | an Xbox Live response comes only from a successful status, decoded from the body |
| PkgAuth.AuthenticateXSTS | pkg/auth/auth.go:166-206 | a token comes only from a successful status; a failing status whose body carries a non-zero XErr is reported as "got error <XErr>" |
| PkgAuth.FetchProfile | pkg/auth/auth.go:240-257 | a profile comes only from a successful status; a failing status whose body names both an error and a message is reported by the error's name |
| PkgAuth.AuthenticateMinecraft | pkg/auth/auth.go:219-258 | success means the login with the "XBL3.0 x=<userhash>;<token>" identity succeeded and the profile was then fetched with the returned access token |
| PkgAuth.Authenticated | pkg/auth/auth.go:263-295 | without a refresh token the result is "no account found" and the store is untouched; a session is always the Minecraft stage of the store left behind |
| PkgAuth.Authenticate | pkg/auth/auth.go:263-295 | the session and store are those of the specification; the store is written to the cache only on success, and a failure leaves the disk unchanged |
| PkgAuth.ChainStopsAtFailure | pkg/auth/auth.go:267-286 | the first failing stage ends the chain: that stage was not valid, and it and every later stage are left as they were |
| PkgAuth.ValidStoreNeedsNoRequest | pkg/auth/auth.go:263-295 | a store whose four stages are all valid gives its cached session, whatever the endpoints would answer |
| PkgAuth.FailureNamesStage | pkg/auth/auth.go:267-286 | a failure of an account with a refresh token comes from one stage, and the error text is that stage's label, ": " and the cause |
| PkgAuth.RedirectAuthenticated | pkg/auth/auth.go:303-341 | a redirect URI without port and a callback with an error fail without touching the store; success means the code was exchanged and the chain ran on the store with the new Microsoft stage |
| PkgAuth.AuthenticateWithRedirect | pkg/auth/auth.go:303-341 | the method returns the session and store of the specification, answers the browser only when a port is set, and writes the cache only on success |
| PkgAuth.Answer | pkg/auth/auth.go:357-367 | an answer means wait exactly when it is authorization_pending, it is never itself pending, and an answer without error grants its tokens |
| PkgAuth.Polled | pkg/auth/auth.go:347-369 | polling is still pending exactly when every answer so far was authorization_pending |
| PkgAuth.PolledFirstDecisive | pkg/auth/auth.go:347-369 | when polling ends, it ends with some answer that decides it, and every earlier answer was pending |
| PkgAuth.UnexpectedCodeLost | pkg/auth/auth.go:366 | as written, the message for an unexpected error code quotes a nil error, so "expired_token" and "bad_verification_code" give the same text |
| PkgAuth.UnexpectedCodeKept | pkg/auth/auth.go:366 | with the code quoted as %q does, different codes give different messages (the quoted text reads back), and an "expired_token" answer fails with that code in the message |
| PkgAuth.CodeAuthenticated | pkg/auth/auth.go:346-371 | the outcome is open exactly while polling is pending; a failed poll is the error with the store untouched; an unexpected error code is quoted, as corrected |
| PkgAuth.AuthenticateWithCode | pkg/auth/auth.go:346-371 | the polling loop ends with the outcome and store of the specification; while still pending it has slept one interval per answer and has not touched the disk; an unexpected error code is quoted, as corrected |
| InternalAuth.MsaParams | internal/auth/microsoft.go:74-88 | the token request is the shared grant form with this generation's client, scope and redirect URL; the grant type and the credential's key follow the refresh flag |
| InternalAuth.AuthenticateMSA | internal/auth/microsoft.go:62-110 | a transport error is returned as it is; success happens exactly on a 2xx status and gives the tokens expiring expires_in seconds from now; a failing status whose body has both error fields gives its error_description |
| InternalAuth.AuthenticateXbox | internal/auth/microsoft.go:112-160 | a stage comes only from a 2xx status whose body has a claim, and holds the first claim's userhash, the token and its expiry |
| InternalAuth.AuthenticateXSTS | internal/auth/microsoft.go:162-207 | success happens exactly on a 2xx status and gives the token and its expiry; a failing status with a non-zero XErr gives "XSTS error <XErr>" |
| InternalAuth.AuthenticateMinecraft | internal/auth/microsoft.go:209-243 | success happens exactly on a 2xx status of the login with the identity token and gives the access token expiring expires_in seconds from now |
| InternalAuth.FetchMinecraftProfile | internal/auth/microsoft.go:245-262 | success happens exactly on a 2xx status and gives the decoded profile, or the zero profile for a body that does not decode |
| InternalAuth.InteractiveCode | internal/auth/microsoft.go:25-60 | a browser that does not open gives "open browser: " with the cause; a callback with an error fails; otherwise the code is the callback's code parameter |
| InternalAuth.MsaStep | internal/auth/microsoft.go:275-292 | a fresh Microsoft stage is kept with no request; redoing it changes no other stage |
| InternalAuth.LoggedIn | internal/auth/microsoft.go:270-327 | a session is returned only after the account reached the store and saving it succeeded |
| InternalAuth.RedoMsa | internal/auth/microsoft.go:275-292 | the Microsoft part of the login gives the account of the specification step |
| InternalAuth.RedoXbl | internal/auth/microsoft.go:294-299 | the Xbox Live part of the login gives the account of the specification step |
| InternalAuth.RedoXsts | internal/auth/microsoft.go:301-306 | the XSTS part of the login gives the account of the specification step |
| InternalAuth.RedoMinecraft | internal/auth/microsoft.go:308-313 | the Minecraft part of the login gives the account of the specification step |
| InternalAuth.LoginWithMicrosoft | internal/auth/microsoft.go:270-327 | the login returns the session and the saved account of the specification |
| InternalAuth.FreshAccountStillFetchesProfile | internal/auth/microsoft.go:314-326 | with every stage fresh the profile is still requested: its failure fails the login, and a session carries the cached token with the profile's name and id, the account saved unchanged |
| InternalAuth.InteractiveOnlyWithoutRefreshToken | internal/auth/microsoft.go:275-291 | the browser flow matters only when the Microsoft token is stale and there is no refresh token |
| InternalAuth.ExpiryBoundaryDiffers | internal/auth/microsoft.go:275 | a token expiring exactly now is reused by this generation, while the newer one refreshes it |
| InternalAuth.RefreshTokenIn | internal/auth/store.go:16-27 | a missing file or one that does not decode gives the empty token |
| InternalAuth.GetRefreshToken | internal/auth/store.go:16-27 | the token read is that of the specification |
| InternalAuth.SetRefreshToken | internal/auth/store.go:28-31 | the account file holds the encoded token, mode 0644 when created |
| InternalAuth.SetThenGet | internal/auth/store.go:16-31 | after setting a token, reading returns it whenever the decoder reads back what the encoder wrote |
| InternalAuth.LoggedOut | internal/auth/store.go:33-40 | an existing file, or a directory with nothing under it, is removed without error, as `os.Remove` does; with nothing there the result is "already logged out"; a directory holding anything is "remove account store: remove <path>: directory not empty"; any error leaves the disk unchanged, and success leaves nothing at the path |
| InternalAuth.Logout | internal/auth/store.go:33-40 | logging out returns the error and leaves the disk of the specification, so an empty directory at the account path is removed without error, as a file is |
| InternalAuth.LogoutLogsOut | internal/auth/store.go:33-44 | after a successful logout the user is no longer logged in, and a second logout says "already logged out" |
| PkgApiAuth.MsaAuthToken | pkg/api/auth.go:101-127 | the call fails exactly when the response check fails, with the check's error; otherwise it gives the decoded access and refresh tokens |
| PkgApiAuth.XboxAuthData | pkg/api/auth.go:128-148 | a failed response check is returned as the error; success gives the token and the first claim's userhash of a body that has a claim |
| PkgApiAuth.XSTSToken | pkg/api/auth.go:149-168 | the call fails exactly when the response check fails; otherwise it gives the decoded XSTS token |
| PkgApiAuth.MinecraftAuthToken | pkg/api/auth.go:170-184 | the error is the response check's, the token is empty on failure and the decoded access token otherwise |
| PkgApiAuth.MinecraftProfileOf | pkg/api/auth.go:185-198 | the error is the response check's, name and id are empty on failure and the decoded profile's otherwise |
| PkgApiAuth.GetAuthData | pkg/api/auth.go:200-237 | the account data and error are those of the specification, with the fields filled in as the hops succeed |
| PkgApiAuth.RefreshKeptPastMsa | pkg/api/auth.go:207-216 | a failed Microsoft hop returns empty data and "failed to retrieve Microsoft authentication token (…)"; after it succeeds the new refresh token is returned even if a later hop fails |
| PkgApiAuth.SuccessFillsEveryField | pkg/api/auth.go:225-236 | on success the profile was fetched with the returned token and gave the returned name and id |
| PkgApiAuth.CodeUsedOnlyWithoutRefreshToken | pkg/api/auth.go:207-212 | with a refresh token the browser code has no effect on the outcome |
| PkgApiAuth.XboxFailuresShareMessage | pkg/api/auth.go:217-224 | Xbox Live and XSTS failures give the same "failed to authenticate with Xbox (…)" message |
| DenoAuth.Json | api/auth.ts:48-57 | a failed request rejects with its error; otherwise the result is the decoded body, whatever the status |
| DenoAuth.MsaAuthToken | api/auth.ts:37-59 | the call fails exactly when the token request or its JSON fails; otherwise it gives the response's access and refresh tokens |
| DenoAuth.XboxAuthData | api/auth.ts:61-81 | the call succeeds exactly when the JSON has a claim, giving the token and the first claim's userhash; a response without claims fails with the TypeError |
| DenoAuth.XstsToken | api/auth.ts:83-98 | the call fails exactly when the request or its JSON fails; otherwise it gives the XSTS token |
| DenoAuth.MinecraftAuthToken | api/auth.ts:100-117 | the call fails exactly when the login or its JSON fails; otherwise it gives the access token |
| DenoAuth.ProfileData | api/auth.ts:119-136 | a failed entitlements request fails the call with its error; success gives the name and id of the profile fetched with the same token |
| DenoAuth.SessionFromResponses | api/auth.ts:139-159 | a session carries the refresh token of the token response rather than the one passed in, and the name and id of the profile fetched with its own token |
| DenoAuth.StatusNeverChecked | api/auth.ts:37-136 | two transports that answer with the same bodies give the same outcome whatever their statuses, so an error page in JSON is read as data |
| DenoAuth.CodeOnlyWithoutRefreshToken | api/auth.ts:142-146 | with a non-empty refresh token the browser code has no effect on the outcome |
| DenoAuth.Handle | api/auth.ts:24-32 | a request to /signin is answered 200 and records the `code` query value (the text "null" when absent); every other path is answered 404 and records nothing |
| DenoAuth.FirstSignin | api/auth.ts:24-33 | the index it returns is that of a /signin request with no /signin request before it, and None means no request reached /signin |
| DenoAuth.ServeAuthCode | api/auth.ts:22-34 | the captured auth code is the one carried by the first /signin request; every request up to and including it is answered by the handler, and none after it, because the server shuts down |
| DenoAuth.FirstSigninAt | api/auth.ts:26-28 | a /signin request preceded only by other paths is the one the server stops at |
| DenoAuth.MissingCodeSentAsNull | api/auth.ts:27 | a redirect to /signin without a code yields the text "null" as the auth code rather than an error |
| CliLaunch.Target | cli/launch.ts:14 | the version and loader are the first two ':'-separated fields of the argument, neither containing ':' |
| CliLaunch.TargetRoundTrip | cli/launch.ts:14 | "<version>:<loader>" splits back into its two halves, and an argument without ':' has an empty loader |
| CliLaunch.BaseOptions | cli/launch.ts:25-34 | before sign-in the options have the cache on, the given directories and loader, the given Java or "java", and no account or offline name |
| CliLaunch.SignedIn | cli/launch.ts:36-55 | any failure leaves no session and the disk as it was; a session is the chain's answer for the stored refresh token, and the account file then holds only the new refresh token |
| CliLaunch.SignIn | cli/launch.ts:36-55 | the sign-in returns the session and leaves the disk of the specification |
| CliLaunch.WithAccount | cli/launch.ts:36-58 | a wanted sign-in that succeeded sets the account; an offline name is used only when sign-in is not wanted; Java, loader and cache are unchanged |
| CliLaunch.Configured | cli/launch.ts:14-58 | a loader outside the supported ones fails with "Invalid mod loader." and changes nothing; success carries the requested version and loader, the given Java or "java", and the instance directory of the requested version |
| CliLaunch.Configure | cli/launch.ts:14-58 | the method checks the target, ensures the root directory, builds the options and signs in, leaving the result and disk of the specification |
| CliLaunch.Launch | cli/launch.ts:9-63 | the command started and the disk are those of the launch specification |
| CliLaunch.OfflineNameSkipsSignIn | cli/launch.ts:36-58 | with an offline name neither the network, the browser code nor the account file matters, and the name reaches the options without an account |
| CliLaunch.SignInFailureFallsBackOffline | cli/launch.ts:52-55 | a failed sign-in does not fail the command: it goes on with no account and no offline name, and only the root directory may have been created |
| CliLaunch.OnlyRefreshTokenKept | cli/launch.ts:46-51 | after a successful sign-in only the account file changes, to the new refresh token |
| CliLaunch.AccountFileDecidesFlow | cli/launch.ts:38-45 | with an account file holding a non-empty refresh token the browser code has no effect |
| CliLaunch.LaunchRunsJava | cli/launch.ts:9-63 | a successful launch runs the chosen Java, "java" by default, in the instance directory of the requested version |
| CliStart.Line | internal/cli/cmd/start.go:27-47 | post-processing always prints its line, a download never prints one, and at verbosity 0 or below no launcher event prints one |
| CliStart.WatchedCounts | internal/cli/cmd/start.go:27-47 | the bar advances by one per download notice whatever its counts, and at verbosity 0 or below exactly one line is printed per post-processing notice |
| CliStart.Watcher.constructor | internal/cli/cmd/start.go:16-26 | a new watcher has a bar of maximum 0 at position 0, nothing printed, and the given verbosity |
| CliStart.Watcher.Handle | internal/cli/cmd/start.go:27-47 | handling a notice leaves the watcher in the state of the one-step specification |
| CliStart.Watcher.HandleAll | internal/cli/cmd/start.go:27-47 | handling notices in turn leaves the watcher in the state of the whole sequence's specification |
| CliStart.Overridden | internal/cli/cmd/start.go:79-105 | the window size is overridden only when both dimensions are given, the memory only when both bounds are, Java and its arguments whenever given; the custom jar is kept |
| CliStart.OverridesIdempotent | internal/cli/cmd/start.go:79-105 | no override flags leave the configuration as it is, and applying the same overrides twice equals applying them once |
| CliStart.MaskArgs | internal/cli/cmd/start.go:143-156 | the debug listing has one entry per game argument, "***" exactly after --accessToken or --uuid and the argument itself elsewhere |
| CliStart.Masked | internal/cli/cmd/start.go:143-156 | the masked listing has as many entries as there are arguments |
| CliStart.MaskedIdempotent | internal/cli/cmd/start.go:143-156 | masking twice shows the same as masking once; every argument that does not follow a secret flag shows as it is (so a secret flag shows unless it follows another secret flag), and the value after a secret flag is always hidden |
| CliStart.SessionOf | internal/cli/cmd/start.go:107-115 | an offline name gives a session with that name and no token; otherwise the stored account's session, or "authenticate session: " with the cause |
| CliStart.ApplyOverrides | internal/cli/cmd/start.go:93-105 | the overrides applied one field group at a time give the configuration of the specification |
| CliStart.Conclude | internal/cli/cmd/start.go:117-162 | the command's end after preparation is that of the specification |
| CliStart.Start | internal/cli/cmd/start.go:73-163 | the command's outcome is that of the specification, and the watcher has seen exactly the notices reported, the download progress among them |
| CliStart.WatchedAppend | internal/cli/cmd/start.go:27-47 | the watcher handling two runs of notices in turn ends as it does handling their concatenation |
| CliStart.WatchedDownloads | internal/cli/cmd/start.go:28-32 | a run of download notices against one total moves the bar once per notice and sets its maximum to that total |
| CliStart.BarOfEvents | internal/cli/cmd/start.go:27-47 | after the three resolution events and a run of progress events the bar stands at the number of progress events, its maximum the total when there was any |
| CliStart.PreparedBar | internal/cli/cmd/start.go:27-47 | after a successful preparation the bar has advanced once per download outcome, and its maximum is the length of the download list when anything was downloaded |
| CliStart.OfflineNameSkipsAuthentication | internal/cli/cmd/start.go:107-115 | with an offline name the stored account's outcome has no effect |
| CliStart.PrepareOnlyNeverLaunches | internal/cli/cmd/start.go:135-138 | with --prepare nothing is launched and no game arguments are listed |

## Left out

- Network, browser, HTTP server and operating system: every request, download, process start and file operation goes through a parameter or the `Disk` object. Failures of mkdir, create, write and remove, and read failures other than a missing file, are not modelled except where an operation's error path depends on them.
- LauncherInstance.RemoveInstance: never returns "remove instance directory: …" (pkg/launcher/instance.go:126-128), because removing a directory of the model's disk cannot fail.
- LauncherInstance.FetchInstance: never returns "read instance metadata: …" (pkg/launcher/instance.go:138-139), because a file of the model's disk is either present and readable or missing.
- JSON encoding and decoding, SHA-1, zip reading, URL and form escaping, semantic-version parsing and Maven metadata lookups are oracles. Their correctness is assumed, not modelled.
- MetaMinecraft.ReadThrough: decoding into a value that already holds data (Go's json.Unmarshal into the stale target, also in LauncherAssets.DownloadAssetIndex) is the `DecoderInto` oracle; its merge rules for maps and missing fields are not modelled. A failed decode is taken to leave the target as it was, while Go can leave some fields set after a type error. MetaMinecraft.FetchVersionManifest and MetaMinecraft.FetchJavaManifestList decode their second attempt into an empty value, which agrees with Go under that same assumption, since their first attempt failed.
- Strs.Quote: every character above U+00FF is taken as printable, while Go consults Unicode tables and writes the non-printable ones as \u or \U escapes; invalid UTF-8, which Go writes as \x escapes, cannot occur in a `string` of the model.
- Concurrency: the downloads that the source runs in parallel goroutines (bounded by its maximum number of concurrent downloads) are modelled as a sequential loop. The results are the same set of files. The order in which downloads complete, and so the order of errors and progress events, is a parameter (the `results` collaborator of `LauncherPrepare`); interleaving itself is not modelled.
- The local sign-in server of `api/auth.ts` is modelled as a sequential stream of requests. Two concurrent requests to /signin before the shutdown takes effect are not modelled.
- Go map iteration order (the asset index objects, the Forge data entries) is modelled as a sequence in an unspecified order, as the decoder gives it.
- Time is whole seconds from a clock parameter. Sleeping between device-code polls is a bounded sequence of poll answers.
- Randomness in the TypeScript `run()` (the offline UUID) is a parameter.
- Progress bars and terminal output are modelled by their counts and by translation keys, not by rendered text.
- Some calls in the source name functions or fields that no file of the repository defines (the generations drifted apart). In each case the nearest defined counterpart stands in, as a parameter or an oracle:
  - `MSA.authenticate` and its siblings in `pkg/auth/store.go`;
  - `GetStore` and `SetStore` in `internal/auth`;
  - `launcher.install`, `saveTextFile` and `options.username` in `cli/launch.ts`;
  - `config.JavaArgs`, `QuickPlayWorld` and `PostProcessingEvent` in `internal/cli/cmd/start.go`;
  - the helpers used by the `search.go` commands;
  - `getVersionMeta`, `readJSONIfExists` and the Fabric API module imported by `launcher.ts`;
  - `cache.UpdateAndRead`, `DownloadEntry.Filename` and `meta.GetMavenLibrary`;
  - the `MojangLibrary` and `BaseLibrary` types;
  - the two-argument `network.DownloadFile` used by the early launcher, where `GoUtil.Download` (from `internal/util.go`) stands in;
  - `api.GetLatestSnapshot`, `util.GetInstanceDir` and `api.GetLoaderMeta`;
  - `refresh()` called without a client id;
  - `meta.MINECRAFT_RESOURCES_URL` and `meta.AssetObject` in `pkg/launcher/assets.go`;
  - `env.JavaDir` in `internal/meta/minecraft.go` and `pkg/launcher/launcher.go`;
  - `options.CustomJar` and `options.JavaArgs` in `pkg/launcher/launcher.go`, which `LaunchOptions` and `InstanceConfig` do not declare;
  - `network.FetchJSONData` and `network.FetchJSON` in `internal/launcher`, `internal/network/api` and `internal/meta/modrinth.go`;
  - `network.Cache[T]` and its `Read` in `internal/network/network_test.go`, where `JSONCache[T]` stands in;
  - `fetchJSONData` imported by `api/modrinth.ts`;
  - `launcher.run(instance)` called in `cli/launch.ts` without the options that `run` takes, where the model passes the options the command built.
- The thin wrappers `pkg/api/fabric.go`, `internal/api/fabric.go`, `internal/network/api/fabric.go`, `api/fabric.ts`, `internal/meta/modrinth.go` and `auth.ts` only forward one request to a decoder, and are not modelled.
- The browser that `api/auth.ts` opens on the authorize URL is not modelled: its argument is the URL-escaped `Oauth.AuthorizeQuery` of the client id, redirect URI and scope, and escaping is an oracle.
- CliLaunch.Launch: the `server` flag of `cli/launch.ts` is accepted but never read, so it is not modelled. If saving the auth file fails, the auth stays set, and that OS failure is not modelled.
- FileSystem.PathJoin: paths are joined with one '/' and are not cleaned the way Go's `filepath.Join` cleans them. The model therefore differs from the source for an empty element (`Env.DefaultRoot("")` is "/.minecraft" where Go gives ".minecraft"), a trailing '/' (a `--dir foo/` root gives "foo//instances" where Go gives "foo/instances"), and "." or ".." elements.
- GoUtil.GetPathFromMaven: names with fewer than three ':'-separated fields make the source index out of range (a panic). They are excluded by a precondition rather than modelled as a panic.
- EarlyLibrary.InlinePath: the same precondition applies, and it carries over to the library functions that build paths this way.
- EarlyLibrary.LibraryArtifact and the EarlyLauncherLibraries and LauncherLibraries members that require `WellNamed` or `AllWellNamed`: the same precondition applies.
- MetaForgeProcessors.FetchPostProcessors: Go visits the profile's data entries in an unspecified map order, so the contract holds for some order that lists each key once. Opening or copying an embedded installer file ("open embedded installer file", "create directory for file", "create file", "copy embedded installer file") cannot fail in the model.
- MetaForge.FetchMeta: opening the version.json and install_profile.json entries of the installer ("open version metadata", "open install profile") cannot fail, because the entries come from the zip oracle already read.
- PkgLaunch.Installed: follows the corrected `PkgApi.GetVersionMeta` of "## Findings", in which a failed metadata request returns its wrapped error; as written, the source panics on that path (`PkgApi.GetVersionMetaAsWritten`).
- PkgLaunch.Install: follows the corrected `PkgApi.GetVersionMeta` of "## Findings", in which a failed metadata request returns its wrapped error; as written, the source panics on that path (`PkgApi.GetVersionMetaAsWritten`).
- PkgLaunch.Launch: follows the corrected `PkgApi.GetVersionMeta` of "## Findings", in which a failed metadata request returns its wrapped error; as written, the source panics on that path (`PkgApi.GetVersionMetaAsWritten`).
- PkgAuth.CodeAuthenticated: follows the corrected `PkgAuth.Unexpected` of "## Findings", which quotes the unexpected error code; as written, the source reports `got error %!q(<nil>)` (`PkgAuth.UnexpectedCodeLost`).
- PkgAuth.AuthenticateWithCode: follows the corrected `PkgAuth.Unexpected` of "## Findings", which quotes the unexpected error code; as written, the source reports `got error %!q(<nil>)` (`PkgAuth.UnexpectedCodeLost`).
- PkgAuth.AuthenticateWithRedirect: a redirect URI that has a port but an empty path makes `http.HandleFunc` panic on the empty pattern. The model registers the handler whatever the path, so that panic is not modelled.
- LauncherPrepare.Prepare: the asset download entries are the `assetEntries` collaborator. An asset hash shorter than two characters makes `pkg/launcher/assets.go` panic on `Hash[:2]`; that panic is stated on `MetaMinecraft.AssetList`, but not on this path.
- PkgApiAuth.XboxAuthData: the contract states the error case and what a success carries. It does not state which undecodable bodies lead to the claim-index panic, since decoding is an oracle.
- Lang.Output: the package-level `lang` variable of `internal/cli/output/lang.go` is an object whose two tables are given to its constructor; the program passes its `en` and `de` tables, whose contents the lemmas about `En` and `De` describe. Language tags other than German are one case, since the source treats them alike.

## Findings

| source | as written | input that shows it | evidently intended | confidence | as-written member | corrected member |
|---|---|---|---|---|---|---|
| pkg/api/minecraft.go:122-126 | `defer resp.Body.Close()` is placed before the error of the request is checked | the metadata request fails in transport, so the response is nil | check the error first, then defer the close, and return the wrapped error | not executed | PkgApi.GetVersionMetaAsWritten, PkgApi.TransportFailurePanics | PkgApi.GetVersionMeta |
| pkg/auth/auth.go:366 | an unexpected device-code error is reported with `fmt.Errorf("got error %q", err)` while `err` is nil | the token endpoint answers with error "expired_token" | quote the error code, giving `got error "expired_token"` | not executed | PkgAuth.UnexpectedCodeLost | PkgAuth.UnexpectedCodeKept |
