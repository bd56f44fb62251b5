// Library metadata for an artifact of the Maven Central repository
// (`FetchMavenLibrary`, internal/meta/maven.go): the artifact's URL and its
// checksum, which is fetched once and then kept beside the library.
module MavenFetch {
  import opened Wrappers
  import opened FileSystem
  import opened Web
  import opened Maven
  import Network
  import opened MetaMinecraft

  /** The artifact's URL in the repository. */
  function MavenURL(spec: LibrarySpecifier): string
  {
    MavenRepoURL + "/" + Path(spec)
  }

  /** The checksum file: the artifact's path under the libraries directory
      with ".sha1" appended. */
  function SumPath(librariesDir: string, spec: LibrarySpecifier): string
  {
    PathJoin(PathJoin(librariesDir, Dir(Path(spec))), Base(Path(spec)) + ".sha1")
  }

  /** For a path that does not start at the root, the checksum file sits
      right beside the artifact. */
  lemma SumPathBesideArtifact(librariesDir: string, spec: LibrarySpecifier)
    requires '/' in Path(spec) && Path(spec)[0] != '/'
    ensures SumPath(librariesDir, spec) == PathJoin(librariesDir, Path(spec)) + ".sha1"
  {
    DirBase(Path(spec));
  }

  /** The library metadata with checksum text `sum`. */
  function MavenLibrary(spec: LibrarySpecifier, sum: Bytes): (l: Library)
    ensures l.specifier == spec && l.artifact.path == Path(spec) && l.artifact.url == MavenURL(spec)
    ensures l.artifact.sha1 == RawString(sum) && l.natives == [] && !l.shouldInstall
  {
    Library(Artifact(Path(spec), RawString(sum), 0, MavenURL(spec)), [], spec, false, false)
  }

  /** `FetchMavenLibrary`: a stored checksum file is used without any
      request; otherwise "<url>.sha1" is fetched (a failed request returned,
      a non-2xx status reported as "retrieve library checksum") and stored.
      The metadata points at the artifact's repository URL and path. */
  method FetchMavenLibrary(disk: Disk, web: Client, librariesDir: string, spec: LibrarySpecifier) returns (r: Result<Library>)
    modifies disk
    ensures var sumPath := SumPath(librariesDir, spec);
      sumPath in old(disk.files) ==> r == Ok(MavenLibrary(spec, old(disk.files)[sumPath])) && disk.files == old(disk.files)
    ensures var sumPath := SumPath(librariesDir, spec);
      var sumURL := MavenURL(spec) + ".sha1";
      sumPath !in old(disk.files) ==>
        && (web(sumURL).Err? ==> r == Err(web(sumURL).error) && disk.files == old(disk.files))
        && (web(sumURL).Ok? && !Success(web(sumURL).value.status) ==>
              r == Err(Wrapped("retrieve library checksum",
                               Network.ErrorText(Network.HTTPStatusError(sumURL, "GET", web(sumURL).value.status))))
              && disk.files == old(disk.files))
        && (web(sumURL).Ok? && Success(web(sumURL).value.status) ==>
              r == Ok(MavenLibrary(spec, web(sumURL).value.body))
              && disk.files == old(disk.files)[sumPath := web(sumURL).value.body])
    ensures r.Ok? ==> var sumPath := SumPath(librariesDir, spec);
      sumPath in disk.files && r.value == MavenLibrary(spec, disk.files[sumPath])
  {
    var url := MavenURL(spec);
    var path := Path(spec);
    var sumPath := SumPath(librariesDir, spec);
    var sum := disk.Read(sumPath);
    if sum.Err? {
      var resp := web(url + ".sha1");
      if resp.Err? {
        return Err(resp.error);
      }
      var check := Network.CheckResponse("GET", url + ".sha1", resp.value.status);
      if check.Some? {
        return Err(Wrapped("retrieve library checksum", Network.ErrorText(check.value)));
      }
      disk.MkdirAll(Dir(sumPath));
      disk.WriteFilePerm(sumPath, resp.value.body, 0x1a4);
      return Ok(MavenLibrary(spec, resp.value.body));
    }
    return Ok(MavenLibrary(spec, sum.value));
  }
}
