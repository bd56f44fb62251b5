// Helpers of the early Go generation (internal/util.go): response checking,
// JSON fetching, an existence-gated download and the Maven path of a
// library name.
module GoUtil {
  import opened Wrappers
  import opened Strs
  import opened FileSystem
  import opened Web
  import opened Maven

  /** `CheckResponse`: a transport error is returned unchanged; a response
      outside 200..299 is an error naming the method, URL and status line. */
  function CheckResponse(resp: Result<Response>, requestMethod: string, url: string): (err: Option<string>)
    ensures resp.Err? ==> err == Some(resp.error)
    ensures resp.Ok? ==> (err.None? <==> Success(resp.value.status))
    ensures resp.Ok? && err.Some? ==> HasPrefix(err.value, requestMethod + " " + url + " (")
  {
    if resp.Err? then Some(resp.error)
    else if resp.value.status > 299 || resp.value.status < 200 then
      Some(requestMethod + " " + url + " (" + resp.value.statusText + ")")
    else None
  }

  /** `GetJSON`: only the request can fail; a body that does not decode is
      ignored and leaves the target value `v` as it was. */
  function GetJSON<T>(web: Client, url: string, json: Bytes -> Result<T>, v: T): (r: (Option<string>, T))
    ensures r.0 == CheckResponse(web(url), "GET", url)
    ensures r.0.None? ==> r.1 == (if json(web(url).value.body).Ok? then json(web(url).value.body).value else v)
    ensures r.0.Some? ==> r.1 == v
  {
    var err := CheckResponse(web(url), "GET", url);
    if err.Some? then (err, v)
    else
      var decoded := json(web(url).value.body);
      (None, if decoded.Ok? then decoded.value else v)
  }

  /** `DownloadFile`: nothing happens when anything exists at `dest`.
      Otherwise the directory and an empty file are created before the
      request, so a failed request leaves the empty file behind; a successful
      one fills it with the body. */
  function Download(fs: Fs, web: Client, url: string, dest: string): (Option<string>, Fs)
  {
    if dest in fs.files || dest in fs.dirs then (None, fs)
    else
      var created := fs.Mkdir(Dir(dest)).Write(dest, []);
      var err := CheckResponse(web(url), "GET", url);
      if err.Some? then (err, created) else (None, created.Write(dest, web(url).value.body))
  }

  method DownloadFile(disk: Disk, web: Client, url: string, dest: string) returns (err: Option<string>)
    modifies disk
    ensures (err, disk.State()) == Download(old(disk.State()), web, url, dest)
    ensures old(disk.Exists(dest)) ==> err.None? && disk.files == old(disk.files) && disk.dirs == old(disk.dirs)
    ensures !old(disk.Exists(dest)) ==>
      && err == CheckResponse(web(url), "GET", url)
      && disk.files == old(disk.files)[dest := if err.None? then web(url).value.body else []]
      && disk.dirs == old(disk.dirs) + {Dir(dest)}
  {
    if disk.Exists(dest) {
      return None;
    }
    disk.MkdirAll(Dir(dest));
    disk.WriteFile(dest, []);
    var resp := web(url);
    err := CheckResponse(resp, "GET", url);
    if err.Some? {
      return err;
    }
    disk.WriteFile(dest, resp.value.body);
    return None;
  }

  /** A download never changes a file that was already there. */
  lemma DownloadKeepsFiles(fs: Fs, web: Client, url: string, dest: string)
    ensures var fs1 := Download(fs, web, url, dest).1;
      forall p :: p in fs.files ==> p in fs1.files && fs1.files[p] == fs.files[p]
  {
  }

  /** A download that fails is never retried: the second call finds the empty
      file left by the first and reports success. */
  method DownloadFileTwice(disk: Disk, web: Client, url: string, dest: string) returns (first: Option<string>, second: Option<string>)
    requires !disk.Exists(dest) && !Fetched(web, url)
    modifies disk
    ensures first.Some? && second.None?
    ensures dest in disk.files && disk.files[dest] == []
  {
    first := DownloadFile(disk, web, url, dest);
    second := DownloadFile(disk, web, url, dest);
  }

  /** `GetPathFromMaven`: group (every '.' turned into '/'), artifact,
      version and artifact-version.jar, joined with '/'. A name with fewer
      than three ':'-separated fields makes the source index out of range. */
  function GetPathFromMaven(mavenPath: string): string
    requires |Split(mavenPath, ':')| >= 3
  {
    var identifier := Split(mavenPath, ':');
    var groupID := ReplaceChar(identifier[0], '.', '/');
    var basename := identifier[1] + "-" + identifier[2] + ".jar";
    groupID + "/" + identifier[1] + "/" + identifier[2] + "/" + basename
  }

  /** The path agrees with the coordinates' repository path with the
      classifier dropped, for any version not ending in "@zip"; so a fourth
      field never shows in the path. */
  lemma GetPathFromMavenIsMavenPath(s: string)
    requires |Split(s, ':')| >= 3
    requires !HasSuffix(Split(s, ':')[2], "@zip")
    ensures NewLibrarySpecifier(s).Ok?
    ensures GetPathFromMaven(s) == Path(NewLibrarySpecifier(s).value.(classifier := ""))
  {
  }

  /** A library with a classifier is mapped to the path of its plain jar, not
      to its classified artifact. */
  lemma GetPathFromMavenDropsClassifier(s: string)
    requires |Split(s, ':')| >= 4 && Split(s, ':')[3] != ""
    requires !HasSuffix(Split(s, ':')[2], "@zip")
    ensures GetPathFromMaven(s) != Path(NewLibrarySpecifier(s).value)
  {
    var spec := NewLibrarySpecifier(s).value;
    GetPathFromMavenIsMavenPath(s);
    assert |Path(spec)| > |Path(spec.(classifier := ""))|;
  }

  /** `GetPathFromMaven` where the source indexes past the end of a name
      with fewer than three fields: the Go runtime's panic message. */
  function MavenPath(mavenPath: string): (r: Result<string>)
    ensures r.Ok? <==> |Split(mavenPath, ':')| >= 3
    ensures r.Ok? ==> r.value == GetPathFromMaven(mavenPath)
  {
    var n := |Split(mavenPath, ':')|;
    if n >= 3 then Ok(GetPathFromMaven(mavenPath))
    else Err("runtime error: index out of range [" + NatToString(n) + "] with length " + NatToString(n))
  }
}
