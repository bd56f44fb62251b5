// Downloads of the current Go launcher (internal/network/network.go): the
// status check, its error text and the download of one entry into a file
// with optional permission bits and checksum verification. Running several
// downloads concurrently is not modelled.
module Network {
  import opened Wrappers
  import opened Strs
  import opened FileSystem
  import opened Web

  /** A file to fetch: where from, where to, its expected hex SHA-1 ("" for
      none) and its permission bits (0 for the default). */
  datatype DownloadEntry = DownloadEntry(url: string, path: string, sha1: string, fileMode: nat)

  datatype HTTPStatusError = HTTPStatusError(url: string, requestMethod: string, statusCode: int)

  /** `HTTPStatusError.Error`: "METHOD URL (code)". */
  function ErrorText(e: HTTPStatusError): (s: string)
    ensures HasPrefix(s, e.requestMethod + " " + e.url + " (")
    ensures HasSuffix(s, IntToString(e.statusCode) + ")")
  {
    var s := e.requestMethod + " " + e.url + " (" + IntToString(e.statusCode) + ")";
    assert s[..|e.requestMethod + " " + e.url + " ("|] == e.requestMethod + " " + e.url + " (";
    assert s[|s| - |IntToString(e.statusCode) + ")"|..] == IntToString(e.statusCode) + ")";
    s
  }

  /** `CheckResponse`: an error exactly when the status lies outside
      200..299, carrying the request's method, URL and status code. */
  function CheckResponse(requestMethod: string, url: string, status: int): (r: Option<HTTPStatusError>)
    ensures r.None? <==> Success(status)
    ensures r.Some? ==> r.value.statusCode == status && r.value.url == url && r.value.requestMethod == requestMethod
  {
    if status > 299 || status < 200 then Some(HTTPStatusError(url, requestMethod, status)) else None
  }

  /** The error text of a checksum mismatch. */
  function InvalidChecksum(url: string): string
  {
    "invalid checksum from " + Quote(url)
  }

  /** The file part of `DownloadFile`: the parent directories made, the
      file created, its permission bits set when non-zero, and the body
      written. */
  method WriteBody(disk: Disk, path: string, fileMode: nat, body: Bytes)
    modifies disk
    ensures disk.files == old(disk.files)[path := body]
    ensures disk.dirs == old(disk.dirs) + {Dir(path)}
    ensures disk.modes == old(disk.modes)[path :=
      if fileMode != 0 then fileMode
      else if path in old(disk.modes) then old(disk.modes)[path] else CreateMode]
  {
    ghost var files0, modes0 := disk.files, disk.modes;
    ghost var mode := if fileMode != 0 then fileMode
      else if path in modes0 then modes0[path] else CreateMode;
    disk.MkdirAll(Dir(path));
    disk.WriteFile(path, []);
    if fileMode != 0 {
      disk.Chmod(path, fileMode);
    }
    assert disk.modes == modes0[path := mode];
    disk.WriteFile(path, body);
    assert disk.files == files0[path := body];
  }

  /** `DownloadFile`: nothing on disk changes unless the GET succeeds with a
      2xx status; then the file holds the body (with the entry's permission
      bits when they are non-zero) and a non-empty expected SHA-1 that the
      body does not have is reported after the file was written. */
  method DownloadFile(disk: Disk, web: Client, sha1: Sha1, entry: DownloadEntry) returns (err: Option<string>)
    modifies disk
    ensures web(entry.url).Err? ==> err == Some(web(entry.url).error)
    ensures web(entry.url).Ok? && !Success(web(entry.url).value.status) ==>
      err == Some(ErrorText(HTTPStatusError(entry.url, "GET", web(entry.url).value.status)))
    ensures (web(entry.url).Err? || !Success(web(entry.url).value.status)) ==>
      disk.files == old(disk.files) && disk.modes == old(disk.modes) && disk.dirs == old(disk.dirs)
    ensures web(entry.url).Ok? && Success(web(entry.url).value.status) ==>
      && disk.files == old(disk.files)[entry.path := web(entry.url).value.body]
      && disk.dirs == old(disk.dirs) + {Dir(entry.path)}
      && disk.modes == old(disk.modes)[entry.path :=
           if entry.fileMode != 0 then entry.fileMode
           else if entry.path in old(disk.modes) then old(disk.modes)[entry.path] else CreateMode]
      && err == (if entry.sha1 != "" && HexSha1(sha1, web(entry.url).value.body) != entry.sha1
                 then Some(InvalidChecksum(entry.url)) else None)
  {
    var resp := web(entry.url);
    if resp.Err? {
      return Some(resp.error);
    }
    var check := CheckResponse("GET", entry.url, resp.value.status);
    if check.Some? {
      return Some(ErrorText(check.value));
    }
    WriteBody(disk, entry.path, entry.fileMode, resp.value.body);
    if entry.sha1 != "" && HexSha1(sha1, resp.value.body) != entry.sha1 {
      return Some(InvalidChecksum(entry.url));
    }
    return None;
  }
}
