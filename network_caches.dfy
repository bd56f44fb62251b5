// The JSON and byte caches of internal/network/caches.go: a file at a path
// that is read, or refreshed from a URL and then read.
module NetworkCaches {
  import opened Wrappers
  import opened FileSystem
  import opened Web
  import Network

  type Decoder<T> = Bytes -> Result<T>

  datatype JSONCache = JSONCache(path: string, url: string, remoteSha1: string)

  datatype ByteCache = ByteCache(path: string, url: string)

  /** The error `os.ReadFile` reports for a missing file. */
  function NotFound(path: string): string
  {
    "open " + path + ": no such file or directory"
  }

  /** `JSONCache.Read`: the decoded cache file; a read or decode error is
      passed on. */
  function Read<T>(files: map<string, Bytes>, cache: JSONCache, json: Decoder<T>): (r: Result<T>)
    ensures cache.path !in files ==> r == Err(NotFound(cache.path))
    ensures cache.path in files ==> r == json(files[cache.path])
  {
    if cache.path in files then json(files[cache.path]) else Err(NotFound(cache.path))
  }

  /** Decoding into a target that already holds a value, as `json.Unmarshal`
      does through a pointer: `into(v, b)` is the target after decoding `b`
      over `v` (a map keeps its entries and a field the document does not
      mention keeps its value), or the decode error. */
  type DecoderInto<!T> = (T, Bytes) -> Result<T>

  /** Decoding over the fixed target `v`. */
  function Over<T>(into: DecoderInto<T>, v: T): Decoder<T>
  {
    b => into(v, b)
  }

  /** The value a target that starts as `zero` holds after `JSONCache.Read`:
      the decoded file, or `zero` when the read or the decode fails. */
  function ReadTarget<T>(files: map<string, Bytes>, cache: JSONCache, into: DecoderInto<T>, zero: T): (v: T)
    ensures cache.path !in files ==> v == zero
    ensures cache.path in files && into(zero, files[cache.path]).Ok? ==> v == into(zero, files[cache.path]).value
  {
    var r := Read(files, cache, Over(into, zero));
    if r.Ok? then r.value else zero
  }

  /** The files after a fetch of the cache: the body replaces the file when
      the GET succeeds, and nothing changes otherwise. */
  function FilesAfterFetch(files: map<string, Bytes>, web: Client, path: string, url: string): map<string, Bytes>
  {
    if url != "" && Fetched(web, url) then files[path := web(url).value.body] else files
  }

  /** The result of `JSONCache.FetchAndRead`. */
  function FetchOutcome<T>(web: Client, sha1: Sha1, cache: JSONCache, json: Decoder<T>): Result<T>
  {
    if cache.url == "" then Err("no URL to fetch from")
    else if web(cache.url).Err? then Err(web(cache.url).error)
    else if !Success(web(cache.url).value.status) then
      Err(Network.ErrorText(Network.HTTPStatusError(cache.url, "GET", web(cache.url).value.status)))
    else if cache.remoteSha1 != "" && HexSha1(sha1, web(cache.url).value.body) != cache.remoteSha1 then
      Err(Network.InvalidChecksum(cache.url))
    else json(web(cache.url).value.body)
  }

  /** `JSONCache.FetchAndRead`: without a URL nothing is fetched and the call
      fails; otherwise the file is downloaded (verifying the remote SHA-1) and
      then read back from disk, a download error being returned as is. */
  method FetchAndRead<T>(disk: Disk, web: Client, sha1: Sha1, cache: JSONCache, json: Decoder<T>) returns (r: Result<T>)
    modifies disk
    ensures r == FetchOutcome(web, sha1, cache, json)
    ensures disk.files == FilesAfterFetch(old(disk.files), web, cache.path, cache.url)
    ensures r.Ok? ==> r == Read(disk.files, cache, json)
  {
    if cache.url == "" {
      return Err("no URL to fetch from");
    }
    var err := Network.DownloadFile(disk, web, sha1, Network.DownloadEntry(cache.url, cache.path, cache.remoteSha1, 0));
    if err.Some? {
      return Err(err.value);
    }
    r := Read(disk.files, cache, json);
  }

  /** A successful fetch leaves the fetched body in the cache file and
      returns its decoding; without a URL, or when the GET fails, the files
      are untouched and the call fails. */
  lemma FetchAndReadOutcomes<T>(files: map<string, Bytes>, web: Client, sha1: Sha1, cache: JSONCache, json: Decoder<T>)
    ensures cache.url != "" && Fetched(web, cache.url) ==>
      && FilesAfterFetch(files, web, cache.path, cache.url)[cache.path] == web(cache.url).value.body
      && (cache.remoteSha1 == "" ==> FetchOutcome(web, sha1, cache, json) == json(web(cache.url).value.body))
    ensures !(cache.url != "" && Fetched(web, cache.url)) ==>
      FilesAfterFetch(files, web, cache.path, cache.url) == files && FetchOutcome(web, sha1, cache, json).Err?
  {
  }

  /** `JSONCache.Sha1`: the hex digest of the cache file. */
  function Sha1Of(files: map<string, Bytes>, sha1: Sha1, cache: JSONCache): (r: Result<string>)
    ensures r.Ok? <==> cache.path in files
    ensures r.Ok? ==> |r.value| == 40 && r.value == HexSha1(sha1, files[cache.path])
  {
    if cache.path in files then Ok(HexSha1(sha1, files[cache.path]))
    else Err(NotFound(cache.path))
  }

  /** `Cache.Read`: the raw contents of the cache file. */
  function ReadBytes(files: map<string, Bytes>, cache: ByteCache): (r: Result<Bytes>)
    ensures r.Ok? <==> cache.path in files
    ensures r.Ok? ==> r.value == files[cache.path]
  {
    if cache.path in files then Ok(files[cache.path]) else Err(NotFound(cache.path))
  }

  /** `Cache.FetchAndRead`: the same URL guard, a download without checksum,
      then the raw contents. */
  method FetchAndReadBytes(disk: Disk, web: Client, sha1: Sha1, cache: ByteCache) returns (r: Result<Bytes>)
    modifies disk
    ensures cache.url == "" ==> r == Err("no URL to fetch from")
    ensures cache.url != "" && web(cache.url).Err? ==> r == Err(web(cache.url).error)
    ensures cache.url != "" && Fetched(web, cache.url) ==> r == Ok(web(cache.url).value.body)
    ensures r.Ok? <==> cache.url != "" && Fetched(web, cache.url)
    ensures disk.files == FilesAfterFetch(old(disk.files), web, cache.path, cache.url)
  {
    if cache.url == "" {
      return Err("no URL to fetch from");
    }
    var err := Network.DownloadFile(disk, web, sha1, Network.DownloadEntry(cache.url, cache.path, "", 0));
    if err.Some? {
      return Err(err.value);
    }
    r := ReadBytes(disk.files, cache);
  }
}
