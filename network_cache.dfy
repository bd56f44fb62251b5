// The read-through cache of the current Go launcher
// (internal/network/cache.go): a file on disk that is reused while its
// checksum matches the remote one, and refetched otherwise or on every call
// when AlwaysFetch is set.
module NetworkCache {
  import opened Wrappers
  import opened FileSystem
  import opened Web
  import Network

  /** Decoding of file contents into a value (JSON or a custom unmarshaler). */
  type Decoder<T> = Bytes -> Result<T>

  datatype Cache<T> = Cache(path: string, url: string, remoteSha1: string, alwaysFetch: bool,
                            unmarshaler: Option<Decoder<T>>)

  const ErrNotCached := "data not cached and request failed"

  /** `Cache.Sha1`: the hex SHA-1 of the cache file, 40 characters; opening
      a missing path or reading a directory fails. */
  function Sha1Of(disk: Disk, sha1: Sha1, path: string): (r: Result<string>)
    reads disk
    ensures r.Ok? <==> path in disk.files
    ensures r.Ok? ==> |r.value| == 40 && r.value == HexSha1(sha1, disk.files[path])
  {
    if path in disk.files then Ok(HexSha1(sha1, disk.files[path]))
    else if path in disk.dirs then Err("read " + path + ": is a directory")
    else Err("open " + path + ": no such file or directory")
  }

  /** The cache file exists and its checksum is the non-empty remote one:
      the only case in which `Get` does not need to download. */
  predicate Valid<T>(disk: Disk, sha1: Sha1, cache: Cache<T>)
    reads disk
  {
    cache.path in disk.files && cache.remoteSha1 != ""
    && HexSha1(sha1, disk.files[cache.path]) == cache.remoteSha1
  }

  function Decode<T>(cache: Cache<T>, json: Decoder<T>, data: Bytes): Result<T>
  {
    if cache.unmarshaler.Some? then cache.unmarshaler.value(data) else json(data)
  }

  /** `Cache.Get`. Only a valid cache is served without a download; with
      AlwaysFetch a download is attempted anyway, and its failure is then
      ignored. A needed download that fails is reported as not cached. The
      value is always decoded from the file on disk. */
  method Get<T>(disk: Disk, web: Client, sha1: Sha1, cache: Cache<T>, json: Decoder<T>) returns (r: Result<T>)
    modifies disk
    // a directory at the path with a remote checksum: the hashing error
    ensures cache.path in old(disk.dirs) && cache.path !in old(disk.files) && cache.remoteSha1 != "" ==>
      r == Err("read " + cache.path + ": is a directory") && disk.files == old(disk.files)
    // a valid cache without AlwaysFetch: nothing is fetched or written
    ensures old(Valid(disk, sha1, cache)) && !cache.alwaysFetch ==>
      disk.files == old(disk.files) && r == Decode(cache, json, old(disk.files)[cache.path])
    // a fetch is needed but there is nowhere to fetch from
    ensures (!old(Valid(disk, sha1, cache)) || cache.alwaysFetch) && cache.url == ""
            && !(cache.path in old(disk.dirs) && cache.path !in old(disk.files) && cache.remoteSha1 != "") ==>
      r == Err("no URL to fetch from") && disk.files == old(disk.files)
    // a needed download that fails is reported, wrapped in ErrNotCached
    ensures !old(Valid(disk, sha1, cache)) && cache.url != "" && web(cache.url).Err?
            && !(cache.path in old(disk.dirs) && cache.path !in old(disk.files) && cache.remoteSha1 != "") ==>
      r == Err(ErrNotCached + ": " + web(cache.url).error)
    // AlwaysFetch over a valid cache: a failed fetch is ignored and the cached file served
    ensures old(Valid(disk, sha1, cache)) && cache.alwaysFetch && cache.url != ""
            && (web(cache.url).Err? || !Success(web(cache.url).value.status)) ==>
      disk.files == old(disk.files) && r == Decode(cache, json, old(disk.files)[cache.path])
    // whatever happened, a success is the decoding of the file now on disk
    ensures r.Ok? ==> cache.path in disk.files && r == Decode(cache, json, disk.files[cache.path])
  {
    var download := true;
    if disk.Exists(cache.path) {
      if cache.remoteSha1 != "" {
        var sum := Sha1Of(disk, sha1, cache.path);
        if sum.Err? {
          return Err(sum.error);
        }
        if cache.remoteSha1 == "" || cache.remoteSha1 == sum.value {
          download := false;
        }
      }
    }
    assert download == !old(Valid(disk, sha1, cache));

    if download || cache.alwaysFetch {
      if cache.url == "" {
        return Err("no URL to fetch from");
      }
      var err := Network.DownloadFile(disk, web, sha1, Network.DownloadEntry(cache.url, cache.path, cache.remoteSha1, 0));
      if err.Some? && download {
        return Err(ErrNotCached + ": " + err.value);
      }
    }

    var data := disk.Read(cache.path);
    if data.Err? {
      return Err(data.error);
    }
    return Decode(cache, json, data.value);
  }
}
