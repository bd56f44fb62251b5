// The JSON cache files of internal/meta/caches.go: a value stored as JSON at
// a path relative to the caches directory.
module MetaCaches {
  import opened Wrappers
  import opened FileSystem

  type Decoder<T> = Bytes -> Result<T>
  type Encoder<!T> = T -> Result<Bytes>

  /** A cache file, its path relative to the caches directory. */
  datatype JSONCache = JSONCache(path: string)

  /** `GetAbsolutePath`: the cache file under the caches directory. */
  function GetAbsolutePath(cachesDir: string, cache: JSONCache): string
  {
    PathJoin(cachesDir, cache.path)
  }

  /** `Read`: the decoded cache file; a missing file or a decoding error is
      passed on. */
  function Read<T>(files: map<string, Bytes>, cachesDir: string, cache: JSONCache, json: Decoder<T>): (r: Result<T>)
    ensures GetAbsolutePath(cachesDir, cache) !in files ==> r.Err?
    ensures GetAbsolutePath(cachesDir, cache) in files ==> r == json(files[GetAbsolutePath(cachesDir, cache)])
  {
    var path := GetAbsolutePath(cachesDir, cache);
    if path in files then json(files[path]) else Err("open " + path + ": no such file or directory")
  }

  /** `Write`: the encoded value is stored in the cache file (mode 0644 when
      new), its directory created first; an encoding error is reported
      wrapped and nothing is written. */
  method Write<T>(disk: Disk, cachesDir: string, cache: JSONCache, v: T, marshal: Encoder<T>) returns (err: Option<string>)
    modifies disk
    ensures marshal(v).Err? ==>
      err == Some(Wrapped("failed to marshal data", marshal(v).error))
      && disk.files == old(disk.files) && disk.dirs == old(disk.dirs)
    ensures marshal(v).Ok? ==>
      && err.None?
      && disk.files == old(disk.files)[GetAbsolutePath(cachesDir, cache) := marshal(v).value]
      && disk.dirs == old(disk.dirs) + {Dir(GetAbsolutePath(cachesDir, cache))}
  {
    var data := marshal(v);
    if data.Err? {
      return Some(Wrapped("failed to marshal data", data.error));
    }
    var path := GetAbsolutePath(cachesDir, cache);
    disk.MkdirAll(Dir(path));
    disk.WriteFilePerm(path, data.value, 0x1a4);
    return None;
  }

  /** Reading back what `Write` stored gives the value, when the JSON encoding
      of the value decodes to it. */
  lemma WriteThenRead<T>(files: map<string, Bytes>, cachesDir: string, cache: JSONCache, v: T, marshal: Encoder<T>, json: Decoder<T>)
    requires marshal(v).Ok? && json(marshal(v).value) == Ok(v)
    ensures Read(files[GetAbsolutePath(cachesDir, cache) := marshal(v).value], cachesDir, cache, json) == Ok(v)
  {
  }

  /** `Sha1Sum`: the raw 20-byte digest of the cache file as a string (not
      hex); an unreadable file is reported wrapped. */
  function Sha1Sum(files: map<string, Bytes>, sha1: Sha1, cachesDir: string, cache: JSONCache): (r: Result<string>)
    ensures r.Ok? <==> GetAbsolutePath(cachesDir, cache) in files
    ensures r.Ok? ==> |r.value| == 20 && r.value == RawString(sha1(files[GetAbsolutePath(cachesDir, cache)]))
  {
    var path := GetAbsolutePath(cachesDir, cache);
    if path in files then Ok(RawString(sha1(files[path])))
    else Err(Wrapped("failed to read cache", "open " + path + ": no such file or directory"))
  }

  /** The raw digest never equals a hex checksum such as the ones version
      manifests carry. */
  lemma Sha1SumIsNotHex(files: map<string, Bytes>, sha1: Sha1, cachesDir: string, cache: JSONCache, data: Bytes)
    requires Sha1Sum(files, sha1, cachesDir, cache).Ok?
    ensures Sha1Sum(files, sha1, cachesDir, cache).value != HexSha1(sha1, data)
  {
  }
}
