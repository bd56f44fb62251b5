// The Deno generation's file helpers (util.ts): fetch a URL and write
// whatever body arrives, or write a string, creating the parent directory
// first.
module DenoFs {
  import opened Wrappers
  import opened FileSystem
  import opened Web

  /** `exists(p)` from the Deno standard library. */
  predicate Exists(disk: Disk, p: string)
    reads disk
  {
    disk.Exists(p)
  }

  /** `ensureDir`/`mkdir -p` of the parent of `dest`, skipped when it is
      already there. */
  function WithParent(fs: Fs, dest: string): (r: Fs)
    ensures r.files == fs.files && r.modes == fs.modes
    ensures r.dirs == fs.dirs + (if Dir(dest) in fs.files || Dir(dest) in fs.dirs then {} else {Dir(dest)})
  {
    if Dir(dest) in fs.files || Dir(dest) in fs.dirs then fs else fs.Mkdir(Dir(dest))
  }

  /** The outcome of `download(url, dest)`: the error of a failed request
      (nothing changes), otherwise the parent directory and the body at
      `dest`, whatever the response status. */
  function Downloaded(fs: Fs, web: Client, url: string, dest: string): (r: (Option<string>, Fs))
    ensures r.0.None? <==> web(url).Ok?
    ensures web(url).Err? ==> r == (Some(web(url).error), fs)
    ensures web(url).Ok? ==> r.1.files == fs.files[dest := web(url).value.body]
    ensures web(url).Ok? ==> (Dir(dest) in fs.files || Dir(dest) in r.1.dirs) && fs.dirs <= r.1.dirs
  {
    match web(url)
    case Err(e) => (Some(e), fs)
    case Ok(resp) => (None, WithParent(fs, dest).Write(dest, resp.body))
  }

  /** `download(url, dest)`: only a failed request throws; the response
      status is never checked, so an error page is written like any other
      body. */
  method Download(disk: Disk, web: Client, url: string, dest: string) returns (err: Option<string>)
    modifies disk
    ensures (err, disk.State()) == Downloaded(old(disk.State()), web, url, dest)
  {
    var resp := web(url);
    if resp.Err? {
      return Some(resp.error);
    }
    var dir := Dir(dest);
    if !Exists(disk, dir) {
      disk.MkdirAll(dir);
    }
    disk.WriteFile(dest, resp.value.body);
    return None;
  }

  /** The state after `saveFile(data, path)`, given the encoded text. */
  function Saved(fs: Fs, path: string, data: Bytes): (r: Fs)
    ensures r.files == fs.files[path := data]
    ensures (Dir(path) in fs.files || Dir(path) in r.dirs) && fs.dirs <= r.dirs
  {
    WithParent(fs, path).Write(path, data)
  }

  /** `saveFile(data, path)`: the parent directory is created when missing
      and the file replaced by the text's bytes. */
  method SaveFile(disk: Disk, data: Bytes, path: string)
    modifies disk
    ensures disk.State() == Saved(old(disk.State()), path, data)
  {
    var dir := Dir(path);
    if !Exists(disk, dir) {
      disk.MkdirAll(dir);
    }
    disk.WriteFile(path, data);
  }
}
