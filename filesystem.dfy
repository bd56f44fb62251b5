// The host file system as the launcher sees it: a map from path to contents,
// a set of directories and the permission bits of each file, with SHA-1 as an
// uninterpreted function over bytes and the path helpers of Go's `path` and
// `path/filepath` packages.
module FileSystem {
  import opened Wrappers

  type Byte = x: int | 0 <= x < 256
  type Bytes = seq<Byte>

  /** A SHA-1 digest: 20 raw bytes. */
  type Digest = d: Bytes | |d| == 20 witness seq(20, i => 0)

  /** SHA-1 itself is not modelled; every operation that hashes takes the
      hash function as a parameter. */
  type Sha1 = Bytes -> Digest

  function HexDigit(n: nat): char
    requires n < 16
  {
    "0123456789abcdef"[n]
  }

  /** `hex.EncodeToString`: two lower-case hex digits per byte. */
  function Hex(d: Bytes): (h: string)
    ensures |h| == 2 * |d|
  {
    if |d| == 0 then "" else [HexDigit(d[0] / 16), HexDigit(d[0] % 16)] + Hex(d[1..])
  }

  /** The hex SHA-1 of some contents, as the Go code compares it with the
      `sha1` fields of the metadata. */
  function HexSha1(sha1: Sha1, data: Bytes): (h: string)
    ensures |h| == 40
  {
    Hex(sha1(data))
  }

  /** Go's `string(b)` for bytes: one character per byte, no encoding. */
  function RawString(b: Bytes): (s: string)
    ensures |s| == |b|
    ensures forall i :: 0 <= i < |b| ==> s[i] as int == b[i]
  {
    if |b| == 0 then "" else [b[0] as char] + RawString(b[1..])
  }

  /** The bytes of an ASCII string (writing a string to a file). */
  function Utf8(s: string): (b: Bytes)
    requires forall i :: 0 <= i < |s| ==> s[i] as int < 256
    ensures |b| == |s|
  {
    if |s| == 0 then [] else [s[0] as int] + Utf8(s[1..])
  }

  /** `q` is `p` itself or a path below it. */
  predicate Under(q: string, p: string)
  {
    q == p || (|q| > |p| && q[..|p| + 1] == p + "/")
  }

  /** `os.PathListSeparator` on the operating system `goos`. */
  function ListSeparator(goos: string): string
  {
    if goos == "windows" then ";" else ":"
  }

  /** `filepath.Join(a, b)` for two non-empty, already clean elements. */
  function PathJoin(a: string, b: string): string
  {
    a + "/" + b
  }

  /** Index of the last '/' in `p`, if any. */
  function LastSlash(p: string): (k: Option<nat>)
    ensures k.Some? ==> k.value < |p| && p[k.value] == '/' && '/' !in p[k.value + 1..]
    ensures k.None? ==> '/' !in p
  {
    if |p| == 0 then None
    else if p[|p| - 1] == '/' then Some(|p| - 1)
    else
      var k := LastSlash(p[..|p| - 1]);
      assert k.Some? ==> p[k.value + 1..] == p[..|p| - 1][k.value + 1..] + [p[|p| - 1]];
      k
  }

  /** `path.Dir`: everything before the last '/', "." without one. */
  function Dir(p: string): string
  {
    match LastSlash(p)
    case None => "."
    case Some(k) => if k == 0 then "/" else p[..k]
  }

  /** `path.Base`: everything after the last '/'. */
  function Base(p: string): (b: string)
    ensures '/' !in b
  {
    match LastSlash(p)
    case None => p
    case Some(k) => p[k + 1..]
  }

  /** The last '/' is the one with none after it. */
  lemma LastSlashAt(p: string, k: nat)
    requires k < |p| && p[k] == '/' && '/' !in p[k + 1..]
    ensures LastSlash(p) == Some(k)
  {
    assert p[k] in p;
    var r := LastSlash(p).value;
    assert forall j :: k < j < |p| ==> p[j] == p[k + 1..][j - k - 1];
    assert forall j :: r < j < |p| ==> p[j] == p[r + 1..][j - r - 1];
  }

  /** A name without '/' joined under a non-empty directory is its base
      name, and the directory its dir. */
  lemma JoinUnder(root: string, name: string)
    requires root != "" && '/' !in name
    ensures Dir(PathJoin(root, name)) == root && Base(PathJoin(root, name)) == name
  {
    var p := PathJoin(root, name);
    assert p[|root| + 1..] == name;
    LastSlashAt(p, |root|);
    assert p[..|root|] == root;
  }

  /** A path with a '/' that does not start at the root is the join of its
      directory and its base name. */
  lemma DirBase(p: string)
    requires '/' in p && p[0] != '/'
    ensures PathJoin(Dir(p), Base(p)) == p
  {
    var k := LastSlash(p).value;
    assert p == p[..k] + "/" + p[k + 1..];
  }

  /** Default permission bits of `os.Create` and of a directory made by
      `os.MkdirAll`. */
  const CreateMode: nat := 0x1b6   // 0666
  const DirMode: nat := 0x1ed      // 0755

  /** A snapshot of the disk: file contents, permission bits, directories. */
  datatype Fs = Fs(files: map<string, Bytes>, modes: map<string, nat>, dirs: set<string>)
  {
    /** The state after `os.Create` and a write of `data`. */
    function Write(p: string, data: Bytes): Fs
    {
      Fs(files[p := data], modes[p := if p in modes then modes[p] else CreateMode], dirs)
    }

    /** The state after `os.WriteFile` with permission bits `perm`. */
    function WritePerm(p: string, data: Bytes, perm: nat): Fs
    {
      Fs(files[p := data], modes[p := if p in modes then modes[p] else perm], dirs)
    }

    /** The state after `os.Remove` of a regular file (nothing happens to a
        path that is not one). */
    function Remove(p: string): Fs
    {
      Fs(files - {p}, modes - {p}, dirs)
    }

    /** A directory with nothing under it. */
    predicate EmptyDir(p: string)
    {
      && p in dirs
      && (forall q :: q in files ==> !Under(q, p))
      && (forall q :: q in dirs && q != p ==> !Under(q, p))
    }

    /** The state after `os.Remove(p)` of an empty directory. */
    function RemoveDir(p: string): Fs
    {
      Fs(files, modes, dirs - {p})
    }

    /** The state after `os.MkdirAll`. */
    function Mkdir(p: string): Fs
    {
      this.(dirs := dirs + {p})
    }

    /** The state after `os.RemoveAll(p)`: `p` and everything under it are
        gone, nothing else changes. */
    function RemoveAll(p: string): (r: Fs)
      ensures forall q :: q in r.files <==> q in files && !Under(q, p)
      ensures forall q :: q in r.dirs <==> q in dirs && !Under(q, p)
      ensures forall q :: q in r.files ==> r.files[q] == files[q]
    {
      Fs(map q | q in files && !Under(q, p) :: files[q],
         map q | q in modes && !Under(q, p) :: modes[q],
         set q | q in dirs && !Under(q, p))
    }
  }

  class Disk {
    var files: map<string, Bytes>
    var modes: map<string, nat>
    var dirs: set<string>

    constructor (files0: map<string, Bytes>, dirs0: set<string>)
      ensures files == files0 && dirs == dirs0
      ensures modes == map p | p in files0 :: CreateMode
    {
      files := files0;
      dirs := dirs0;
      modes := map p | p in files0 :: CreateMode;
    }

    function State(): Fs
      reads this
    {
      Fs(files, modes, dirs)
    }

    /** `os.Stat(p)` succeeds. */
    predicate Exists(p: string)
      reads this
    {
      p in files || p in dirs
    }

    /** `os.ReadFile(p)`: the contents of a regular file, an error otherwise. */
    function Read(p: string): (r: Result<Bytes>)
      reads this
      ensures r.Ok? <==> p in files
      ensures r.Ok? ==> r.value == files[p]
    {
      if p in files then Ok(files[p]) else Err("open " + p + ": no such file or directory")
    }

    /** `os.MkdirAll(p)`. */
    method MkdirAll(p: string)
      modifies this
      ensures dirs == old(dirs) + {p}
      ensures files == old(files) && modes == old(modes)
    {
      dirs := dirs + {p};
    }

    /** `os.Create` followed by a write of `data`: the file is truncated to
      `data`, keeping its permission bits if it existed. */
    method WriteFile(p: string, data: Bytes)
      modifies this
      ensures files == old(files)[p := data]
      ensures modes == old(modes)[p := if p in old(modes) then old(modes)[p] else CreateMode]
      ensures dirs == old(dirs)
    {
      files := files[p := data];
      modes := modes[p := if p in modes then modes[p] else CreateMode];
    }

    /** `os.WriteFile(p, data, perm)`: the file is truncated to `data`; a new
        file gets `perm`, an existing one keeps its permission bits. */
    method WriteFilePerm(p: string, data: Bytes, perm: nat)
      modifies this
      ensures files == old(files)[p := data]
      ensures modes == old(modes)[p := if p in old(modes) then old(modes)[p] else perm]
      ensures dirs == old(dirs)
    {
      files := files[p := data];
      modes := modes[p := if p in modes then modes[p] else perm];
    }

    /** `(*os.File).Chmod`. */
    method Chmod(p: string, mode: nat)
      modifies this
      ensures modes == old(modes)[p := mode]
      ensures files == old(files) && dirs == old(dirs)
    {
      modes := modes[p := mode];
    }

    /** `os.RemoveAll(p)`. */
    method RemoveAll(p: string)
      modifies this
      ensures State() == old(State()).RemoveAll(p)
    {
      files, modes, dirs := State().RemoveAll(p).files, State().RemoveAll(p).modes, State().RemoveAll(p).dirs;
    }

    /** `os.Remove(p)` of an empty directory. */
    method RemoveDir(p: string)
      modifies this
      ensures State() == old(State()).RemoveDir(p)
    {
      dirs := dirs - {p};
    }

    /** Whether `p` is a directory with nothing under it. */
    method IsEmptyDir(p: string) returns (b: bool)
      ensures b == State().EmptyDir(p)
    {
      b := State().EmptyDir(p);
    }

    /** `os.Remove(p)` of a regular file. */
    method Remove(p: string)
      modifies this
      ensures files == old(files) - {p} && modes == old(modes) - {p}
      ensures dirs == old(dirs)
    {
      files := files - {p};
      modes := modes - {p};
    }
  }
}
