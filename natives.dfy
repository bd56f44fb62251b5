// Extracting the native libraries of legacy LWJGL 2 versions
// (pkg/launcher/natives.go): every native jar of every library, in order,
// is unpacked flat into one directory, skipping directories, META-INF/
// entries and files already there. Reading the archive is a parameter.
module Natives {
  import opened Wrappers
  import opened Strs
  import opened FileSystem
  import opened MetaMinecraft

  /** An archive entry: its name, whether it is a directory, its permission
      bits and its contents (or the error of opening it). */
  datatype ZipEntry = ZipEntry(name: string, isDir: bool, mode: nat, content: Result<Bytes>)

  /** What opening each archive gives: its entries, or an error. */
  type ZipReader = string -> Result<seq<ZipEntry>>

  /** Entries that are never extracted. */
  predicate Skipped(e: ZipEntry)
  {
    e.isDir || HasPrefix(e.name, "META-INF/")
  }

  /** Where an entry goes: flattened to its base name under `dest`. */
  function OutPath(dest: string, e: ZipEntry): string
  {
    PathJoin(dest, Base(e.name))
  }

  /** The entry loop of `extractJar`. */
  function ExtractEntries(fs: Fs, dest: string, entries: seq<ZipEntry>): (Option<string>, Fs)
    decreases |entries|
  {
    if |entries| == 0 then (None, fs)
    else
      var e := entries[0];
      var out := OutPath(dest, e);
      if Skipped(e) || out in fs.files || out in fs.dirs then ExtractEntries(fs, dest, entries[1..])
      else if e.content.Err? then (Some(e.content.error), fs)
      else ExtractEntries(fs.WritePerm(out, e.content.value, e.mode), dest, entries[1..])
  }

  /** `extractJar`: the archive is opened, `dest` created, then the entries
      extracted. */
  function ExtractJar(fs: Fs, src: string, dest: string, open: ZipReader): (Option<string>, Fs)
  {
    if open(src).Err? then (Some(open(src).error), fs)
    else ExtractEntries(fs.Mkdir(dest), dest, open(src).value)
  }

  method ExtractJarFile(disk: Disk, src: string, dest: string, open: ZipReader) returns (err: Option<string>)
    modifies disk
    ensures (err, disk.State()) == ExtractJar(old(disk.State()), src, dest, open)
  {
    var r := open(src);
    if r.Err? {
      return Some(r.error);
    }
    disk.MkdirAll(dest);
    var entries := r.value;
    ghost var fs0 := disk.State();
    assert entries[0..] == entries;
    for i := 0 to |entries|
      invariant ExtractEntries(fs0, dest, entries) == ExtractEntries(disk.State(), dest, entries[i..])
    {
      assert entries[i..][1..] == entries[i + 1..];
      var e := entries[i];
      if Skipped(e) {
        continue;
      }
      var out := OutPath(dest, e);
      if disk.Exists(out) {
        continue;
      }
      if e.content.Err? {
        return Some(e.content.error);
      }
      disk.WriteFilePerm(out, e.content.value, e.mode);
    }
    return None;
  }

  /** The runtime paths of every library's natives, library by library. */
  function NativePaths(librariesDir: string, libs: seq<Library>): (paths: seq<string>)
    decreases |libs|
  {
    if |libs| == 0 then []
    else
      seq(|libs[0].natives|, j requires 0 <= j < |libs[0].natives| => RuntimePath(librariesDir, libs[0].natives[j].artifact))
      + NativePaths(librariesDir, libs[1..])
  }

  /** The jar loop: the first failure stops it with the jar's base name. */
  function ExtractAll(fs: Fs, dest: string, jars: seq<string>, open: ZipReader): (Option<string>, Fs)
    decreases |jars|
  {
    if |jars| == 0 then (None, fs)
    else
      var (err, fs1) := ExtractJar(fs, jars[0], dest, open);
      if err.Some? then (Some(Wrapped("extract natives from " + Base(jars[0]), err.value)), fs1)
      else ExtractAll(fs1, dest, jars[1..], open)
  }

  /** The jar loop over a concatenation is the loop over the first part,
      then, unless it failed, the loop over the second. */
  lemma {:induction false} ExtractAllAppend(fs: Fs, dest: string, a: seq<string>, b: seq<string>, open: ZipReader)
    ensures ExtractAll(fs, dest, a + b, open)
         == (var (err, fs1) := ExtractAll(fs, dest, a, open); if err.Some? then (err, fs1) else ExtractAll(fs1, dest, b, open))
    decreases |a|
  {
    if |a| > 0 {
      assert (a + b)[1..] == a[1..] + b;
      ExtractAllAppend(ExtractJar(fs, a[0], dest, open).1, dest, a[1..], b, open);
    } else {
      assert a + b == b;
    }
  }

  /** The natives of one library. */
  method ExtractLibraryNatives(disk: Disk, librariesDir: string, dest: string, library: Library, open: ZipReader)
    returns (err: Option<string>)
    modifies disk
    ensures (err, disk.State()) == ExtractAll(old(disk.State()), dest, NativePaths(librariesDir, [library]), open)
  {
    var natives := library.natives;
    ghost var jars := NativePaths(librariesDir, [library]);
    assert [library][1..] == [];
    assert NativePaths(librariesDir, [library][1..]) == [];
    assert |jars| == |natives| && forall j :: 0 <= j < |natives| ==> jars[j] == RuntimePath(librariesDir, natives[j].artifact);
    ghost var fs0 := disk.State();
    assert jars[0..] == jars;
    for j := 0 to |natives|
      invariant ExtractAll(fs0, dest, jars, open) == ExtractAll(disk.State(), dest, jars[j..], open)
    {
      assert jars[j..][1..] == jars[j + 1..];
      var path := RuntimePath(librariesDir, natives[j].artifact);
      var e := ExtractJarFile(disk, path, dest, open);
      if e.Some? {
        return Some(Wrapped("extract natives from " + Base(path), e.value));
      }
    }
    return None;
  }

  /** `extractNatives`. */
  method ExtractNatives(disk: Disk, librariesDir: string, dest: string, libs: seq<Library>, open: ZipReader)
    returns (err: Option<string>)
    modifies disk
    ensures (err, disk.State()) == ExtractAll(old(disk.State()), dest, NativePaths(librariesDir, libs), open)
  {
    ghost var fs0 := disk.State();
    assert libs[0..] == libs;
    for i := 0 to |libs|
      invariant ExtractAll(fs0, dest, NativePaths(librariesDir, libs), open)
             == ExtractAll(disk.State(), dest, NativePaths(librariesDir, libs[i..]), open)
    {
      assert libs[i..][1..] == libs[i + 1..];
      assert NativePaths(librariesDir, libs[i..]) == NativePaths(librariesDir, [libs[i]]) + NativePaths(librariesDir, libs[i + 1..]) by {
        assert [libs[i]][1..] == [];
      }
      ExtractAllAppend(disk.State(), dest, NativePaths(librariesDir, [libs[i]]), NativePaths(librariesDir, libs[i + 1..]), open);
      err := ExtractLibraryNatives(disk, librariesDir, dest, libs[i], open);
      if err.Some? {
        return err;
      }
    }
    return None;
  }

  /** Extraction never overwrites: every file already on disk keeps its
      contents, and every new file is the flattened path of an entry that is
      neither a directory nor under META-INF/. */
  lemma {:induction false} ExtractEntriesNeverOverwrites(fs: Fs, dest: string, entries: seq<ZipEntry>)
    ensures var fs' := ExtractEntries(fs, dest, entries).1;
      && fs'.dirs == fs.dirs
      && (forall p :: p in fs.files ==> p in fs'.files && fs'.files[p] == fs.files[p])
      && (forall p :: p in fs'.files && p !in fs.files ==>
            exists i :: 0 <= i < |entries| && !Skipped(entries[i]) && p == OutPath(dest, entries[i]))
    decreases |entries|
  {
    if |entries| > 0 {
      var e := entries[0];
      var out := OutPath(dest, e);
      var next := if Skipped(e) || out in fs.files || out in fs.dirs || e.content.Err? then fs
                  else fs.WritePerm(out, e.content.value, e.mode);
      ExtractEntriesNeverOverwrites(next, dest, entries[1..]);
      var fs' := ExtractEntries(fs, dest, entries).1;
      forall p | p in fs'.files && p !in fs.files
        ensures exists i :: 0 <= i < |entries| && !Skipped(entries[i]) && p == OutPath(dest, entries[i])
      {
        if !(Skipped(e) || out in fs.files || out in fs.dirs) && e.content.Ok? {
          if p == out {
            assert !Skipped(entries[0]) && p == OutPath(dest, entries[0]);
          } else {
            var i :| 0 <= i < |entries[1..]| && !Skipped(entries[1..][i]) && p == OutPath(dest, entries[1..][i]);
            assert entries[i + 1] == entries[1..][i];
          }
        } else if e.content.Err? && !(Skipped(e) || out in fs.files || out in fs.dirs) {
        } else {
          var i :| 0 <= i < |entries[1..]| && !Skipped(entries[1..][i]) && p == OutPath(dest, entries[1..][i]);
          assert entries[i + 1] == entries[1..][i];
        }
      }
    }
  }

  /** The destination directory exists once an archive has been opened,
      before any of its entries is written. */
  lemma DestCreatedFirst(fs: Fs, src: string, dest: string, open: ZipReader)
    requires open(src).Ok?
    ensures dest in ExtractJar(fs, src, dest, open).1.dirs
  {
    ExtractEntriesNeverOverwrites(fs.Mkdir(dest), dest, open(src).value);
  }

  /** A failure names the jar it came from and stops the loop: the jars
      after it are never opened. */
  lemma {:induction false} ExtractAllStopsAtFirstFailure(fs: Fs, dest: string, jars: seq<string>, open: ZipReader, k: nat)
    requires k < |jars|
    requires ExtractAll(fs, dest, jars[..k], open).0.None?
    requires ExtractJar(ExtractAll(fs, dest, jars[..k], open).1, jars[k], dest, open).0.Some?
    ensures var fsk := ExtractAll(fs, dest, jars[..k], open).1;
      ExtractAll(fs, dest, jars, open)
      == (Some(Wrapped("extract natives from " + Base(jars[k]), ExtractJar(fsk, jars[k], dest, open).0.value)),
          ExtractJar(fsk, jars[k], dest, open).1)
  {
    assert jars == jars[..k] + jars[k..];
    ExtractAllAppend(fs, dest, jars[..k], jars[k..], open);
  }
}
