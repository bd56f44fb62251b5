// The launcher's directory layout (pkg/env.go): every data directory is
// derived from one root directory, by default $HOME/.minecraft.
module Env {
  import opened Wrappers
  import opened Strs
  import opened FileSystem

  /** The values of the package-level directory variables. */
  datatype Dirs = Dirs(root: string, instances: string, libraries: string, caches: string, assets: string, authStore: string)

  /** The directories `SetDirs` derives from a root. */
  function DirsFrom(root: string): Dirs
  {
    Dirs(root, PathJoin(root, "instances"), PathJoin(root, "libraries"), PathJoin(root, "caches"),
         PathJoin(root, "assets"), PathJoin(root, "account.json"))
  }

  lemma JoinInjective(root: string, x: string, y: string)
    requires PathJoin(root, x) == PathJoin(root, y)
    ensures x == y
  {
    assert x == PathJoin(root, x)[|root| + 1..];
    assert y == PathJoin(root, y)[|root| + 1..];
  }

  /** Each derived path lies directly under the root, under its own name. */
  lemma DirsFromLayout(root: string)
    requires root != ""
    ensures var d := DirsFrom(root);
      && d.root == root
      && Dir(d.instances) == root && Base(d.instances) == "instances"
      && Dir(d.libraries) == root && Base(d.libraries) == "libraries"
      && Dir(d.caches) == root && Base(d.caches) == "caches"
      && Dir(d.assets) == root && Base(d.assets) == "assets"
      && Dir(d.authStore) == root && Base(d.authStore) == "account.json"
  {
    JoinUnder(root, "instances");
    JoinUnder(root, "libraries");
    JoinUnder(root, "caches");
    JoinUnder(root, "assets");
    JoinUnder(root, "account.json");
  }

  function Paths(d: Dirs): seq<string>
  {
    [d.root, d.instances, d.libraries, d.caches, d.assets, d.authStore]
  }

  /** No two of the derived paths coincide, whatever the root. */
  lemma DirsFromDistinct(root: string)
    ensures var ps := Paths(DirsFrom(root));
      forall i, j :: 0 <= i < j < |ps| ==> ps[i] != ps[j]
  {
    var ps := Paths(DirsFrom(root));
    var names := ["instances", "libraries", "caches", "assets", "account.json"];
    forall i, j | 0 <= i < j < |ps| ensures ps[i] != ps[j] {
      if i == 0 {
        assert |ps[j]| > |root|;
      } else {
        assert ps[i] == PathJoin(root, names[i - 1]) && ps[j] == PathJoin(root, names[j - 1]);
        if ps[i] == ps[j] {
          JoinInjective(root, names[i - 1], names[j - 1]);
        }
      }
    }
  }

  /** The default root: `.minecraft` in the home directory. */
  function DefaultRoot(home: string): string
  {
    PathJoin(home, ".minecraft")
  }

  /** The package-level directory variables. */
  class Globals {
    var rootDir: string
    var instancesDir: string
    var librariesDir: string
    var cachesDir: string
    var assetsDir: string
    var authStorePath: string

    function Current(): Dirs
      reads this
    {
      Dirs(rootDir, instancesDir, librariesDir, cachesDir, assetsDir, authStorePath)
    }

    /** The package initialiser: the layout under $HOME/.minecraft. */
    constructor Init(disk: Disk, home: string, mkdirErr: Option<string>)
      modifies disk
      ensures Current() == DirsFrom(DefaultRoot(home))
    {
      var d := DirsFrom(DefaultRoot(home));
      rootDir, instancesDir, librariesDir := d.root, d.instances, d.libraries;
      cachesDir, assetsDir, authStorePath := d.caches, d.assets, d.authStore;
      if mkdirErr.None? {
        disk.MkdirAll(d.root);
      }
    }

    /** `SetDirs`: the variables are assigned first; the root directory is then
        created, and a failure to create it (`mkdirErr`, the result of the
        operating system call) is reported wrapped while the new values stay. */
    method SetDirs(disk: Disk, root: string, mkdirErr: Option<string>) returns (err: Option<string>)
      modifies this, disk
      ensures Current() == DirsFrom(root)
      ensures mkdirErr.Some? ==> err == Some(Wrapped("create root directory", mkdirErr.value)) && disk.dirs == old(disk.dirs)
      ensures mkdirErr.None? ==> err.None? && disk.dirs == old(disk.dirs) + {root}
      ensures disk.files == old(disk.files)
    {
      var d := DirsFrom(root);
      rootDir, instancesDir, librariesDir := d.root, d.instances, d.libraries;
      cachesDir, assetsDir, authStorePath := d.caches, d.assets, d.authStore;
      if mkdirErr.Some? {
        return Some(Wrapped("create root directory", mkdirErr.value));
      }
      disk.MkdirAll(root);
      return None;
    }
  }
}
