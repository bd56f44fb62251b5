// The early Go generation's directory globals (internal/env.go). The layout
// is the one `Env.DirsFrom` derives; the account file is kept in
// `AccountDataCache`, and nothing is created on disk.
module EnvInternal {
  import opened Env

  class Globals {
    var rootDir: string
    var librariesDir: string
    var instancesDir: string
    var cachesDir: string
    var assetsDir: string
    var accountDataCache: string

    function Current(): Dirs
      reads this
    {
      Dirs(rootDir, instancesDir, librariesDir, cachesDir, assetsDir, accountDataCache)
    }

    constructor ()
      ensures Current() == Dirs("", "", "", "", "", "")
    {
      rootDir, librariesDir, instancesDir := "", "", "";
      cachesDir, assetsDir, accountDataCache := "", "", "";
    }

    /** `SetDirsFromRoot`: only the globals change, and the new values depend
        on `root` alone, so a second call with the same root changes nothing. */
    method SetDirsFromRoot(root: string)
      modifies this
      ensures Current() == DirsFrom(root)
      ensures old(Current()) == DirsFrom(root) ==> Current() == old(Current())
    {
      var d := DirsFrom(root);
      rootDir := root;
      instancesDir, librariesDir, cachesDir, assetsDir := d.instances, d.libraries, d.caches, d.assets;
      accountDataCache := d.authStore;
    }
  }
}
