// The `launch` command of the Deno generation (cli/launch.ts): the target
// "<version>[:<loader>]" is split and its loader checked, the options are
// built, an account is signed in through the refresh token kept in
// accounts.json (falling back to offline play on any failure) unless an
// offline name is given, and the version is installed and run.
module CliLaunch {
  import opened Wrappers
  import opened Strs
  import opened FileSystem
  import opened DenoFs
  import opened Process
  import DenoLauncher
  import DenoAuth
  import PkgAuth
  import CliMain

  const ModLoaders := ["fabric", "quilt"]
  const InvalidLoader := "Invalid mod loader."

  /** `ensureDir` on a path that is a regular file. */
  const NotADirectory := "Ensure path exists, expected 'dir', got 'file'"

  /** The command's options; `server` is accepted but never read. */
  datatype Flags = Flags(java: Option<string>, server: Option<string>, username: Option<string>, dir: Option<string>)

  /** Everything the sign-in depends on: the network and decoders of the
      chain, the code the browser flow would receive, `JSON.parse(...).refresh`
      of the account file (an error when it does not parse, None when the
      field is missing) and the JSON text written back. */
  datatype SignInEnv = SignInEnv(
    auth: PkgAuth.Env, authCode: string,
    parseAccounts: Bytes -> Result<Option<string>>, stringifyAccounts: string -> Bytes)

  /** `const [version, loader] = args[0].split(":")`: the loader is "" when
      there is no second piece. */
  function Target(arg: string): (t: (string, string))
    ensures ':' !in t.0 && ':' !in t.1
  {
    var parts := Split(arg, ':');
    (parts[0], if |parts| > 1 then parts[1] else "")
  }

  /** "<version>:<loader>" splits back into its two halves, and a target
      without ':' is a version alone. */
  lemma TargetRoundTrip(version: string, loader: string)
    requires ':' !in version && ':' !in loader
    ensures Target(version + ":" + loader) == (version, loader)
    ensures Target(version) == (version, "")
  {
    SplitAtSeparator(version, loader, ':');
    SplitNoSeparator(loader, ':');
    SplitNoSeparator(version, ':');
  }

  /** `loader && !MOD_LOADERS.includes(loader)`. */
  predicate BadLoader(loader: string)
  {
    loader != "" && loader !in ModLoaders
  }

  /** `!flags.username`: absent and empty both ask for a signed-in account. */
  predicate SignInWanted(flags: Flags)
  {
    flags.username.None? || flags.username.value == ""
  }

  /** The options before sign-in: the cache always on, and "java" when no
      `--java` is given. */
  function BaseOptions(flags: Flags, rootDir: string, instanceDir: string, loader: string): (o: DenoLauncher.VersionOptions)
    ensures o.cache && o.rootDir == rootDir && o.instanceDir == instanceDir && o.loader == loader
    ensures o.jvmPath == (if flags.java.Some? then flags.java.value else "java")
    ensures o.auth.None? && o.offlineUsername.None?
  {
    DenoLauncher.VersionOptions(rootDir, instanceDir, true, loader,
      if flags.java.Some? then flags.java.value else "java", None, None)
  }

  function AccountsPath(rootDir: string): string
  {
    rootDir + "/accounts.json"
  }

  /** The refresh token the account file offers: none without the file, an
      error when it cannot be read or parsed. */
  function StoredRefresh(fs: Fs, e: SignInEnv, authCache: string): Result<Option<string>>
  {
    if authCache in fs.files then e.parseAccounts(fs.files[authCache])
    else if authCache in fs.dirs then Err("Is a directory (os error 21)")
    else Ok(None)
  }

  /** The `try` block: the session, and the account file holding only the
      new refresh token; any failure leaves no session and the disk as it
      was. */
  function SignedIn(fs: Fs, e: SignInEnv, authCache: string): (r: (Option<DenoAuth.AuthData>, Fs))
    ensures r.0.None? ==> r.1 == fs
    ensures r.0.Some? ==>
      && StoredRefresh(fs, e, authCache).Ok?
      && DenoAuth.AuthDataOf(e.auth, StoredRefresh(fs, e, authCache).value, e.authCode) == Ok(r.0.value)
      && r.1 == Saved(fs, authCache, e.stringifyAccounts(r.0.value.refresh))
  {
    match StoredRefresh(fs, e, authCache)
    case Err(_) => (None, fs)
    case Ok(token) =>
      match DenoAuth.AuthDataOf(e.auth, token, e.authCode)
      case Err(_) => (None, fs)
      case Ok(data) => (Some(data), Saved(fs, authCache, e.stringifyAccounts(data.refresh)))
  }

  method SignIn(disk: Disk, e: SignInEnv, authCache: string) returns (auth: Option<DenoAuth.AuthData>)
    modifies disk
    ensures (auth, disk.State()) == SignedIn(old(disk.State()), e, authCache)
  {
    var refreshToken: Option<string> := None;
    if Exists(disk, authCache) {
      var text := disk.Read(authCache);
      if text.Err? {
        return None;
      }
      var parsed := e.parseAccounts(text.value);
      if parsed.Err? {
        return None;
      }
      refreshToken := parsed.value;
    }
    var data := DenoAuth.AuthDataOf(e.auth, refreshToken, e.authCode);
    if data.Err? {
      return None;
    }
    SaveFile(disk, e.stringifyAccounts(data.value.refresh), authCache);
    return Some(data.value);
  }

  /** The session as the launcher's options carry it. */
  function AsAuth(d: DenoAuth.AuthData): DenoLauncher.Auth
  {
    DenoLauncher.Auth(d.token, d.uuid, d.username)
  }

  /** The options after the sign-in step. */
  function WithAccount(o: DenoLauncher.VersionOptions, flags: Flags, auth: Option<DenoAuth.AuthData>): (r: DenoLauncher.VersionOptions)
    ensures r.auth == (if SignInWanted(flags) && auth.Some? then Some(AsAuth(auth.value)) else o.auth)
    ensures r.offlineUsername == (if SignInWanted(flags) then o.offlineUsername else flags.username)
    ensures r.jvmPath == o.jvmPath && r.loader == o.loader && r.cache == o.cache
  {
    if !SignInWanted(flags) then o.(offlineUsername := flags.username)
    else if auth.Some? then o.(auth := Some(AsAuth(auth.value)))
    else o
  }

  /** Up to the install: the target checked, the root directory ensured,
      the options built and the account signed in. */
  function Configured(fs: Fs, e: SignInEnv, flags: Flags, arg: string, home: Option<string>, cwd: string): (r: (Result<(string, DenoLauncher.VersionOptions)>, Fs))
    ensures BadLoader(Target(arg).1) ==> r == (Err(InvalidLoader), fs)
    ensures r.0.Ok? ==> r.0.value.0 == Target(arg).0 && r.0.value.1.loader == Target(arg).1
    ensures r.0.Ok? ==> r.0.value.1.jvmPath == (if flags.java.Some? then flags.java.value else "java")
    ensures r.0.Ok? ==> r.0.value.1.instanceDir == CliMain.GetDirs(Target(arg).0, flags.dir, home, cwd).1
  {
    var (version, loader) := Target(arg);
    if BadLoader(loader) then (Err(InvalidLoader), fs)
    else
      var (rootDir, instanceDir) := CliMain.GetDirs(version, flags.dir, home, cwd);
      if rootDir in fs.files then (Err(NotADirectory), fs)
      else
        var fs1 := if rootDir in fs.dirs then fs else fs.Mkdir(rootDir);
        var options := BaseOptions(flags, rootDir, instanceDir, loader);
        if SignInWanted(flags) then
          var (auth, fs2) := SignedIn(fs1, e, AccountsPath(rootDir));
          (Ok((version, WithAccount(options, flags, auth))), fs2)
        else (Ok((version, WithAccount(options, flags, None))), fs1)
  }

  /** `launch(flags, arg)`: the process started, given the host OS, the
      random UUID and the random number the offline defaults use. */
  function Launched(fs: Fs, env: DenoLauncher.Env, e: SignInEnv, flags: Flags, arg: string,
                    home: Option<string>, cwd: string, goos: string, uuid: string, roll: nat): (r: (Result<Command>, Fs))
    requires roll < 100
  {
    var (c, fs1) := Configured(fs, e, flags, arg, home, cwd);
    match c
    case Err(err) => (Err(err), fs1)
    case Ok((version, options)) =>
      var (inst, fs2) := DenoLauncher.Installed(fs1, env, version, options);
      match inst
      case Err(err) => (Err(err), fs2)
      case Ok(args) => (Ok(DenoLauncher.Run(args, options, goos, uuid, roll)), fs2)
  }

  /** The part of `launch` before the install. */
  method Configure(disk: Disk, e: SignInEnv, flags: Flags, arg: string, home: Option<string>, cwd: string)
    returns (c: Result<(string, DenoLauncher.VersionOptions)>)
    modifies disk
    ensures (c, disk.State()) == Configured(old(disk.State()), e, flags, arg, home, cwd)
  {
    var (version, loader) := Target(arg);
    if loader != "" && loader !in ModLoaders {
      return Err(InvalidLoader);
    }
    var (rootDir, instanceDir) := CliMain.GetDirs(version, flags.dir, home, cwd);
    if rootDir in disk.files {
      return Err(NotADirectory);
    }
    if !Exists(disk, rootDir) {
      disk.MkdirAll(rootDir);
    }
    var authCache := AccountsPath(rootDir);
    var options := DenoLauncher.VersionOptions(rootDir, instanceDir, true, "",
      if flags.java.Some? then flags.java.value else "java", None, None);
    if loader != "" {
      options := options.(loader := loader);
    }
    if flags.username.None? || flags.username.value == "" {
      var auth := SignIn(disk, e, authCache);
      if auth.Some? {
        options := options.(auth := Some(AsAuth(auth.value)));
      }
    } else {
      options := options.(offlineUsername := flags.username);
    }
    return Ok((version, options));
  }

  method Launch(disk: Disk, env: DenoLauncher.Env, e: SignInEnv, flags: Flags, arg: string,
                home: Option<string>, cwd: string, goos: string, uuid: string, roll: nat) returns (r: Result<Command>)
    requires roll < 100
    modifies disk
    ensures (r, disk.State()) == Launched(old(disk.State()), env, e, flags, arg, home, cwd, goos, uuid, roll)
  {
    var c := Configure(disk, e, flags, arg, home, cwd);
    if c.Err? {
      return Err(c.error);
    }
    var (version, options) := c.value;
    var instance := DenoLauncher.InstallVersion(disk, env, version, options);
    if instance.Err? {
      return Err(instance.error);
    }
    return Ok(DenoLauncher.Run(instance.value, options, goos, uuid, roll));
  }

  /** An offline name skips the sign-in entirely: neither the network of
      the chain, nor the browser code, nor the account file matters, and
      the name reaches the options. */
  lemma OfflineNameSkipsSignIn(fs: Fs, e1: SignInEnv, e2: SignInEnv, flags: Flags, arg: string, home: Option<string>, cwd: string)
    requires !SignInWanted(flags)
    ensures Configured(fs, e1, flags, arg, home, cwd) == Configured(fs, e2, flags, arg, home, cwd)
    ensures var (c, _) := Configured(fs, e1, flags, arg, home, cwd);
      c.Ok? ==> c.value.1.auth.None? && c.value.1.offlineUsername == flags.username
  {
  }

  /** A failed sign-in is not an error of the command: it goes on offline,
      with the options and the disk it would have had without an account
      file change. */
  lemma SignInFailureFallsBackOffline(fs: Fs, e: SignInEnv, flags: Flags, arg: string, home: Option<string>, cwd: string)
    requires SignInWanted(flags) && !BadLoader(Target(arg).1)
    requires var rootDir := CliMain.GetDirs(Target(arg).0, flags.dir, home, cwd).0;
      rootDir !in fs.files
      && var fs1 := if rootDir in fs.dirs then fs else fs.Mkdir(rootDir);
      SignedIn(fs1, e, AccountsPath(rootDir)).0.None?
    ensures var (c, fs2) := Configured(fs, e, flags, arg, home, cwd);
      var rootDir := CliMain.GetDirs(Target(arg).0, flags.dir, home, cwd).0;
      && c.Ok? && c.value.1.auth.None? && c.value.1.offlineUsername.None?
      && fs2 == (if rootDir in fs.dirs then fs else fs.Mkdir(rootDir))
  {
  }

  /** After a successful sign-in only the new refresh token is written, to
      accounts.json under the root. */
  lemma OnlyRefreshTokenKept(fs: Fs, e: SignInEnv, authCache: string)
    requires SignedIn(fs, e, authCache).0.Some?
    ensures var (auth, fs1) := SignedIn(fs, e, authCache);
      && fs1.files == fs.files[authCache := e.stringifyAccounts(auth.value.refresh)]
      && (forall q :: q in fs.files && q != authCache ==> fs1.files[q] == fs.files[q])
  {
  }

  /** Without an account file the browser flow is used; with one whose
      refresh token is non-empty, the browser code does not matter. */
  lemma AccountFileDecidesFlow(fs: Fs, e: SignInEnv, code: string, authCache: string, token: string)
    requires authCache in fs.files && e.parseAccounts(fs.files[authCache]) == Ok(Some(token)) && token != ""
    ensures SignedIn(fs, e, authCache) == SignedIn(fs, e.(authCode := code), authCache)
  {
    DenoAuth.CodeOnlyWithoutRefreshToken(e.auth, Some(token), e.authCode, code);
  }

  /** A successful launch runs the chosen Java ("java" by default) in the
      instance directory of the requested version. */
  lemma LaunchRunsJava(fs: Fs, env: DenoLauncher.Env, e: SignInEnv, flags: Flags, arg: string,
                       home: Option<string>, cwd: string, goos: string, uuid: string, roll: nat)
    requires roll < 100
    requires Launched(fs, env, e, flags, arg, home, cwd, goos, uuid, roll).0.Ok?
    ensures var cmd := Launched(fs, env, e, flags, arg, home, cwd, goos, uuid, roll).0.value;
      && cmd.path == (if flags.java.Some? then flags.java.value else "java")
      && cmd.dir == CliMain.GetDirs(Target(arg).0, flags.dir, home, cwd).1
  {
    var (c, fs1) := Configured(fs, e, flags, arg, home, cwd);
    var (version, options) := c.value;
    var (inst, fs2) := DenoLauncher.Installed(fs1, env, version, options);
    assert Launched(fs, env, e, flags, arg, home, cwd, goos, uuid, roll).0.value == DenoLauncher.Run(inst.value, options, goos, uuid, roll);
  }
}
