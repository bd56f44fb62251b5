// The `start` command of the current Go launcher (internal/cli/cmd/start.go):
// the instance's configuration with the command-line overrides applied, the
// session (offline under a given name, else the stored account), the
// preparation with a progress watcher, the debug listing of the game
// arguments with the account's secrets masked, and the launch.
module CliStart {
  import opened Wrappers
  import opened Process
  import opened LauncherPrepare
  import LauncherInstance
  import PkgAuth

  // ---------------------------------------------------------------------
  // The progress watcher

  /** What the watcher is handed: the launcher's events, and the
      post-processing notice. */
  datatype Notice = Reported(e: Event) | PostProcessing

  /** The translation keys of the lines the watcher prints. */
  const AssetsKey := "start.launch.assets"
  const LibrariesKey := "start.launch.libraries"
  const MetadataKey := "start.launch.metadata"
  const ProcessingKey := "start.processing"

  /** The key a notice prints at a verbosity, if any: the resolved counts
      and the metadata only above verbosity 0, the post-processing line
      always, downloads never (they move the bar). */
  function Line(n: Notice, verbosity: int): (k: Option<string>)
    ensures n.PostProcessing? ==> k == Some(ProcessingKey)
    ensures n.Reported? && n.e.Downloading? ==> k.None?
    ensures verbosity <= 0 && n.Reported? ==> k.None?
  {
    match n
    case PostProcessing => Some(ProcessingKey)
    case Reported(e) =>
      if verbosity <= 0 then None
      else
        match e
        case Downloading(_, _) => None
        case AssetsResolved(_) => Some(AssetsKey)
        case LibrariesResolved(_) => Some(LibrariesKey)
        case MetadataResolved => Some(MetadataKey)
  }

  /** The launcher's events as the watcher receives them. */
  function Notices(events: seq<Event>): (ns: seq<Notice>)
    ensures |ns| == |events| && forall i :: 0 <= i < |events| ==> ns[i] == Reported(events[i])
  {
    seq(|events|, i requires 0 <= i < |events| => Reported(events[i]))
  }

  /** The watcher's state: the bar's maximum and position, and the keys
      printed. */
  datatype Progress = Progress(barMax: nat, barCount: nat, printed: seq<string>)

  /** One notice handled. */
  function Handled(p: Progress, n: Notice, verbosity: int): Progress
  {
    var p1 := if n.Reported? && n.e.Downloading? then p.(barMax := n.e.total, barCount := p.barCount + 1) else p;
    var k := Line(n, verbosity);
    if k.Some? then p1.(printed := p1.printed + [k.value]) else p1
  }

  /** The notices handled in order. */
  function Watched(p: Progress, ns: seq<Notice>, verbosity: int): Progress
    decreases |ns|
  {
    if |ns| == 0 then p else Watched(Handled(p, ns[0], verbosity), ns[1..], verbosity)
  }

  function Downloads(ns: seq<Notice>): nat
  {
    if |ns| == 0 then 0 else (if ns[0].Reported? && ns[0].e.Downloading? then 1 else 0) + Downloads(ns[1..])
  }

  function PostProcessings(ns: seq<Notice>): nat
  {
    if |ns| == 0 then 0 else (if ns[0].PostProcessing? then 1 else 0) + PostProcessings(ns[1..])
  }

  /** The bar advances by one per download notice, whatever its counts;
      at verbosity 0 or below the only lines printed are the
      post-processing ones, one each. */
  lemma {:induction false} WatchedCounts(p: Progress, ns: seq<Notice>, verbosity: int)
    ensures Watched(p, ns, verbosity).barCount == p.barCount + Downloads(ns)
    ensures verbosity <= 0 ==>
      Watched(p, ns, verbosity).printed == p.printed + seq(PostProcessings(ns), _ => ProcessingKey)
    decreases |ns|
  {
    if |ns| > 0 {
      WatchedCounts(Handled(p, ns[0], verbosity), ns[1..], verbosity);
      if verbosity <= 0 {
        var q := Handled(p, ns[0], verbosity);
        var k := if ns[0].PostProcessing? then 1 else 0;
        assert q.printed == p.printed + seq(k, _ => ProcessingKey);
        assert seq(k, _ => ProcessingKey) + seq(PostProcessings(ns[1..]), _ => ProcessingKey)
            == seq(PostProcessings(ns), _ => ProcessingKey);
      }
    }
  }

  /** Handling two runs of notices in turn is handling their
      concatenation. */
  lemma {:induction false} WatchedAppend(p: Progress, a: seq<Notice>, b: seq<Notice>, verbosity: int)
    ensures Watched(p, a + b, verbosity) == Watched(Watched(p, a, verbosity), b, verbosity)
    decreases |a|
  {
    if |a| == 0 {
      assert a + b == b;
    } else {
      assert (a + b)[0] == a[0] && (a + b)[1..] == a[1..] + b;
      WatchedAppend(Handled(p, a[0], verbosity), a[1..], b, verbosity);
    }
  }

  /** A run of download notices against one total moves the bar once per
      notice and sets its maximum to that total. */
  lemma {:induction false} WatchedDownloads(p: Progress, ns: seq<Notice>, total: nat, verbosity: int)
    requires forall i :: 0 <= i < |ns| ==> ns[i].Reported? && ns[i].e.Downloading? && ns[i].e.total == total
    ensures Watched(p, ns, verbosity)
      == p.(barMax := if |ns| == 0 then p.barMax else total, barCount := p.barCount + |ns|)
    decreases |ns|
  {
    if |ns| > 0 {
      assert ns[0].Reported? && ns[0].e.Downloading?;
      var q := Handled(p, ns[0], verbosity);
      assert q == p.(barMax := total, barCount := p.barCount + 1);
      assert forall i :: 0 <= i < |ns[1..]| ==> ns[1..][i] == ns[i + 1];
      WatchedDownloads(q, ns[1..], total, verbosity);
    }
  }

  /** The watcher `watcher(verbosity)` returns: a progress bar starting at
      0 of 0, and the lines it prints. */
  class Watcher {
    const verbosity: int
    var barMax: nat
    var barCount: nat
    var printed: seq<string>

    constructor (verbosity: int)
      ensures this.verbosity == verbosity && State() == Progress(0, 0, [])
    {
      this.verbosity := verbosity;
      barMax, barCount, printed := 0, 0, [];
    }

    function State(): Progress
      reads this
    {
      Progress(barMax, barCount, printed)
    }

    /** The watcher called with one notice. */
    method Handle(n: Notice)
      modifies this
      ensures State() == Handled(old(State()), n, verbosity)
    {
      match n {
        case Reported(e) =>
          match e {
            case Downloading(_, total) =>
              barMax := total;
              barCount := barCount + 1;
            case AssetsResolved(_) =>
              if verbosity > 0 {
                printed := printed + [AssetsKey];
              }
            case LibrariesResolved(_) =>
              if verbosity > 0 {
                printed := printed + [LibrariesKey];
              }
            case MetadataResolved =>
              if verbosity > 0 {
                printed := printed + [MetadataKey];
              }
          }
        case PostProcessing =>
          printed := printed + [ProcessingKey];
      }
    }

    /** The watcher called with each notice in turn. */
    method HandleAll(ns: seq<Notice>)
      modifies this
      ensures State() == Watched(old(State()), ns, verbosity)
    {
      var i := 0;
      while i < |ns|
        invariant 0 <= i <= |ns|
        invariant Watched(old(State()), ns, verbosity) == Watched(State(), ns[i..], verbosity)
      {
        assert ns[i..][1..] == ns[i + 1..];
        Handle(ns[i]);
        i := i + 1;
      }
    }
  }

  // ---------------------------------------------------------------------
  // Overrides

  /** The override flags; zero and "" mean "not given". */
  datatype Overrides = Overrides(width: int, height: int, jvm: string, jvmArgs: string, minMemory: int, maxMemory: int)

  /** The instance's configuration with the overrides applied: the window
      size only when both dimensions are given, the memory only when both
      bounds are given, Java and its arguments whenever given. */
  function Overridden(config: LaunchConfig, o: Overrides): (r: LaunchConfig)
    ensures (r.width, r.height) == (if o.width != 0 && o.height != 0 then (o.width, o.height) else (config.width, config.height))
    ensures r.java == (if o.jvm != "" then o.jvm else config.java)
    ensures r.javaArgs == (if o.jvmArgs != "" then o.jvmArgs else config.javaArgs)
    ensures (r.minMemory, r.maxMemory) ==
      (if o.minMemory != 0 && o.maxMemory != 0 then (o.minMemory, o.maxMemory) else (config.minMemory, config.maxMemory))
    ensures r.customJar == config.customJar
  {
    var c1 := if o.width != 0 && o.height != 0 then config.(width := o.width, height := o.height) else config;
    var c2 := if o.jvm != "" then c1.(java := o.jvm) else c1;
    var c3 := if o.jvmArgs != "" then c2.(javaArgs := o.jvmArgs) else c2;
    if o.minMemory != 0 && o.maxMemory != 0 then c3.(minMemory := o.minMemory, maxMemory := o.maxMemory) else c3
  }

  /** No override flags leave the configuration as it is, and applying the
      same overrides twice changes nothing more. */
  lemma OverridesIdempotent(config: LaunchConfig, o: Overrides)
    ensures Overridden(config, Overrides(0, 0, "", "", 0, 0)) == config
    ensures Overridden(Overridden(config, o), o) == Overridden(config, o)
  {
  }

  /** The configuration the launcher reads for an instance: the stored
      window size, Java and memory bounds; the stored configuration has no
      JVM arguments and no custom jar. */
  function LaunchConfigOf(c: LauncherInstance.InstanceConfig): LaunchConfig
  {
    LaunchConfig(c.resolution.width, c.resolution.height, c.java, "", "", c.minMemory, c.maxMemory)
  }

  // ---------------------------------------------------------------------
  // Masking

  /** The flags whose values the debug listing hides. */
  predicate Secret(arg: string)
  {
    arg == "--accessToken" || arg == "--uuid"
  }

  /** The debug listing of the game arguments: `hideNext` looks at the
      original argument, so every element right after a secret flag is
      "***" and every other element is shown as it is. */
  method MaskArgs(args: seq<string>) returns (shown: seq<string>)
    ensures |shown| == |args|
    ensures forall i :: 0 <= i < |args| ==> shown[i] == (if i > 0 && Secret(args[i - 1]) then "***" else args[i])
  {
    shown := [];
    var hideNext := false;
    for i := 0 to |args|
      invariant |shown| == i
      invariant hideNext <==> i > 0 && Secret(args[i - 1])
      invariant forall j :: 0 <= j < i ==> shown[j] == (if j > 0 && Secret(args[j - 1]) then "***" else args[j])
    {
      if hideNext {
        shown := shown + ["***"];
      } else {
        shown := shown + [args[i]];
      }
      hideNext := Secret(args[i]);
    }
  }

  /** The masked listing as a value. */
  function Masked(args: seq<string>): (shown: seq<string>)
    ensures |shown| == |args|
  {
    seq(|args|, i requires 0 <= i < |args| => if i > 0 && Secret(args[i - 1]) then "***" else args[i])
  }

  /** Masking twice shows the same as masking once: "***" is not a secret
      flag, so a secret flag still visible after masking is the original
      one and the element after it is "***" already. Every element that
      does not follow a secret flag shows as it is (a secret flag right
      after another one is hidden, as its value would be), and a token or
      UUID following its flag never shows. */
  lemma MaskedIdempotent(args: seq<string>)
    ensures Masked(Masked(args)) == Masked(args)
    ensures forall i :: 0 <= i < |args| && !(i > 0 && Secret(args[i - 1])) ==> Masked(args)[i] == args[i]
    ensures forall i :: 0 < i < |args| && Secret(args[i - 1]) ==> Masked(args)[i] == "***"
  {
    var m := Masked(args);
    forall i | 0 <= i < |args|
      ensures Masked(m)[i] == m[i]
    {
      if i > 0 && Secret(m[i - 1]) {
        assert m[i - 1] == args[i - 1];
      }
    }
  }

  // ---------------------------------------------------------------------
  // The command

  /** The command's arguments. The world flag is accepted but the launch
      options have no place for it. */
  datatype StartCmd = StartCmd(id: string, prepare: bool, username: string, server: string, world: string,
                               demo: bool, disableMP: bool, disableChat: bool, overrides: Overrides)

  /** How far the command got. */
  datatype Ran = Ran(err: Option<string>, notices: seq<Notice>, gameArgsShown: Option<seq<string>>, launched: bool)

  /** The session handed to the launcher: the offline name, or the stored
      account's session. */
  function SessionOf(cmd: StartCmd, authenticated: Result<PkgAuth.Session>): (r: Result<Session>)
    ensures cmd.username != "" ==> r == Ok(Session(cmd.username, "", ""))
    ensures cmd.username == "" && authenticated.Err? ==> r == Err(Wrapped("authenticate session", authenticated.error))
    ensures cmd.username == "" && authenticated.Ok? ==>
      r == Ok(Session(authenticated.value.username, authenticated.value.accessToken, authenticated.value.uuid))
  {
    if cmd.username != "" then Ok(Session(cmd.username, "", ""))
    else if authenticated.Err? then Err(Wrapped("authenticate session", authenticated.error))
    else Ok(Session(authenticated.value.username, authenticated.value.accessToken, authenticated.value.uuid))
  }

  function OptionsOf(cmd: StartCmd, session: Session, config: LaunchConfig): LaunchOptions
  {
    LaunchOptions(session, config, cmd.server, cmd.demo, cmd.disableMP, cmd.disableChat, false, false)
  }

  /** The command after the preparation: the error of `Prepare`, or the
      stop of `--prepare`, or the debug listing and the launch. */
  function Concluded(cmd: StartCmd, prepared: (Result<LaunchEnvironment>, seq<Event>),
                     goos: string, info: Option<FileInfo>, runner: Runner, verbosity: int): Ran
  {
    var (env, events) := prepared;
    if env.Err? then Ran(Some(env.error), Notices(events), None, false)
    else if cmd.prepare then Ran(None, Notices(events), None, false)
    else
      Ran(Launch(env.value, info, goos, runner), Notices(events),
          if verbosity > 1 then Some(Masked(env.value.gameArgs)) else None, true)
  }

  /** `(*StartCmd).Run`, given the instance `FetchInstance` returns, the
      outcome `auth.Authenticate` would have, the collaborators of
      `Prepare`, what `os.Stat` reports of the Java path and the runner. */
  function Started(cmd: StartCmd, inst: Result<LauncherInstance.InstanceData>, authenticated: Result<PkgAuth.Session>,
                   dirs: Dirs, goos: string, c: Collaborators, info: Option<FileInfo>, runner: Runner, verbosity: int): Ran
  {
    match inst
    case Err(e) => Ran(Some(e), [], None, false)
    case Ok(data) =>
      var config := Overridden(LaunchConfigOf(data.stored.config), cmd.overrides);
      match SessionOf(cmd, authenticated)
      case Err(e) => Ran(Some(e), [], None, false)
      case Ok(session) => Concluded(cmd, Prepared(data, OptionsOf(cmd, session, config), dirs, goos, c), goos, info, runner, verbosity)
  }

  /** The overrides applied to the configuration one field group at a
      time. */
  method ApplyOverrides(config0: LaunchConfig, o: Overrides) returns (config: LaunchConfig)
    ensures config == Overridden(config0, o)
  {
    config := config0;
    if o.width != 0 && o.height != 0 {
      config := config.(width := o.width, height := o.height);
    }
    if o.jvm != "" {
      config := config.(java := o.jvm);
    }
    if o.jvmArgs != "" {
      config := config.(javaArgs := o.jvmArgs);
    }
    if o.minMemory != 0 && o.maxMemory != 0 {
      config := config.(minMemory := o.minMemory, maxMemory := o.maxMemory);
    }
  }

  method Conclude(cmd: StartCmd, env: Result<LaunchEnvironment>, events: seq<Event>,
                  goos: string, info: Option<FileInfo>, runner: Runner, verbosity: int)
    returns (r: Ran)
    ensures r == Concluded(cmd, (env, events), goos, info, runner, verbosity)
  {
    var notices := Notices(events);
    if env.Err? {
      return Ran(Some(env.error), notices, None, false);
    }
    if cmd.prepare {
      return Ran(None, notices, None, false);
    }
    var shown: Option<seq<string>> := None;
    if verbosity > 1 {
      var masked := MaskArgs(env.value.gameArgs);
      assert masked == Masked(env.value.gameArgs);
      shown := Some(masked);
    }
    var err := Launch(env.value, info, goos, runner);
    return Ran(err, notices, shown, true);
  }

  method Start(cmd: StartCmd, inst: Result<LauncherInstance.InstanceData>, authenticated: Result<PkgAuth.Session>,
               dirs: Dirs, goos: string, c: Collaborators, info: Option<FileInfo>, runner: Runner, verbosity: int)
    returns (r: Ran, w: Watcher)
    ensures r == Started(cmd, inst, authenticated, dirs, goos, c, info, runner, verbosity)
    ensures w.verbosity == verbosity && w.State() == Watched(Progress(0, 0, []), r.notices, verbosity)
  {
    w := new Watcher(verbosity);
    if inst.Err? {
      return Ran(Some(inst.error), [], None, false), w;
    }
    var config := ApplyOverrides(LaunchConfigOf(inst.value.stored.config), cmd.overrides);
    var session := Session(cmd.username, "", "");
    if cmd.username == "" {
      if authenticated.Err? {
        return Ran(Some(Wrapped("authenticate session", authenticated.error)), [], None, false), w;
      }
      var s := authenticated.value;
      session := Session(s.username, s.accessToken, s.uuid);
    }
    var env, events := Prepare(inst.value, OptionsOf(cmd, session, config), dirs, goos, c);
    r := Conclude(cmd, env, events, goos, info, runner, verbosity);
    w.HandleAll(r.notices);
  }

  /** Three resolution events followed by download progress against one
      total: the bar has advanced once per progress event, and its maximum
      is that total when there was any. */
  lemma BarOfEvents(events: seq<Event>, total: nat, verbosity: int)
    requires |events| >= 3 && !events[0].Downloading? && !events[1].Downloading? && !events[2].Downloading?
    requires forall i :: 3 <= i < |events| ==> events[i] == Downloading(i - 3, total)
    ensures var bar := Watched(Progress(0, 0, []), Notices(events), verbosity);
      bar.barCount == |events| - 3 && (bar.barCount > 0 ==> bar.barMax == total)
  {
    var ns := Notices(events);
    assert ns == ns[..3] + ns[3..];
    WatchedAppend(Progress(0, 0, []), ns[..3], ns[3..], verbosity);
    var head := ns[..3];
    var q1 := Handled(Progress(0, 0, []), head[0], verbosity);
    var q2 := Handled(q1, head[1], verbosity);
    var q3 := Handled(q2, head[2], verbosity);
    assert head[1..][1..][1..] == [];
    assert Watched(q2, head[1..][1..], verbosity) == Watched(q3, [], verbosity);
    assert Watched(q1, head[1..], verbosity) == Watched(q2, head[1..][1..], verbosity);
    var p3 := Watched(Progress(0, 0, []), head, verbosity);
    assert p3 == q3;
    assert p3.barMax == 0 && p3.barCount == 0;
    forall i | 0 <= i < |ns[3..]|
      ensures ns[3..][i].Reported? && ns[3..][i].e.Downloading? && ns[3..][i].e.total == total
    {
      assert ns[3..][i] == Reported(events[i + 3]);
    }
    WatchedDownloads(p3, ns[3..], total, verbosity);
  }

  /** The progress bar of a successful preparation: it has advanced once
      per download reported, one per download outcome, and when anything
      was downloaded its maximum is the length of the download list. */
  lemma PreparedBar(data: LauncherInstance.InstanceData, options: LaunchOptions, dirs: Dirs, goos: string,
                    c: Collaborators, verbosity: int)
    requires c.version.Ok?
    ensures var (env, events) := Prepared(data, options, dirs, goos, c);
      env.Ok? ==>
        var d := Planned(options, dirs, c).0.value.downloads;
        var bar := Watched(Progress(0, 0, []), Notices(events), verbosity);
        && bar.barCount == (if |d| == 0 then 0 else |c.results(d)|)
        && (bar.barCount > 0 ==> bar.barMax == |d|)
  {
    var prepared := Prepared(data, options, dirs, goos, c);
    PreparedEvents(data, options, dirs, goos, c);
    if prepared.0.Ok? {
      var d := Planned(options, dirs, c).0.value.downloads;
      BarOfEvents(prepared.1, |d|, verbosity);
    }
  }

  /** An offline name never consults the account: the outcome of
      `Authenticate` does not matter, and the session carries only the
      name. */
  lemma OfflineNameSkipsAuthentication(cmd: StartCmd, inst: Result<LauncherInstance.InstanceData>,
                                       a1: Result<PkgAuth.Session>, a2: Result<PkgAuth.Session>,
                                       dirs: Dirs, goos: string, c: Collaborators, info: Option<FileInfo>, runner: Runner, verbosity: int)
    requires cmd.username != ""
    ensures Started(cmd, inst, a1, dirs, goos, c, info, runner, verbosity) == Started(cmd, inst, a2, dirs, goos, c, info, runner, verbosity)
  {
  }

  /** `--prepare` stops after a successful preparation: nothing is run and
      no error is reported. */
  lemma PrepareOnlyNeverLaunches(cmd: StartCmd, inst: Result<LauncherInstance.InstanceData>, authenticated: Result<PkgAuth.Session>,
                                 dirs: Dirs, goos: string, c: Collaborators, info: Option<FileInfo>, runner: Runner, verbosity: int)
    requires cmd.prepare
    ensures var r := Started(cmd, inst, authenticated, dirs, goos, c, info, runner, verbosity);
      !r.launched && r.gameArgsShown.None?
  {
  }
}
