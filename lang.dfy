// The command-line output translations (internal/cli/output/lang.go): an
// English and a German table, the active table chosen by language tag, and
// a lookup that falls back to the key itself. Each table is the union of
// the source's blank-line-separated sections.
module Lang {
  /** A language tag; only German is told apart from the rest. */
  datatype Tag = English | German | Other(name: string)

  const EnInstance: map<string, string> :=
    map[
      "instance" := "Manage Minecraft instances",
      "auth" := "Manage account authentication",
      "about" := "Display launcher version and about",
      "list" := "List all instances",
      "completions" := "Outputs shell command to install completions"
    ]

  const DeInstance: map<string, string> :=
    map[
      "instance" := "Minecraft-Instanze verwalten",
      "auth" := "Konto-Authentifizierung verwalten",
      "about" := "Version und andere Informationen anzeigen",
      "list" := "Alle Instanze auflisten",
      "completions" := "Befehl ausstoßen, der Tab-Vervollständigungen einrichtet"
    ]

  const EnLogin: map<string, string> :=
    map[
      "login" := "Login in to an account",
      "login.code.fetching" := "Loading device code...",
      "login.code" := "Use the code %s at %s to sign in",
      "login.browser" := "A web browser will be opened to continue authenticatication.",
      "login.url" := "If the browser does not open, please copy and paste this URL into your browser: %s",
      "login.complete" := "Logged in as %s",
      "login.redirect" := "Logged in! You can close this window and return to the launcher.",
      "login.redirectfail" := "Failed to log in: An error occurred during authentication.",
      "login.arg.nobrowser" := "Use device code instead of browser for authentication"
    ]

  const DeLogin: map<string, string> :=
    map[
      "login" := "Anmelden",
      "login.code.fetching" := "Gerätcode laden ...",
      "login.code" := "Verwende den Code %s auf %s, um dich anzumelden.",
      "login.browser" := "Ein Webbrowser wird geöffnet, um Authentifizierung fortzufahren.",
      "login.url" := "Falls der Webbrowser nicht öffnet, öffne diesen URL: %s",
      "login.complete" := "Angemeldet als %s",
      "login.redirect" := "Angemeldet! Du kannst dieses Fenster schließen und zum Launcher zurückkehren.",
      "login.redirectfail" := "Anmeldung fehlgeschlagen: Ein Fehler ist während der Authentifizierung aufgetreten.",
      "login.arg.nobrowser" := "Gerätcode statt Webbrowser für Authentifizierung verwenden."
    ]

  const EnLogout: map<string, string> :=
    map[
      "logout" := "Log out of an account",
      "logout.complete" := "Logged out from account."
    ]

  const DeLogout: map<string, string> :=
    map[
      "logout" := "Abmelden",
      "logout.complete" := "Abgemeldet."
    ]

  const EnCreate: map<string, string> :=
    map[
      "create" := "Create a new instance",
      "create.complete" := "Created instance '%s' with Minecraft %s (%s%s)",
      "create.arg.id" := "Instance name",
      "create.arg.loader" := "Mod loader",
      "create.arg.version" := "Game version",
      "create.arg.loaderversion" := "Mod loader version"
    ]

  const DeCreate: map<string, string> :=
    map[
      "create" := "Neue Instanze erstellen",
      "create.complete" := "Instanz '%s' mit Minecraft %s (%s%s) erstellt",
      "create.arg.id" := "Instanzname",
      "create.arg.loader" := "Mod Loader",
      "create.arg.version" := "Spielversion",
      "create.arg.loaderversion" := "Mod Loader Version"
    ]

  const EnDelete: map<string, string> :=
    map[
      "delete" := "Delete an instance",
      "delete.confirm" := "Are you sure you want to delete this instance?",
      "delete.warning" := "'%s' will be lost forever (a long time!) [y/n] ",
      "delete.complete" := "Deleted instance '%s'",
      "delete.abort" := "Operation aborted",
      "delete.arg.id" := "Instance to delete",
      "delete.arg.yes" := "Assume yes to all questions"
    ]

  const DeDelete: map<string, string> :=
    map[
      "delete" := "Instanze löschen",
      "delete.confirm" := "Bist du sicher, dass du diese Instanz löschen willst?",
      "delete.warning" := "'%s' wird für immer verloren sein (eine lange Zeit!) [y/n] ",
      "delete.complete" := "Instanz '%s' gelöscht",
      "delete.abort" := "Abgebrochen.",
      "delete.arg.id" := "Instanz zum Löschen",
      "delete.arg.yes" := "Zu allen Fragen automatisch zustimmen."
    ]

  const EnRename: map<string, string> :=
    map[
      "rename" := "Rename an instance",
      "rename.complete" := "Renamed instance.",
      "rename.arg.id" := "Instance to rename",
      "rename.arg.new" := "New name for instance"
    ]

  const DeRename: map<string, string> :=
    map[
      "rename" := "Instanze umbenennen",
      "rename.complete" := "Instanz umbennant.",
      "rename.arg.id" := "Instanz zum Umbenennen",
      "rename.arg.new" := "Neuen Name für die Instanz"
    ]

  const EnSearch: map<string, string> :=
    map[
      "search" := "Search versions",
      "search.complete" := "Found %d entries",
      "search.table.version" := "Version",
      "search.table.type" := "Type",
      "search.table.date" := "Release Date",
      "search.table.name" := "Name",
      "search.arg.query" := "Search query",
      "search.arg.kind" := "What to search for",
      "search.arg.reverse" := "Reverse the listing"
    ]

  const DeSearch: map<string, string> :=
    map[
      "search" := "Versionen suchen",
      "search.complete" := "%d Ergebnise gefunden",
      "search.table.version" := "Version",
      "search.table.type" := "Typ",
      "search.table.date" := "Veröffentlicht am",
      "search.table.name" := "Name",
      "search.arg.query" := "Suchanfrage",
      "search.arg.kind" := "Suchtyp",
      "search.arg.reverse" := "Liste umgekehrt anzeigen"
    ]

  const EnStartFlags: map<string, string> :=
    map[
      "start" := "Start the specified instance",
      "start.arg.id" := "Instance to launch",
      "start.arg.verbose" := "Increase verbosity",
      "start.arg.username" := "Set username (offline mode)",
      "start.arg.server" := "Join a server upon starting the game",
      "start.arg.world" := "Join a world upon starting the game",
      "start.arg.demo" := "Start the game in demo mode",
      "start.arg.disablemp" := "Disable multiplayer",
      "start.arg.disablechat" := "Disable chat"
    ]

  const DeStartFlags: map<string, string> :=
    map[
      "start" := "Instanze starten",
      "start.arg.id" := "Instanz zum Starten",
      "start.arg.username" := "Benutzername (Offlinemodus)",
      "start.arg.server" := "Einem Server beim Spielstart beitreten",
      "start.arg.world" := "Einer Welt beim Spielstart beitreten ",
      "start.arg.demo" := "Spiel im Testmodus starten",
      "start.arg.disablemp" := "Mehrspielermodus deaktivieren",
      "start.arg.disablechat" := "Chat deaktivieren"
    ]

  const EnStartOptions: map<string, string> :=
    map[
      "start.arg.width" := "Game window width",
      "start.arg.height" := "Game window height",
      "start.arg.jvm" := "Path to the JVM",
      "start.arg.jvmargs" := "Extra JVM arguments",
      "start.arg.minmemory" := "Minimum memory",
      "start.arg.maxmemory" := "Maximum memory",
      "start.arg.prepare" := "Install all necessary resources but do not start the game.",
      "start.arg.opts" := "Game Options",
      "start.arg.overrides" := "Configuration Overrides"
    ]

  const DeStartOptions: map<string, string> :=
    map[
      "start.arg.width" := "Spielfensterbreite",
      "start.arg.height" := "Spielfensterhöhe",
      "start.arg.jvm" := "JVM-Pfad",
      "start.arg.jvmargs" := "JVM Argumente",
      "start.arg.minmemory" := "Minimale Arbeitsspeicherauslastung",
      "start.arg.maxmemory" := "Maximale Arbeitsspeicherauslastung",
      "start.arg.prepare" := "Alle gebrauchten Spielressourcen herunterladen, aber das Spiel nicht starten.",
      "start.arg.opts" := "Spieleinstellungen",
      "start.arg.overrides" := "Konfigurationüberschreibungen"
    ]

  const EnStartRun: map<string, string> :=
    map[
      "start.prepared" := "Game prepared successfully.",
      "start.processing" := "Post processors are being run. This may take some time.",
      "start.launch.downloading" := "Downloading files",
      "start.launch.assets" := "Identified %d assets",
      "start.launch.libraries" := "Identified %d libraries",
      "start.launch.metadata" := "Version metadata retrieved",
      "start.launch.jvmargs" := "JVM arguments: %s",
      "start.launch.gameargs" := "Game arguments: %s",
      "start.launch.info" := "Starting main class %q. Game directory is %q.",
      "start.launch" := "Launching game as %s"
    ]

  const DeStartRun: map<string, string> :=
    map[
      "start.prepared" := "Spiel erfolgreich vorbereitet.",
      "start.processing" := "Nachbearbeitungen sind jetzt im Gange. Das kann einige Zeit dauern.",
      "start.launch.downloading" := "Dateien herunterladen ...",
      "start.launch.assets" := "%d Ressourcen identifiziert",
      "start.launch.libraries" := "%d Bibliotheken identifiziert",
      "start.launch.metadata" := "Versiondaten heruntergeladen",
      "start.launch.jvmargs" := "JVM Argumente: %s",
      "start.launch.gameargs" := "Spielargumente: %s",
      "start.launch.info" := "Hauptklasse %q wird gestartet. Spielverzeichnis ist %q.",
      "start.launch" := "Spiel als %s starten ..."
    ]

  const EnFlags: map<string, string> :=
    map[
      "arg.verbosity" := "Increase launcher output verbosity",
      "arg.dir" := "Root directory for launcher files",
      "arg.nocolor" := "Disable all color output. The NO_COLOR environment variable is also supported."
    ]

  const DeFlags: map<string, string> :=
    map[
      "arg.verbosity" := "Gesprächigkeit ändern",
      "arg.dir" := "Wurzelverzeichnis für Launcherdateien",
      "arg.nocolor" := "Farben nicht anzeigen. Die NO_COLOR Umgebungsvariable kann auch benutzt werden."
    ]

  const EnTips: map<string, string> :=
    map[
      "tip.internet" := "Check your internet connection.",
      "tip.cache" := "Remote resources were not cached and were unable to be retrieved. Check your Internet connection.",
      "tip.configure" := "Configure this instance with the `instance.toml` file within the instance directory.",
      "tip.nojvm" := "If a Mojang-provided JVM is not available, you can install it yourself and set the path to the Java executable in the instance configuration.",
      "tip.noaccount" := "To launch in offline mode, use the --username (-u) flag."
    ]

  const DeTips: map<string, string> :=
    map[
      "tip.internet" := "Stell sicher, dass deine Internetverbindung funktioniert.",
      "tip.cache" := "Onlineressourcen waren nicht im Cache und konnten nicht heruntergeladen werden. Überprüfe deine Internetverbindung.",
      "tip.configure" := "Die Einstellungen dieser Instanz können in der `instance.toml` Datei im Instanzverzeichnis angepasst werden.",
      "tip.nojvm" := "Falls ein JVM von Mojang nicht verfügbar ist, kannst du es selbst installieren und den Pfad zur Java Datei in der Instanzkonfiguration einstellen.",
      "tip.noaccount" := "Um in Offlinemodus zu starten, verwende den --username (-u) Parameter."
    ]

  const EnAbout: map<string, string> :=
    map[
      "launcher.description" := "A minimal command-line Minecraft launcher.",
      "launcher.license" := "Licensed MIT",
      "launcher.copyright" := "Copyright 2024-2025 telecter",
      "launcher.error" := "Error",
      "launcher.warning" := "Warning",
      "launcher.debug" := "Debug",
      "launcher.tip" := "Tip"
    ]

  const DeAbout: map<string, string> :=
    map[
      "launcher.description" := "Ein minimalisticher Minecraft Launcher für die Command Line.",
      "launcher.license" := "MIT-Lizenz",
      "launcher.copyright" := "Copyright 2024-2025 telecter",
      "launcher.error" := "Fehler",
      "launcher.warning" := "Warnung",
      "launcher.debug" := "Debug",
      "launcher.tip" := "Tip"
    ]

  const EnAccount: map<string, string> := EnInstance + EnLogin + EnLogout + EnCreate
  const DeAccount: map<string, string> := DeInstance + DeLogin + DeLogout + DeCreate

  const EnInstances: map<string, string> := EnDelete + EnRename + EnSearch
  const DeInstances: map<string, string> := DeDelete + DeRename + DeSearch

  const EnStart: map<string, string> := EnStartFlags + EnStartOptions + EnStartRun
  const DeStart: map<string, string> := DeStartFlags + DeStartOptions + DeStartRun

  const EnGeneral: map<string, string> := EnFlags + EnTips + EnAbout
  const DeGeneral: map<string, string> := DeFlags + DeTips + DeAbout

  const EnCommands: map<string, string> := EnAccount + EnInstances
  const DeCommands: map<string, string> := DeAccount + DeInstances
  const EnLaunch: map<string, string> := EnStart + EnGeneral
  const DeLaunch: map<string, string> := DeStart + DeGeneral

  const En: map<string, string> := EnCommands + EnLaunch

  const De: map<string, string> := DeCommands + DeLaunch

  /** The table a language tag selects: German for German, English for
      every other tag. */
  function Table(tag: Tag, en: map<string, string>, de: map<string, string>): (t: map<string, string>)
    ensures tag == German ==> t == de
    ensures tag != German ==> t == en
  {
    if tag == German then de else en
  }

  /** The package-level active table, between the two tables it chooses
      from (`En` and `De` in the program). */
  class Output {
    const en: map<string, string>
    const de: map<string, string>
    var lang: map<string, string>

    /** Before any language is set the English table is active. */
    constructor (en: map<string, string>, de: map<string, string>)
      ensures this.en == en && this.de == de
      ensures lang == en
    {
      this.en := en;
      this.de := de;
      lang := en;
    }

    predicate Valid()
      reads this
    {
      lang == en || lang == de
    }

    /** `SetLang(tag)`: German selects the German table, every other tag the
        English one. */
    method SetLang(tag: Tag)
      modifies this
      ensures lang == Table(tag, en, de)
      ensures Valid()
    {
      lang := if tag == German then de else en;
    }

    /** `Translations()`: the active table. */
    function Translations(): (t: map<string, string>)
      reads this
      ensures Valid() ==> t == en || t == de
    {
      lang
    }

    /** `Translate(key)`: the active table's text, or the key itself when the
        table has no entry. */
    function Translate(key: string): (r: string)
      reads this
      ensures key in lang ==> r == lang[key]
      ensures key !in lang ==> r == key
    {
      if key in lang then lang[key] else key
    }
  }

  /** The one key only the English table has. */
  const V := "start.arg.verbose"

  /** No text of the table is empty. */
  ghost predicate Texts(m: map<string, string>)
  {
    forall k :: k in m ==> m[k] != ""
  }

  /** A union of tables without empty texts has none. */
  lemma Union(a: map<string, string>, b: map<string, string>)
    requires Texts(a) && Texts(b)
    ensures Texts(a + b)
  {
  }

  /** Two sections whose German keys are the English ones but `V` keep that
      shape when joined. */
  lemma Join(a: map<string, string>, b: map<string, string>, c: map<string, string>, d: map<string, string>)
    requires c.Keys == a.Keys - {V} && d.Keys == b.Keys - {V}
    ensures (c + d).Keys == (a + b).Keys - {V}
  {
  }

  lemma SectionInstance()
    ensures DeInstance.Keys == EnInstance.Keys - {V}
    ensures V !in DeInstance
    ensures V !in EnInstance
    ensures Texts(EnInstance) && Texts(DeInstance)
  {
  }

  lemma SectionLogin()
    ensures DeLogin.Keys == EnLogin.Keys - {V}
    ensures V !in DeLogin
    ensures V !in EnLogin
    ensures Texts(EnLogin) && Texts(DeLogin)
  {
  }

  lemma SectionLogout()
    ensures DeLogout.Keys == EnLogout.Keys - {V}
    ensures V !in DeLogout
    ensures V !in EnLogout
    ensures Texts(EnLogout) && Texts(DeLogout)
  {
  }

  lemma SectionCreate()
    ensures DeCreate.Keys == EnCreate.Keys - {V}
    ensures V !in DeCreate
    ensures V !in EnCreate
    ensures Texts(EnCreate) && Texts(DeCreate)
  {
  }

  lemma SectionDelete()
    ensures DeDelete.Keys == EnDelete.Keys - {V}
    ensures V !in DeDelete
    ensures V !in EnDelete
    ensures Texts(EnDelete) && Texts(DeDelete)
  {
  }

  lemma SectionRename()
    ensures DeRename.Keys == EnRename.Keys - {V}
    ensures V !in DeRename
    ensures V !in EnRename
    ensures Texts(EnRename) && Texts(DeRename)
  {
  }

  lemma SectionSearch()
    ensures DeSearch.Keys == EnSearch.Keys - {V}
    ensures V !in DeSearch
    ensures V !in EnSearch
    ensures Texts(EnSearch) && Texts(DeSearch)
  {
  }

  lemma SectionStartFlags()
    ensures DeStartFlags.Keys == EnStartFlags.Keys - {V}
    ensures V !in DeStartFlags
    ensures V in EnStartFlags && EnStartFlags[V] == "Increase verbosity"
    ensures Texts(EnStartFlags) && Texts(DeStartFlags)
  {
  }

  lemma SectionStartOptions()
    ensures DeStartOptions.Keys == EnStartOptions.Keys - {V}
    ensures V !in DeStartOptions
    ensures V !in EnStartOptions
    ensures Texts(EnStartOptions) && Texts(DeStartOptions)
  {
  }

  lemma SectionStartRun()
    ensures DeStartRun.Keys == EnStartRun.Keys - {V}
    ensures V !in DeStartRun
    ensures V !in EnStartRun
    ensures Texts(EnStartRun) && Texts(DeStartRun)
  {
  }

  lemma SectionFlags()
    ensures DeFlags.Keys == EnFlags.Keys - {V}
    ensures V !in DeFlags
    ensures V !in EnFlags
    ensures Texts(EnFlags) && Texts(DeFlags)
  {
  }

  lemma SectionTips()
    ensures DeTips.Keys == EnTips.Keys - {V}
    ensures V !in DeTips
    ensures V !in EnTips
    ensures Texts(EnTips) && Texts(DeTips)
  {
  }

  lemma SectionAbout()
    ensures DeAbout.Keys == EnAbout.Keys - {V}
    ensures V !in DeAbout
    ensures V !in EnAbout
    ensures Texts(EnAbout) && Texts(DeAbout)
  {
  }

  lemma EnAccountTexts()
    ensures Texts(EnAccount)
    ensures V !in EnAccount
  {
    SectionInstance();
    SectionLogin();
    SectionLogout();
    SectionCreate();
    Union(EnInstance, EnLogin);
    Union(EnInstance + EnLogin, EnLogout);
    Union(EnInstance + EnLogin + EnLogout, EnCreate);
  }

  lemma DeAccountTexts()
    ensures Texts(DeAccount)
    ensures V !in DeAccount
  {
    SectionInstance();
    SectionLogin();
    SectionLogout();
    SectionCreate();
    Union(DeInstance, DeLogin);
    Union(DeInstance + DeLogin, DeLogout);
    Union(DeInstance + DeLogin + DeLogout, DeCreate);
  }

  lemma KeysAccount()
    ensures DeAccount.Keys == EnAccount.Keys - {V}
  {
    SectionInstance();
    SectionLogin();
    SectionLogout();
    SectionCreate();
    Join(EnInstance, EnLogin, DeInstance, DeLogin);
    Join(EnInstance + EnLogin, EnLogout, DeInstance + DeLogin, DeLogout);
    Join(EnInstance + EnLogin + EnLogout, EnCreate, DeInstance + DeLogin + DeLogout, DeCreate);
  }

  lemma EnInstancesTexts()
    ensures Texts(EnInstances)
    ensures V !in EnInstances
  {
    SectionDelete();
    SectionRename();
    SectionSearch();
    Union(EnDelete, EnRename);
    Union(EnDelete + EnRename, EnSearch);
  }

  lemma DeInstancesTexts()
    ensures Texts(DeInstances)
    ensures V !in DeInstances
  {
    SectionDelete();
    SectionRename();
    SectionSearch();
    Union(DeDelete, DeRename);
    Union(DeDelete + DeRename, DeSearch);
  }

  lemma KeysInstances()
    ensures DeInstances.Keys == EnInstances.Keys - {V}
  {
    SectionDelete();
    SectionRename();
    SectionSearch();
    Join(EnDelete, EnRename, DeDelete, DeRename);
    Join(EnDelete + EnRename, EnSearch, DeDelete + DeRename, DeSearch);
  }

  lemma EnStartTexts()
    ensures Texts(EnStart)
    ensures V in EnStart && EnStart[V] == "Increase verbosity"
  {
    SectionStartFlags();
    SectionStartOptions();
    SectionStartRun();
    Union(EnStartFlags, EnStartOptions);
    Union(EnStartFlags + EnStartOptions, EnStartRun);
  }

  lemma DeStartTexts()
    ensures Texts(DeStart)
    ensures V !in DeStart
  {
    SectionStartFlags();
    SectionStartOptions();
    SectionStartRun();
    Union(DeStartFlags, DeStartOptions);
    Union(DeStartFlags + DeStartOptions, DeStartRun);
  }

  lemma KeysStart()
    ensures DeStart.Keys == EnStart.Keys - {V}
  {
    SectionStartFlags();
    SectionStartOptions();
    SectionStartRun();
    Join(EnStartFlags, EnStartOptions, DeStartFlags, DeStartOptions);
    Join(EnStartFlags + EnStartOptions, EnStartRun, DeStartFlags + DeStartOptions, DeStartRun);
  }

  lemma EnGeneralTexts()
    ensures Texts(EnGeneral)
    ensures V !in EnGeneral
  {
    SectionFlags();
    SectionTips();
    SectionAbout();
    Union(EnFlags, EnTips);
    Union(EnFlags + EnTips, EnAbout);
  }

  lemma DeGeneralTexts()
    ensures Texts(DeGeneral)
    ensures V !in DeGeneral
  {
    SectionFlags();
    SectionTips();
    SectionAbout();
    Union(DeFlags, DeTips);
    Union(DeFlags + DeTips, DeAbout);
  }

  lemma KeysGeneral()
    ensures DeGeneral.Keys == EnGeneral.Keys - {V}
  {
    SectionFlags();
    SectionTips();
    SectionAbout();
    Join(EnFlags, EnTips, DeFlags, DeTips);
    Join(EnFlags + EnTips, EnAbout, DeFlags + DeTips, DeAbout);
  }

  /** The English table: no empty text, and the verbosity flag reads
      "Increase verbosity". */
  lemma EnglishTable()
    ensures Texts(En)
    ensures V in En && En[V] == "Increase verbosity"
  {
    EnAccountTexts();
    EnInstancesTexts();
    EnStartTexts();
    EnGeneralTexts();
    Union(EnAccount, EnInstances);
    Union(EnStart, EnGeneral);
    Union(EnCommands, EnLaunch);
  }

  /** The German table: no empty text, and no verbosity flag. */
  lemma GermanTable()
    ensures Texts(De)
    ensures V !in De
  {
    DeAccountTexts();
    DeInstancesTexts();
    DeStartTexts();
    DeGeneralTexts();
    Union(DeAccount, DeInstances);
    Union(DeStart, DeGeneral);
    Union(DeCommands, DeLaunch);
  }

  /** The German table has exactly the English keys but the verbosity
      flag's. */
  lemma KeysCommands()
    ensures DeCommands.Keys == EnCommands.Keys - {V}
  {
    KeysAccount();
    KeysInstances();
    Join(EnAccount, EnInstances, DeAccount, DeInstances);
  }

  lemma KeysLaunch()
    ensures DeLaunch.Keys == EnLaunch.Keys - {V}
  {
    KeysStart();
    KeysGeneral();
    Join(EnStart, EnGeneral, DeStart, DeGeneral);
  }

  lemma GermanKeys()
    ensures De.Keys == En.Keys - {V}
  {
    KeysCommands();
    KeysLaunch();
    Join(EnCommands, EnLaunch, DeCommands, DeLaunch);
  }

  /** Over tables without empty texts, a non-empty key never translates to
      an empty text: either the table's text or the key comes back. */
  lemma TranslateNeverEmpty(o: Output, key: string)
    requires o.Valid() && Texts(o.en) && Texts(o.de)
    requires key != ""
    ensures o.Translate(key) != ""
  {
  }

  /** Under the German table the verbosity flag's key comes back rather than
      the English text. */
  lemma GermanMissesVerbose(o: Output)
    requires o.lang == De
    ensures o.Translate(V) == "start.arg.verbose"
  {
    GermanTable();
  }

  /** Under the English table the verbosity flag reads "Increase
      verbosity". */
  lemma EnglishHasVerbose(o: Output)
    requires o.lang == En
    ensures o.Translate(V) == "Increase verbosity"
  {
    EnglishTable();
  }
}
