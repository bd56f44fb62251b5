// The library record of the early Go metadata as pkg/launcher/libraries.go
// and internal/launcher/libraries.go read it: a name, the Mojang download,
// an optional loader repository URL with checksum and size, and OS rules.
// Both files compute the same artifact and install rule inline; they are
// defined here once.
module EarlyLibrary {
  import opened Strs
  import opened FileSystem
  import opened MetaMinecraft
  import GoUtil

  datatype GoLibrary = GoLibrary(name: string, downloads: Artifact, url: string, sha1: string, size: int, rules: seq<Rule>)

  /** A loader (Fabric) library names a repository instead of a download. */
  predicate IsFabric(l: GoLibrary)
  {
    l.url != ""
  }

  /** The source indexes the first three ':'-fields of a loader library's
      name; anything shorter is a panic there. */
  predicate WellNamed(l: GoLibrary)
  {
    !IsFabric(l) || |Split(l.name, ':')| >= 3
  }

  /** The Maven path both files build inline from a loader library's name:
      it is the one of `GetPathFromMaven` in internal/util.go. */
  function InlinePath(name: string): (p: string)
    requires |Split(name, ':')| >= 3
    ensures p == GoUtil.GetPathFromMaven(name)
  {
    var id := Split(name, ':');
    ReplaceAllChar(id[0], '.', '/');
    assert "." == ['.'] && "/" == ['/'];
    JoinFour(ReplaceAll(id[0], ".", "/"), id[1], id[2], id[1] + "-" + id[2] + ".jar", "/");
    Join([ReplaceAll(id[0], ".", "/"), id[1], id[2], id[1] + "-" + id[2] + ".jar"], "/")
  }

  lemma JoinFour(a: string, b: string, c: string, d: string, sep: string)
    ensures Join([a, b, c, d], sep) == a + sep + b + sep + c + sep + d
  {
    assert [a, b, c, d][1..] == [b, c, d];
    assert [b, c, d][1..] == [c, d];
    assert [c, d][1..] == [d];
    assert Join([c, d], sep) == c + sep + d;
    assert Join([b, c, d], sep) == b + sep + (c + sep + d);
  }

  /** The artifact of a library: the Mojang download, or for a loader
      library the Maven path of its name under its repository, with the
      library's own checksum and size. */
  function LibraryArtifact(l: GoLibrary): (a: Artifact)
    requires WellNamed(l)
    ensures !IsFabric(l) ==> a == l.downloads
    ensures IsFabric(l) ==>
      var path := GoUtil.GetPathFromMaven(l.name);
      a == Artifact(path, l.sha1, l.size, l.url + "/" + path)
  {
    if !IsFabric(l) then l.downloads
    else
      var path := InlinePath(l.name);
      assert [l.url, path][1..] == [path];
      assert Join([l.url, path], "/") == l.url + "/" + path;
      Artifact(path, l.sha1, l.size, Join([l.url, path], "/"))
  }

  /** The install rule of this generation: no rules, or a first rule naming
      the host OS (osx read as darwin) with action "allow". */
  predicate FirstRuleAllows(rules: seq<Rule>, goos: string)
  {
    |rules| == 0 || (OsName(rules[0].osName) == goos && rules[0].action == "allow")
  }

  /** Every library this rule admits is admitted by the current
      generation's rule too. */
  lemma FirstRuleAllowsIsStricter(rules: seq<Rule>, goos: string)
    requires FirstRuleAllows(rules, goos)
    ensures RulesAllow(rules, goos)
  {
  }

  /** Unlike the current generation, a first rule naming no OS admits
      nothing on a named host. */
  lemma EmptyOsRuleRejected(rest: seq<Rule>, goos: string)
    requires goos != ""
    ensures !FirstRuleAllows([Rule("allow", "")] + rest, goos)
    ensures RulesAllow([Rule("allow", "")] + rest, goos)
  {
    assert OsName("") == "";
  }
}
