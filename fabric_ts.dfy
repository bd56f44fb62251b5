// Fabric support of the Deno generation (fabric.ts): the path of a library
// name (only the first '.' of the name becomes '/', with a special case for
// org.ow2.asm), the existence-gated library download, and the loader
// profile lookup.
module FabricTs {
  import opened Wrappers
  import opened Strs
  import opened FileSystem
  import opened Web
  import opened DenoFs
  import GoUtil

  /** `dir[i]` of a JavaScript array: "undefined" past the end, as it prints
      inside a template literal. */
  function Field(dir: seq<string>, i: nat): string
  {
    if i < |dir| then dir[i] else "undefined"
  }

  /** The ':'-fields of the name after its first '.' became '/'. */
  function Fields(mavenPath: string): seq<string>
  {
    Split(ReplaceFirstChar(mavenPath, '.', '/'), ':')
  }

  /** The fields joined with '/', then "/artifact-version.jar". */
  function Unrewritten(dir: seq<string>): string
  {
    Join(dir, "/") + "/" + (Field(dir, 1) + "-" + Field(dir, 2) + ".jar")
  }

  /** `getPathFromMaven`: the first '.' of the whole name becomes '/', the
      ':'-fields are joined with '/', then "/artifact-version.jar" follows;
      finally the first "ow2.asm" becomes "ow2/asm". */
  function GetPathFromMaven(mavenPath: string): string
  {
    ReplaceFirst(Unrewritten(Fields(mavenPath)), "ow2.asm", "ow2/asm")
  }

  lemma SplitThree(x: string, a: string, v: string)
    requires ':' !in x && ':' !in a && ':' !in v
    ensures Split(x + ":" + a + ":" + v, ':') == [x, a, v]
    ensures Join([x, a, v], "/") == x + "/" + a + "/" + v
  {
    assert x + ":" + a + ":" + v == x + [':'] + (a + [':'] + v);
    SplitAtSeparator(x, a + [':'] + v, ':');
    SplitAtSeparator(a, v, ':');
    SplitNoSeparator(v, ':');
    assert Join([x, a, v], "/") == x + "/" + Join([a, v], "/");
    assert Join([a, v], "/") == a + "/" + Join([v], "/");
  }

  /** The directory layout group/artifact/version/artifact-version.jar. */
  function Layout(group: string, a: string, v: string): string
  {
    group + "/" + a + "/" + v + "/" + (a + "-" + v + ".jar")
  }

  /** The path before the "ow2.asm" rewrite, for a group g1.rest. */
  lemma PathBeforeRewrite(g1: string, rest: string, a: string, v: string)
    requires '.' !in g1 && ':' !in g1 && ':' !in rest && ':' !in a && ':' !in v
    ensures Unrewritten(Fields(g1 + "." + rest + ":" + a + ":" + v)) == Layout(g1 + "/" + rest, a, v)
  {
    var tail := rest + ":" + a + ":" + v;
    var x := g1 + "/" + rest;
    assert g1 + "." + rest + ":" + a + ":" + v == g1 + ['.'] + tail;
    ReplaceFirstCharAt(g1, tail, '.', '/');
    assert g1 + ['/'] + tail == x + ":" + a + ":" + v;
    SplitThree(x, a, v);
  }

  /** The Go helper's path for a three-field name. */
  lemma GoLayout(x: string, a: string, v: string)
    requires ':' !in x && ':' !in a && ':' !in v
    ensures |Split(x + ":" + a + ":" + v, ':')| >= 3
    ensures GoUtil.GetPathFromMaven(x + ":" + a + ":" + v) == Layout(ReplaceChar(x, '.', '/'), a, v)
  {
    SplitThree(x, a, v);
  }

  /** For a group with exactly one '.', the path is the one the Go helper
      computes, unless that path contains "ow2.asm". */
  lemma OneDotGroupAgrees(g1: string, g2: string, a: string, v: string)
    requires '.' !in g1 && '.' !in g2
    requires ':' !in g1 && ':' !in g2 && ':' !in a && ':' !in v
    requires !Contains(Layout(g1 + "/" + g2, a, v), "ow2.asm")
    ensures var s := g1 + "." + g2 + ":" + a + ":" + v;
      |Split(s, ':')| >= 3 && GetPathFromMaven(s) == GoUtil.GetPathFromMaven(s)
  {
    PathBeforeRewrite(g1, g2, a, v);
    ReplaceFirstAbsent(Layout(g1 + "/" + g2, a, v), "ow2.asm", "ow2/asm");
    GoLayout(g1 + "." + g2, a, v);
    DotToSlash(g1, g2);
    ReplaceCharNone(g1, '.', '/');
    ReplaceCharNone(g2, '.', '/');
  }

  /** Every '.' of a dotted name becomes '/' in the Go helper. */
  lemma DotToSlash(x: string, y: string)
    ensures ReplaceChar(x + "." + y, '.', '/') == ReplaceChar(x, '.', '/') + "/" + ReplaceChar(y, '.', '/')
  {
    ReplaceCharAppend(x + ".", y, '.', '/');
    ReplaceCharAppend(x, ".", '.', '/');
    assert ReplaceChar(".", '.', '/') == "/";
  }

  /** With two dots in the group only the first becomes '/', while the Go
      helper turns both into '/'. */
  lemma TwoDotGroupDiverges(g1: string, g2: string, g3: string, a: string, v: string)
    requires '.' !in g1 && '.' !in g2 && '.' !in g3
    requires ':' !in g1 && ':' !in g2 && ':' !in g3 && ':' !in a && ':' !in v
    requires !Contains(Layout(g1 + "/" + g2 + "." + g3, a, v), "ow2.asm")
    ensures var s := g1 + "." + g2 + "." + g3 + ":" + a + ":" + v;
      && GetPathFromMaven(s) == Layout(g1 + "/" + g2 + "." + g3, a, v)
      && |Split(s, ':')| >= 3
      && GoUtil.GetPathFromMaven(s) == Layout(g1 + "/" + g2 + "/" + g3, a, v)
      && GetPathFromMaven(s) != GoUtil.GetPathFromMaven(s)
  {
    Regroup(g1, g2, g3, a, v);
    PathBeforeRewrite(g1, g2 + "." + g3, a, v);
    ReplaceFirstAbsent(Layout(g1 + "/" + g2 + "." + g3, a, v), "ow2.asm", "ow2/asm");
    GoLayout(g1 + "." + g2 + "." + g3, a, v);
    DotToSlash(g1 + "." + g2, g3);
    DotToSlash(g1, g2);
    ReplaceCharNone(g1, '.', '/');
    ReplaceCharNone(g2, '.', '/');
    ReplaceCharNone(g3, '.', '/');
    LayoutsDiffer(g1, g2, g3, a, v);
  }

  /** The two-dot name read as group head g1 and rest g2.g3. */
  lemma Regroup(g1: string, g2: string, g3: string, a: string, v: string)
    ensures g1 + "." + g2 + "." + g3 + ":" + a + ":" + v == g1 + "." + (g2 + "." + g3) + ":" + a + ":" + v
    ensures g1 + "/" + (g2 + "." + g3) == g1 + "/" + g2 + "." + g3
  {
  }

  /** The two layouts differ at the second separator of the group. */
  lemma LayoutsDiffer(g1: string, g2: string, g3: string, a: string, v: string)
    ensures Layout(g1 + "/" + g2 + "." + g3, a, v) != Layout(g1 + "/" + g2 + "/" + g3, a, v)
  {
    var k := |g1| + 1 + |g2|;
    assert Layout(g1 + "/" + g2 + "." + g3, a, v)[k] == '.';
    assert Layout(g1 + "/" + g2 + "/" + g3, a, v)[k] == '/';
  }

  /** The ASM libraries (group org.ow2.asm, two dots) are rescued by the
      "ow2.asm" rewrite: their path is the Maven layout of the group
      org/ow2/asm. */
  lemma AsmGroup(a: string, v: string)
    requires ':' !in a && ':' !in v
    ensures GetPathFromMaven("org.ow2.asm" + ":" + a + ":" + v) == Layout("org/ow2/asm", a, v)
  {
    var rest := "/" + a + "/" + v + "/" + (a + "-" + v + ".jar");
    assert "org.ow2.asm" + ":" + a + ":" + v == "org" + "." + "ow2.asm" + ":" + a + ":" + v;
    PathBeforeRewrite("org", "ow2.asm", a, v);
    AsmLayouts(a, v, rest);
    AsmRewrite(rest);
  }

  // Both layouts split after "org/".
  lemma AsmLayouts(a: string, v: string, rest: string)
    requires rest == "/" + a + "/" + v + "/" + (a + "-" + v + ".jar")
    ensures Layout("org" + "/" + "ow2.asm", a, v) == "org/" + ("ow2.asm" + rest)
    ensures Layout("org/ow2/asm", a, v) == "org/" + ("ow2/asm" + rest)
  {
    assert "org" + "/" + "ow2.asm" == "org/" + "ow2.asm";
    assert "org/ow2/asm" == "org/" + "ow2/asm";
  }

  // The first "ow2.asm" of org/ow2.asm<rest> is the one after "org/".
  lemma AsmRewrite(rest: string)
    ensures ReplaceFirst("org/" + ("ow2.asm" + rest), "ow2.asm", "ow2/asm") == "org/" + ("ow2/asm" + rest)
  {
    var pat := "ow2.asm";
    var y := pat + rest;
    var s := "org/" + y;
    assert s[1] == 'r' && s[2] == 'g' && s[3] == '/';
    forall i | 0 <= i < 4
      ensures !HasPrefix(s[i..], pat)
    {
      if i == 0 {
        assert s[i..][1] != pat[1];
      } else {
        assert s[i..][0] != pat[0];
      }
    }
    ReplaceFirstAfter("org/", y, pat, "ow2/asm");
    assert HasPrefix(y, pat);
    assert y[|pat|..] == rest;
  }

  const FabricMavenURL := "https://maven.fabricmc.net/"

  /** `fetchFabricLibrary`: the library is downloaded from the Fabric Maven
      repository into <rootDir>/libraries/<path> only when nothing exists
      there; its local path is returned either way. */
  method FetchFabricLibrary(disk: Disk, web: Client, name: string, rootDir: string) returns (r: Result<string>)
    modifies disk
    ensures var fsPath := rootDir + "/libraries/" + GetPathFromMaven(name);
      && (r.Ok? ==> r.value == fsPath)
      && (old(disk.Exists(fsPath)) ==> r == Ok(fsPath) && disk.files == old(disk.files))
      && (!old(disk.Exists(fsPath)) ==>
            var url := FabricMavenURL + GetPathFromMaven(name);
            && (web(url).Err? ==> r == Err(web(url).error) && disk.files == old(disk.files))
            && (web(url).Ok? ==> r == Ok(fsPath) && disk.files == old(disk.files)[fsPath := web(url).value.body]))
  {
    var path := GetPathFromMaven(name);
    var fsPath := rootDir + "/libraries/" + path;
    if !Exists(disk, fsPath) {
      var err := Download(disk, web, FabricMavenURL + path, fsPath);
      if err.Some? {
        return Err(err.value);
      }
    }
    return Ok(fsPath);
  }

  const LoaderListURL := "https://meta.fabricmc.net/v2/versions/loader/1.20.4"

  function ProfileURL(gameVersion: string, loaderVersion: string): string
  {
    "https://meta.fabricmc.net/v2/versions/loader/" + gameVersion + "/" + loaderVersion + "/profile/json"
  }

  /** `getFabricMeta`: the loader list is always the one for game version
      1.20.4, whatever version is asked for; the profile is that of its
      first loader for the requested game version. An empty list fails. */
  function GetFabricMeta<T>(web: Client, gameVersion: string, listJson: Bytes -> Result<seq<string>>, profileJson: Bytes -> Result<T>): (r: Result<T>)
    ensures r.Ok? ==>
      && web(LoaderListURL).Ok? && listJson(web(LoaderListURL).value.body).Ok?
      && |listJson(web(LoaderListURL).value.body).value| > 0
      && var first := listJson(web(LoaderListURL).value.body).value[0];
      web(ProfileURL(gameVersion, first)).Ok? && r == profileJson(web(ProfileURL(gameVersion, first)).value.body)
    ensures web(LoaderListURL).Ok? && listJson(web(LoaderListURL).value.body) == Ok([]) ==>
      r == Err("TypeError: Cannot read properties of undefined (reading 'loader')")
  {
    var listResp := web(LoaderListURL);
    if listResp.Err? then Err(listResp.error)
    else
      var list := listJson(listResp.value.body);
      if list.Err? then Err(list.error)
      else if |list.value| == 0 then Err("TypeError: Cannot read properties of undefined (reading 'loader')")
      else
        var resp := web(ProfileURL(gameVersion, list.value[0]));
        if resp.Err? then Err(resp.error) else profileJson(resp.value.body)
  }
}
