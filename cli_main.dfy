// Root and instance directory resolution of the Deno command line
// (cli/main.ts).
module CliMain {
  import opened Wrappers
  import opened Strs

  /** A POSIX path is absolute when it starts with '/'. */
  predicate IsAbsolute(p: string)
  {
    |p| > 0 && p[0] == '/'
  }

  /** The text a template literal produces for `Deno.env.get("HOME")`: the
      value, or "undefined" when the variable is unset. */
  function HomeText(home: Option<string>): string
  {
    match home
    case Some(h) => h
    case None => "undefined"
  }

  /** `getDirs`: the root (the `--dir` option, by default .minecraft in the
      home directory; a relative one is resolved against the working
      directory) and the instance directory of `version` beneath it. */
  function GetDirs(version: string, dir: Option<string>, home: Option<string>, cwd: string): (r: (string, string))
    ensures r.1 == r.0 + "/instances/" + version
    ensures IsAbsolute(cwd) ==> IsAbsolute(r.0)
  {
    var raw := if dir.Some? then dir.value else HomeText(home) + "/.minecraft";
    var root := if IsAbsolute(raw) then raw else cwd + "/" + raw;
    (root, root + "/instances/" + version)
  }

  /** An absolute `--dir` is used verbatim. */
  lemma GetDirsAbsolute(version: string, dir: string, home: Option<string>, cwd: string)
    requires IsAbsolute(dir)
    ensures GetDirs(version, Some(dir), home, cwd).0 == dir
  {
  }

  /** A relative `--dir` is placed under the working directory. */
  lemma GetDirsRelative(version: string, dir: string, home: Option<string>, cwd: string)
    requires !IsAbsolute(dir)
    ensures GetDirs(version, Some(dir), home, cwd).0 == cwd + "/" + dir
  {
  }

  /** Without `--dir` the root is $HOME/.minecraft for an absolute home. */
  lemma GetDirsDefault(version: string, home: string, cwd: string)
    requires IsAbsolute(home)
    ensures GetDirs(version, None, Some(home), cwd).0 == home + "/.minecraft"
  {
  }

  /** With HOME unset the default root is the relative "undefined/.minecraft",
      which lands under the working directory. */
  lemma GetDirsNoHome(version: string, cwd: string)
    ensures GetDirs(version, None, None, cwd).0 == cwd + "/undefined/.minecraft"
  {
    assert !IsAbsolute("undefined/.minecraft");
  }
}
