// Maven coordinates (internal/meta/maven.go): the specifier
// group:artifact:version[:classifier], its string form, its repository path
// and its JSON form.
module Maven {
  import opened Wrappers
  import opened Strs

  const MavenRepoURL := "https://repo.maven.apache.org/maven2"

  datatype LibrarySpecifier = LibrarySpecifier(group: string, artifact: string, version: string, classifier: string)

  /** No field contains the ':' separator, so the string form is unambiguous. */
  predicate ColonFree(spec: LibrarySpecifier)
  {
    ':' !in spec.group && ':' !in spec.artifact && ':' !in spec.version && ':' !in spec.classifier
  }

  function Fields(spec: LibrarySpecifier): seq<string>
  {
    [spec.group, spec.artifact, spec.version] + (if spec.classifier != "" then [spec.classifier] else [])
  }

  /** `LibrarySpecifier.String`: the fields joined with ':', the classifier
      only when it is non-empty. */
  function String(spec: LibrarySpecifier): (s: string)
    ensures spec.classifier == "" ==> s == spec.group + ":" + spec.artifact + ":" + spec.version
    ensures spec.classifier != "" ==> s == spec.group + ":" + spec.artifact + ":" + spec.version + ":" + spec.classifier
  {
    var f := Fields(spec);
    assert f[1..] == Fields(spec)[1..];
    if spec.classifier == "" then
      assert Join(f, ":") == f[0] + ":" + Join(f[1..], ":");
      assert Join(f[1..], ":") == f[1] + ":" + Join(f[2..], ":");
      Join(f, ":")
    else
      assert Join(f, ":") == f[0] + ":" + Join(f[1..], ":");
      assert Join(f[1..], ":") == f[1] + ":" + Join(f[2..], ":");
      assert Join(f[2..], ":") == f[2] + ":" + Join(f[3..], ":");
      Join(f, ":")
  }

  /** `NewLibrarySpecifier`: fewer than three ':'-separated fields is an
      error; fields 0 to 2 are group, artifact and version, field 3 (if any)
      the classifier, and later fields are dropped. */
  function NewLibrarySpecifier(s: string): (r: Result<LibrarySpecifier>)
    ensures r.Err? <==> |Split(s, ':')| < 3
    ensures r.Err? ==> r.error == "specifier too short"
    ensures r.Ok? ==> ColonFree(r.value)
    ensures r.Ok? ==> Split(s, ':')[..3] == [r.value.group, r.value.artifact, r.value.version]
    ensures r.Ok? ==> r.value.classifier == (if |Split(s, ':')| > 3 then Split(s, ':')[3] else "")
  {
    var p := Split(s, ':');
    if |p| < 3 then Err("specifier too short")
    else Ok(LibrarySpecifier(p[0], p[1], p[2], if |p| > 3 then p[3] else ""))
  }

  /** Parsing the string form of a specifier whose fields contain no ':'
      gives the specifier back. */
  lemma {:induction false} ParseOfString(spec: LibrarySpecifier)
    requires ColonFree(spec)
    ensures NewLibrarySpecifier(String(spec)) == Ok(spec)
  {
    var f := Fields(spec);
    SplitOfJoin(f, ':');
  }

  /** The string form of a parsed three-field string, or of a four-field
      string with a non-empty classifier, is the input itself. */
  lemma {:induction false} StringOfParse(s: string)
    requires |Split(s, ':')| == 3 || (|Split(s, ':')| == 4 && Split(s, ':')[3] != "")
    ensures NewLibrarySpecifier(s).Ok?
    ensures String(NewLibrarySpecifier(s).value) == s
  {
    var p := Split(s, ':');
    var spec := NewLibrarySpecifier(s).value;
    assert Fields(spec) == p;
    JoinOfSplit(s, ':');
  }

  // Five ':'-free fields joined with ':' split back into the five fields.
  lemma SplitFiveFields(a: string, b: string, c: string, d: string, e: string)
    requires ':' !in a && ':' !in b && ':' !in c && ':' !in d && ':' !in e
    ensures Split(a + [':'] + (b + [':'] + (c + [':'] + (d + [':'] + e))), ':') == [a, b, c, d, e]
  {
    SplitNoSeparator(e, ':');
    SplitAtSeparator(d, e, ':');
    SplitAtSeparator(c, d + [':'] + e, ':');
    SplitAtSeparator(b, c + [':'] + (d + [':'] + e), ':');
    SplitAtSeparator(a, b + [':'] + (c + [':'] + (d + [':'] + e)), ':');
  }

  /** More than four fields: the extra ones are lost, so the string form is
      shorter than the input. */
  lemma ParseDropsExtraFields()
    ensures NewLibrarySpecifier("a:b:c:d:e") == Ok(LibrarySpecifier("a", "b", "c", "d"))
    ensures String(LibrarySpecifier("a", "b", "c", "d")) != "a:b:c:d:e"
  {
    assert "a:b:c:d:e" == "a" + [':'] + ("b" + [':'] + ("c" + [':'] + ("d" + [':'] + "e")));
    SplitFiveFields("a", "b", "c", "d", "e");
    assert |String(LibrarySpecifier("a", "b", "c", "d"))| == 7;
  }

  /** The file type of a version: ".zip" for a version ending in "@zip"
      (with every "@zip" removed from the version), ".jar" otherwise. */
  function StrippedVersion(version: string): string
  {
    if HasSuffix(version, "@zip") then ReplaceAll(version, "@zip", "") else version
  }

  function Extension(version: string): string
  {
    if HasSuffix(version, "@zip") then ".zip" else ".jar"
  }

  /** `LibrarySpecifier.Path`: group with every '.' turned into '/', then
      artifact, version and the file name artifact-version[-classifier] with
      its extension, joined with '/'. */
  function Path(spec: LibrarySpecifier): (p: string)
    ensures HasSuffix(p, Extension(spec.version))
  {
    var v := StrippedVersion(spec.version);
    var filename := spec.artifact + "-" + v + (if spec.classifier != "" then "-" + spec.classifier else "") + Extension(spec.version);
    var p := ReplaceChar(spec.group, '.', '/') + "/" + spec.artifact + "/" + v + "/" + filename;
    assert p[|p| - 4..] == filename[|filename| - 4..];
    p
  }

  lemma {:induction false} ZipSuffixRemoved(v0: string)
    requires '@' !in v0
    ensures ReplaceAll(v0 + "@zip", "@zip", "") == v0
  {
    var s := v0 + "@zip";
    if |v0| == 0 {
      assert s == "@zip";
      assert HasPrefix(s, "@zip");
      assert s[4..] == "";
    } else {
      assert !HasPrefix(s, "@zip") by { assert s[0] == v0[0]; }
      assert s[1..] == v0[1..] + "@zip";
      ZipSuffixRemoved(v0[1..]);
      assert v0 == [v0[0]] + v0[1..];
    }
  }

  /** A version v0 + "@zip" (v0 without '@') names the directory v0 and the
      file artifact-v0[-classifier].zip. */
  lemma PathOfZip(spec: LibrarySpecifier, v0: string)
    requires spec.version == v0 + "@zip" && '@' !in v0
    ensures Path(spec) == ReplaceChar(spec.group, '.', '/') + "/" + spec.artifact + "/" + v0 + "/"
                          + spec.artifact + "-" + v0 + (if spec.classifier != "" then "-" + spec.classifier else "") + ".zip"
  {
    assert HasSuffix(spec.version, "@zip");
    ZipSuffixRemoved(v0);
  }

  /** The documented example: net.fabricmc:fabric-loader:0.15.0. */
  lemma PathExample()
    ensures Path(LibrarySpecifier("net.fabricmc", "fabric-loader", "0.15.0", ""))
            == "net/fabricmc/fabric-loader/0.15.0/fabric-loader-0.15.0.jar"
  {
    var spec := LibrarySpecifier("net.fabricmc", "fabric-loader", "0.15.0", "");
    assert StrippedVersion("0.15.0") == "0.15.0" && Extension("0.15.0") == ".jar" by {
      assert !HasSuffix("0.15.0", "@zip") by { assert "0.15.0"[2] != '@'; }
    }
    FabricGroupPath();
    assert Path(spec) == "net/fabricmc" + "/" + "fabric-loader" + "/" + "0.15.0" + "/" + "fabric-loader" + "-" + "0.15.0" + "" + ".jar";
    assert "net/fabricmc" + "/" + "fabric-loader" == "net/fabricmc/fabric-loader";
    assert "net/fabricmc/fabric-loader" + "/" + "0.15.0" == "net/fabricmc/fabric-loader/0.15.0";
    assert "net/fabricmc/fabric-loader/0.15.0" + "/" + "fabric-loader" == "net/fabricmc/fabric-loader/0.15.0/fabric-loader";
    assert "net/fabricmc/fabric-loader/0.15.0/fabric-loader" + "-" + "0.15.0" == "net/fabricmc/fabric-loader/0.15.0/fabric-loader-0.15.0";
  }

  // The example group with its dot turned into a slash.
  lemma FabricGroupPath()
    ensures ReplaceChar("net.fabricmc", '.', '/') == "net/fabricmc"
  {
    ReplaceCharAppend("net", ".fabricmc", '.', '/');
    ReplaceCharAppend(".", "fabricmc", '.', '/');
    ReplaceCharNone("net", '.', '/');
    ReplaceCharNone("fabricmc", '.', '/');
    assert "net.fabricmc" == "net" + ".fabricmc" && ".fabricmc" == "." + "fabricmc";
  }

  /** The JSON values a specifier can be decoded from: only strings are
      accepted. */
  datatype Json = JString(str: string) | JOther

  /** `MarshalJSON`: the string form as a JSON string. */
  function MarshalJSON(spec: LibrarySpecifier): (j: Json)
    ensures j.JString?
  {
    JString(String(spec))
  }

  /** `UnmarshalJSON`: a JSON string parsed with `NewLibrarySpecifier`. */
  function UnmarshalJSON(j: Json): (r: Result<LibrarySpecifier>)
    ensures j.JOther? ==> r.Err?
    ensures j.JString? ==> r == NewLibrarySpecifier(j.str)
  {
    match j
    case JString(s) => NewLibrarySpecifier(s)
    case JOther => Err("json: cannot unmarshal into Go value of type string")
  }

  /** A specifier with colon-free fields survives a JSON round trip. */
  lemma JsonRoundTrip(spec: LibrarySpecifier)
    requires ColonFree(spec)
    ensures UnmarshalJSON(MarshalJSON(spec)) == Ok(spec)
  {
    ParseOfString(spec);
  }
}
