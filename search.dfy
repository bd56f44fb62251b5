// The search commands of the three command-line generations
// (internal/cli/cmd/search.go, internal/cmd/search.go, cmd/search.go):
// rows for the entries whose text contains the query, each tagged with its
// position in the full list, optionally reversed in place.
module Search {
  import opened Wrappers
  import opened Strs
  import opened Manifest

  /** An entry that matched, with its position in the list searched. */
  datatype Hit<T> = Hit(index: nat, item: T)

  /** The entries whose key contains the query, in list order. */
  function Matching<T>(xs: seq<T>, key: T -> string, query: string): (r: seq<Hit<T>>)
    ensures |r| <= |xs|
    ensures forall k :: 0 <= k < |r| ==> r[k].index < |xs| && r[k].item == xs[r[k].index] && Contains(key(r[k].item), query)
    ensures forall a, b :: 0 <= a < b < |r| ==> r[a].index < r[b].index
    decreases |xs|
  {
    if |xs| == 0 then []
    else
      var n := |xs| - 1;
      assert forall i :: 0 <= i < n ==> xs[..n][i] == xs[i];
      Matching(xs[..n], key, query) + (if Contains(key(xs[n]), query) then [Hit(n, xs[n])] else [])
  }

  /** Every entry whose key contains the query has a row: the rows are
      exactly the matching entries. */
  lemma {:induction false} MatchingComplete<T>(xs: seq<T>, key: T -> string, query: string, i: nat)
    requires i < |xs|
    ensures Hit(i, xs[i]) in Matching(xs, key, query) <==> Contains(key(xs[i]), query)
    decreases |xs|
  {
    var n := |xs| - 1;
    var r := Matching(xs, key, query);
    if Hit(i, xs[i]) in r {
      var k :| 0 <= k < |r| && r[k] == Hit(i, xs[i]);
    }
    if i < n {
      MatchingComplete(xs[..n], key, query, i);
      assert xs[..n][i] == xs[i];
    }
  }

  /** An empty query keeps every entry, since every string contains "". */
  lemma {:induction false} EmptyQueryKeepsAll<T>(xs: seq<T>, key: T -> string)
    ensures |Matching(xs, key, "")| == |xs|
    ensures forall k :: 0 <= k < |xs| ==> Matching(xs, key, "")[k] == Hit(k, xs[k])
    decreases |xs|
  {
    if |xs| > 0 {
      var n := |xs| - 1;
      EmptyQueryKeepsAll(xs[..n], key);
      ContainsEmpty(key(xs[n]));
    }
  }

  /** The loop appending a row for each matching entry. */
  method CollectMatches<T>(xs: seq<T>, key: T -> string, query: string) returns (hits: seq<Hit<T>>)
    ensures hits == Matching(xs, key, query)
  {
    hits := [];
    var i := 0;
    while i < |xs|
      invariant 0 <= i <= |xs|
      invariant hits == Matching(xs[..i], key, query)
    {
      assert xs[..i + 1][..i] == xs[..i];
      if Contains(key(xs[i]), query) {
        hits := hits + [Hit(i, xs[i])];
      }
      i := i + 1;
    }
    assert xs[..i] == xs;
  }

  /** A sequence back to front. */
  function Reversed<T>(s: seq<T>): (r: seq<T>)
    ensures |r| == |s|
    ensures forall i :: 0 <= i < |s| ==> r[i] == s[|s| - 1 - i]
  {
    seq(|s|, i requires 0 <= i < |s| => s[|s| - 1 - i])
  }

  lemma ReversedTwice<T>(s: seq<T>)
    ensures Reversed(Reversed(s)) == s
  {
  }

  /** `slices.Reverse(rows)`: swapping from both ends toward the middle. */
  method ReverseInPlace<T>(a: array<T>)
    modifies a
    ensures a[..] == Reversed(old(a[..]))
  {
    var i := 0;
    while i < a.Length / 2
      invariant 0 <= i <= a.Length / 2
      invariant forall k :: 0 <= k < i ==> a[k] == old(a[a.Length - 1 - k]) && a[a.Length - 1 - k] == old(a[k])
      invariant forall k :: i <= k < a.Length - i ==> a[k] == old(a[k])
    {
      a[i], a[a.Length - 1 - i] := a[a.Length - 1 - i], a[i];
      i := i + 1;
    }
  }

  /** A table row: the position in the full list and the remaining cells. */
  datatype Row = Row(index: nat, cells: seq<string>)

  /** A table: its header and its rows. */
  datatype Table = Table(header: seq<string>, rows: seq<Row>)

  /** The instance fields the search shows. */
  datatype InstanceInfo = InstanceInfo(name: string, gameVersion: string, loader: string)

  /** A version row: id, type and the formatted release time. */
  function VersionRows(hits: seq<Hit<ManifestEntry>>, format: string -> string): (r: seq<Row>)
    ensures |r| == |hits|
    ensures forall k :: 0 <= k < |hits| ==>
      r[k] == Row(hits[k].index, [hits[k].item.id, hits[k].item.versionType, format(hits[k].item.releaseTime)])
  {
    seq(|hits|, k requires 0 <= k < |hits| =>
      Row(hits[k].index, [hits[k].item.id, hits[k].item.versionType, format(hits[k].item.releaseTime)]))
  }

  function LoaderRows(hits: seq<Hit<string>>): (r: seq<Row>)
    ensures |r| == |hits|
    ensures forall k :: 0 <= k < |hits| ==> r[k] == Row(hits[k].index, [hits[k].item])
  {
    seq(|hits|, k requires 0 <= k < |hits| => Row(hits[k].index, [hits[k].item]))
  }

  function InstanceRows(hits: seq<Hit<InstanceInfo>>): (r: seq<Row>)
    ensures |r| == |hits|
    ensures forall k :: 0 <= k < |hits| ==>
      r[k] == Row(hits[k].index, [hits[k].item.name, hits[k].item.gameVersion, hits[k].item.loader])
  {
    seq(|hits|, k requires 0 <= k < |hits| =>
      Row(hits[k].index, [hits[k].item.name, hits[k].item.gameVersion, hits[k].item.loader]))
  }

  function EntryId(e: ManifestEntry): string { e.id }
  function LoaderVersion(v: string): string { v }
  function InstanceName(i: InstanceInfo): string { i.name }

  /** `"retrieve %s versions: "` for the Fabric or Quilt loader. */
  function LoaderFailure(kind: string): string
  {
    if kind == "quilt" then "retrieve quilt versions: " else "retrieve fabric versions: "
  }

  /** The rows, reversed when asked. */
  function Ordered(rows: seq<Row>, reverse: bool): seq<Row>
  {
    if reverse then Reversed(rows) else rows
  }

  /** `rows` reversed in place when `reverse` is set. */
  method OrderRows(rows: seq<Row>, reverse: bool) returns (r: seq<Row>)
    ensures r == Ordered(rows, reverse)
  {
    if !reverse {
      return rows;
    }
    var a := new Row[|rows|](i requires 0 <= i < |rows| => rows[i]);
    ReverseInPlace(a);
    r := a[..];
  }

  /** The outcome of the search command of internal/cli/cmd/search.go, given
      the translation of header keys, the release-time formatting and what
      each list fetch returns. A kind outside the three gives an empty
      table. */
  function CliSearch(query: string, kind: string, reverse: bool, tr: string -> string, format: string -> string,
                     manifest: Result<VersionManifest>, fabric: Result<seq<string>>, quilt: Result<seq<string>>): (r: Result<Table>)
    ensures kind == "versions" && manifest.Ok? ==>
      r == Ok(Table(["#", tr("search.table.version"), tr("search.table.type"), tr("search.table.date")],
                    Ordered(VersionRows(Matching(manifest.value.versions, EntryId, query), format), reverse)))
    ensures kind == "versions" && manifest.Err? ==> r == Err("retrieve version manifest: " + manifest.error)
    ensures kind == "fabric" && fabric.Err? ==> r == Err("retrieve fabric versions: " + fabric.error)
    ensures kind == "quilt" && quilt.Err? ==> r == Err("retrieve quilt versions: " + quilt.error)
    ensures (kind == "fabric" || kind == "quilt") && r.Ok? ==>
      var list := if kind == "fabric" then fabric else quilt;
      list.Ok? && r.value == Table(["#", tr("search.table.version")], Ordered(LoaderRows(Matching(list.value, LoaderVersion, query)), reverse))
    ensures kind != "versions" && kind != "fabric" && kind != "quilt" ==> r == Ok(Table([], []))
  {
    if kind == "versions" then
      if manifest.Err? then Err("retrieve version manifest: " + manifest.error)
      else Ok(Table(["#", tr("search.table.version"), tr("search.table.type"), tr("search.table.date")],
                    Ordered(VersionRows(Matching(manifest.value.versions, EntryId, query), format), reverse)))
    else if kind == "fabric" || kind == "quilt" then
      var list := if kind == "fabric" then fabric else quilt;
      if list.Err? then Err(LoaderFailure(kind) + list.error)
      else Ok(Table(["#", tr("search.table.version")], Ordered(LoaderRows(Matching(list.value, LoaderVersion, query)), reverse)))
    else Ok(Table([], []))
  }

  /** `Search.Run` of internal/cli/cmd/search.go. */
  method CliSearchRun(query: string, kind: string, reverse: bool, tr: string -> string, format: string -> string,
                      manifest: Result<VersionManifest>, fabric: Result<seq<string>>, quilt: Result<seq<string>>) returns (r: Result<Table>)
    ensures r == CliSearch(query, kind, reverse, tr, format, manifest, fabric, quilt)
  {
    var rows: seq<Row> := [];
    var header: seq<string> := [];
    if kind == "versions" {
      header := ["#", tr("search.table.version"), tr("search.table.type"), tr("search.table.date")];
      if manifest.Err? {
        return Err("retrieve version manifest: " + manifest.error);
      }
      var hits := CollectMatches(manifest.value.versions, EntryId, query);
      rows := VersionRows(hits, format);
    } else if kind == "fabric" || kind == "quilt" {
      header := ["#", tr("search.table.version")];
      var list := if kind == "fabric" then fabric else quilt;
      if list.Err? {
        return Err(LoaderFailure(kind) + list.error);
      }
      var hits := CollectMatches(list.value, LoaderVersion, query);
      rows := LoaderRows(hits);
    }
    rows := OrderRows(rows, reverse);
    return Ok(Table(header, rows));
  }

  /** The outcome of the search command of internal/cmd/search.go: the kind
      defaults to instances, and the loader lists are those of Fabric and
      Quilt. */
  function InstanceSearch(query: string, kind: string, reverse: bool, format: string -> string,
                          instances: Result<seq<InstanceInfo>>, manifest: Result<VersionManifest>,
                          fabric: Result<seq<string>>, quilt: Result<seq<string>>): (r: Result<Table>)
    ensures kind == "instances" && instances.Ok? ==>
      r == Ok(Table(["#", "Name", "Version", "Type"], Ordered(InstanceRows(Matching(instances.value, InstanceName, query)), reverse)))
    ensures kind == "instances" && instances.Err? ==> r == Err("get all instances: " + instances.error)
    ensures kind == "versions" && manifest.Ok? ==>
      r == Ok(Table(["#", "Version", "Type", "Release Date"], Ordered(VersionRows(Matching(manifest.value.versions, EntryId, query), format), reverse)))
    ensures kind == "versions" && manifest.Err? ==> r == Err("retrieve version manifest: " + manifest.error)
    ensures kind == "fabric" && fabric.Err? ==> r == Err("retrieve fabric versions: " + fabric.error)
    ensures kind == "quilt" && quilt.Err? ==> r == Err("retrieve quilt versions: " + quilt.error)
    ensures (kind == "fabric" || kind == "quilt") && r.Ok? ==>
      var list := if kind == "fabric" then fabric else quilt;
      list.Ok? && r.value == Table(["#", "Version"], Ordered(LoaderRows(Matching(list.value, LoaderVersion, query)), reverse))
    ensures kind != "instances" && kind != "versions" && kind != "fabric" && kind != "quilt" ==> r == Ok(Table([], []))
  {
    if kind == "instances" then
      if instances.Err? then Err("get all instances: " + instances.error)
      else Ok(Table(["#", "Name", "Version", "Type"], Ordered(InstanceRows(Matching(instances.value, InstanceName, query)), reverse)))
    else if kind == "versions" then
      if manifest.Err? then Err("retrieve version manifest: " + manifest.error)
      else Ok(Table(["#", "Version", "Type", "Release Date"], Ordered(VersionRows(Matching(manifest.value.versions, EntryId, query), format), reverse)))
    else if kind == "fabric" || kind == "quilt" then
      var list := if kind == "quilt" then quilt else fabric;
      if list.Err? then Err(LoaderFailure(kind) + list.error)
      else Ok(Table(["#", "Version"], Ordered(LoaderRows(Matching(list.value, LoaderVersion, query)), reverse)))
    else Ok(Table([], []))
  }

  /** The kind flag's default. */
  const DefaultKind := "instances"

  /** `Search.Run` of internal/cmd/search.go. */
  method InstanceSearchRun(query: string, kind: string, reverse: bool, format: string -> string,
                           instances: Result<seq<InstanceInfo>>, manifest: Result<VersionManifest>,
                           fabric: Result<seq<string>>, quilt: Result<seq<string>>) returns (r: Result<Table>)
    ensures r == InstanceSearch(query, kind, reverse, format, instances, manifest, fabric, quilt)
  {
    var rows: seq<Row> := [];
    var header: seq<string> := [];
    if kind == "instances" {
      header := ["#", "Name", "Version", "Type"];
      if instances.Err? {
        return Err("get all instances: " + instances.error);
      }
      var hits := CollectMatches(instances.value, InstanceName, query);
      rows := InstanceRows(hits);
    } else if kind == "versions" {
      header := ["#", "Version", "Type", "Release Date"];
      if manifest.Err? {
        return Err("retrieve version manifest: " + manifest.error);
      }
      var hits := CollectMatches(manifest.value.versions, EntryId, query);
      rows := VersionRows(hits, format);
    } else if kind == "fabric" || kind == "quilt" {
      header := ["#", "Version"];
      var list := if kind == "quilt" then quilt else fabric;
      if list.Err? {
        return Err(LoaderFailure(kind) + list.error);
      }
      var hits := CollectMatches(list.value, LoaderVersion, query);
      rows := LoaderRows(hits);
    }
    rows := OrderRows(rows, reverse);
    return Ok(Table(header, rows));
  }

  /** How a command of cmd/search.go ends: a table, or an exit with a
      status code and a message. */
  datatype Outcome = Shown(table: Table) | Exit(code: nat, message: string)

  /** The `search versions <version>` command: no reversal. */
  function SearchVersions(arg: string, format: string -> string, manifest: Result<VersionManifest>): (r: Outcome)
    ensures manifest.Err? ==> r == Exit(1, "failed to search for versions: " + manifest.error)
    ensures manifest.Ok? ==> r == Shown(Table(["#", "Version", "Type", "Release Date"], VersionRows(Matching(manifest.value.versions, EntryId, arg), format)))
  {
    match manifest
    case Err(e) => Exit(1, "failed to search for versions: " + e)
    case Ok(m) => Shown(Table(["#", "Version", "Type", "Release Date"], VersionRows(Matching(m.versions, EntryId, arg), format)))
  }

  method SearchVersionsRun(arg: string, format: string -> string, manifest: Result<VersionManifest>) returns (r: Outcome)
    ensures r == SearchVersions(arg, format, manifest)
  {
    if manifest.Err? {
      return Exit(1, "failed to search for versions: " + manifest.error);
    }
    var hits := CollectMatches(manifest.value.versions, EntryId, arg);
    return Shown(Table(["#", "Version", "Type", "Release Date"], VersionRows(hits, format)));
  }

  /** The `search instances <instance>` command: no reversal. */
  function SearchInstances(arg: string, instances: Result<seq<InstanceInfo>>): (r: Outcome)
    ensures instances.Err? ==> r == Exit(1, "failed to get all instances: " + instances.error)
    ensures instances.Ok? ==> r == Shown(Table(["#", "Name", "Version", "Type"], InstanceRows(Matching(instances.value, InstanceName, arg))))
  {
    match instances
    case Err(e) => Exit(1, "failed to get all instances: " + e)
    case Ok(xs) => Shown(Table(["#", "Name", "Version", "Type"], InstanceRows(Matching(xs, InstanceName, arg))))
  }

  method SearchInstancesRun(arg: string, instances: Result<seq<InstanceInfo>>) returns (r: Outcome)
    ensures r == SearchInstances(arg, instances)
  {
    if instances.Err? {
      return Exit(1, "failed to get all instances: " + instances.error);
    }
    var hits := CollectMatches(instances.value, InstanceName, arg);
    return Shown(Table(["#", "Name", "Version", "Type"], InstanceRows(hits)));
  }

  /** Reversal changes the order of the rows and nothing else: the same
      rows come back front to back, and reversing twice restores them. */
  lemma ReverseOnlyReorders(rows: seq<Row>)
    ensures multiset(Ordered(rows, true)) == multiset(rows)
    ensures Ordered(Ordered(rows, true), true) == rows
    ensures |rows| > 0 ==> Ordered(rows, true)[0] == rows[|rows| - 1]
  {
    ReversedTwice(rows);
    ReversedMultiset(rows);
  }

  lemma {:induction false} ReversedMultiset<T>(s: seq<T>)
    ensures multiset(Reversed(s)) == multiset(s)
    decreases |s|
  {
    if |s| > 0 {
      var n := |s| - 1;
      ReversedMultiset(s[..n]);
      assert Reversed(s) == [s[n]] + Reversed(s[..n]);
      assert s == s[..n] + [s[n]];
    }
  }

  /** Some row shows the entry at position `i` of the list searched. */
  predicate Shows(rows: seq<Row>, i: nat)
  {
    exists k :: 0 <= k < |rows| && rows[k].index == i
  }

  lemma OrderedShowsSame(rows: seq<Row>, reverse: bool, i: nat)
    ensures Shows(Ordered(rows, reverse), i) <==> Shows(rows, i)
  {
    var o := Ordered(rows, reverse);
    if reverse {
      if Shows(rows, i) {
        var k :| 0 <= k < |rows| && rows[k].index == i;
        assert o[|rows| - 1 - k] == rows[k];
      }
      if Shows(o, i) {
        var k :| 0 <= k < |o| && o[k].index == i;
        assert rows[|rows| - 1 - k] == o[k];
      }
    }
  }

  lemma MatchingShows<T>(xs: seq<T>, key: T -> string, query: string, hits: seq<Hit<T>>, rows: seq<Row>, i: nat)
    requires hits == Matching(xs, key, query) && i < |xs|
    requires |rows| == |hits| && forall k :: 0 <= k < |hits| ==> rows[k].index == hits[k].index
    ensures Shows(rows, i) <==> Contains(key(xs[i]), query)
  {
    MatchingComplete(xs, key, query, i);
    if Contains(key(xs[i]), query) {
      var k :| 0 <= k < |hits| && hits[k] == Hit(i, xs[i]);
      assert rows[k].index == i;
    }
  }

  /** A version search lists the version at position `i` of the manifest
      exactly when its id contains the query, reversed or not. */
  lemma VersionSearchShowsMatches(query: string, reverse: bool, tr: string -> string, format: string -> string,
                                  m: VersionManifest, fabric: Result<seq<string>>, quilt: Result<seq<string>>, i: nat)
    requires i < |m.versions|
    ensures var r := CliSearch(query, "versions", reverse, tr, format, Ok(m), fabric, quilt);
      r.Ok? && (Shows(r.value.rows, i) <==> Contains(m.versions[i].id, query))
  {
    var hits := Matching(m.versions, EntryId, query);
    var rows := VersionRows(hits, format);
    MatchingShows(m.versions, EntryId, query, hits, rows, i);
    OrderedShowsSame(rows, reverse, i);
  }

  /** The instance search of internal/cmd/search.go lists the instance at
      position `i` exactly when its name contains the query. */
  lemma InstanceSearchShowsMatches(query: string, reverse: bool, format: string -> string, xs: seq<InstanceInfo>,
                                   manifest: Result<VersionManifest>, fabric: Result<seq<string>>, quilt: Result<seq<string>>, i: nat)
    requires i < |xs|
    ensures var r := InstanceSearch(query, "instances", reverse, format, Ok(xs), manifest, fabric, quilt);
      r.Ok? && (Shows(r.value.rows, i) <==> Contains(xs[i].name, query))
  {
    var hits := Matching(xs, InstanceName, query);
    var rows := InstanceRows(hits);
    MatchingShows(xs, InstanceName, query, hits, rows, i);
    OrderedShowsSame(rows, reverse, i);
  }

  /** A loader search lists the loader version at position `i` exactly when
      it contains the query. */
  lemma LoaderSearchShowsMatches(query: string, reverse: bool, tr: string -> string, format: string -> string,
                                 manifest: Result<VersionManifest>, fabric: seq<string>, quilt: Result<seq<string>>, i: nat)
    requires i < |fabric|
    ensures var r := CliSearch(query, "fabric", reverse, tr, format, manifest, Ok(fabric), quilt);
      r.Ok? && (Shows(r.value.rows, i) <==> Contains(fabric[i], query))
  {
    var hits := Matching(fabric, LoaderVersion, query);
    var rows := LoaderRows(hits);
    MatchingShows(fabric, LoaderVersion, query, hits, rows, i);
    OrderedShowsSame(rows, reverse, i);
  }
}
