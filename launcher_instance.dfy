// The instance registry of the current Go launcher (pkg/launcher/instance.go):
// every instance is a directory of the instances directory holding an
// instance.json; an instance is created, fetched (its stored fields plus
// freshly fetched metadata), listed, renamed and removed. Version and loader
// metadata fetches, the JSON codec and the `java` lookup are parameters.
module LauncherInstance {
  import opened Wrappers
  import opened FileSystem
  import opened MetaMinecraft
  import opened LauncherLoader
  import opened Collections

  datatype WindowResolution = WindowResolution(width: int, height: int)

  /** The configurable values of an instance. */
  datatype InstanceConfig = InstanceConfig(resolution: WindowResolution, java: string, minMemory: int, maxMemory: int)

  /** A new instance's configuration: 1708x960, 512 MB to 4096 MB. */
  const DefaultConfig := InstanceConfig(WindowResolution(1708, 960), "", 512, 4096)

  datatype InstanceOptions = InstanceOptions(name: string, gameVersion: string, loader: Loader, loaderVersion: string)

  /** The fields instance.json holds (the name is the directory's, the
      metadata is fetched). */
  datatype Stored = Stored(gameVersion: string, loader: Loader, loaderVersion: string, config: InstanceConfig)

  /** An instance's value: its name, metadata and stored fields. */
  datatype InstanceData = InstanceData(name: string, version: VersionMeta, stored: Stored)

  /** The collaborators: version metadata by id, loader metadata for a base,
      a loader and a loader version, and the instance.json codec. */
  datatype Env = Env(fetchVersion: string -> Result<VersionMeta>,
                     fetchLoader: (VersionMeta, Loader, string) -> Result<VersionMeta>,
                     encode: Stored -> Bytes,
                     decode: Bytes -> Result<Stored>)

  /** The instances directory: the names of its subdirectories and the
      instance.json of those that have one. */
  class Registry {
    const instancesDir: string
    var dirs: set<string>
    var configs: map<string, Bytes>

    constructor (instancesDir0: string, dirs0: set<string>, configs0: map<string, Bytes>)
      requires configs0.Keys <= dirs0
      ensures instancesDir == instancesDir0 && dirs == dirs0 && configs == configs0
      ensures Valid()
    {
      instancesDir := instancesDir0;
      dirs := dirs0;
      configs := configs0;
    }

    /** Every instance.json sits in a directory. */
    predicate Valid()
      reads this
    {
      configs.Keys <= dirs
    }
  }

  /** An instance whose name the source renames in place. */
  class Instance {
    var name: string
    var version: VersionMeta
    var stored: Stored

    constructor (data: InstanceData)
      ensures Data() == data
    {
      name := data.name;
      version := data.version;
      stored := data.stored;
    }

    function Data(): InstanceData
      reads this
    {
      InstanceData(name, version, stored)
    }

    /** `Dir`: <instances>/<name>. */
    function Dir(instancesDir: string): (d: string)
      reads this
      ensures d == PathJoin(instancesDir, name)
    {
      PathJoin(instancesDir, name)
    }

    /** `Rename`: the directory moves and the name follows; when the move
        fails nothing changes. */
    method Rename(reg: Registry, newName: string) returns (err: Option<string>)
      requires reg.Valid()
      modifies this, reg
      ensures reg.Valid()
      ensures err == RenameError(old(reg.dirs), reg.instancesDir, old(name), newName)
      ensures err.None? ==> name == newName && reg.dirs == Renamed(old(reg.dirs), old(name), newName)
                            && reg.configs == RenamedConfigs(old(reg.configs), old(name), newName)
      ensures err.Some? ==> name == old(name) && reg.dirs == old(reg.dirs) && reg.configs == old(reg.configs)
      ensures version == old(version) && stored == old(stored)
    {
      err := RenameError(reg.dirs, reg.instancesDir, name, newName);
      if err.Some? {
        return;
      }
      reg.dirs := Renamed(reg.dirs, name, newName);
      reg.configs := RenamedConfigs(reg.configs, name, newName);
      name := newName;
    }
  }

  /** `os.Rename` of an instance directory on Unix fails when it is missing,
      and otherwise when a directory already has the new name, the same
      directory included: Go reports "file exists" whenever the new name is
      an existing directory and differs from the old one only if both name
      the same file. */
  function RenameError(dirs: set<string>, instancesDir: string, from: string, to: string): Option<string>
  {
    var msg := "rename " + PathJoin(instancesDir, from) + " " + PathJoin(instancesDir, to) + ": ";
    if from !in dirs then Some(msg + "no such file or directory")
    else if to in dirs then Some(msg + "file exists")
    else None
  }

  function Renamed(dirs: set<string>, from: string, to: string): set<string>
  {
    dirs - {from} + {to}
  }

  function RenamedConfigs(configs: map<string, Bytes>, from: string, to: string): map<string, Bytes>
  {
    if from in configs then (configs - {from})[to := configs[from]] else configs - {to}
  }

  /** A rename keeps the set of instances, with the new name in place of the
      old one and the same instance.json under it. */
  lemma RenameMovesConfig(dirs: set<string>, configs: map<string, Bytes>, instancesDir: string, from: string, to: string)
    requires configs.Keys <= dirs && RenameError(dirs, instancesDir, from, to).None?
    ensures from != to && to in Renamed(dirs, from, to) && from !in Renamed(dirs, from, to)
    ensures from in configs ==> RenamedConfigs(configs, from, to)[to] == configs[from]
    ensures forall n :: n != from && n != to ==> (n in RenamedConfigs(configs, from, to) <==> n in configs)
    ensures |Renamed(dirs, from, to)| == |dirs|
  {
    assert from in dirs && to !in dirs;
    assert Renamed(dirs, from, to) == dirs - {from} + {to};
    assert |dirs - {from}| == |dirs| - 1;
  }

  /** Renaming an existing instance to its own name fails with "file
      exists", as `os.Rename` does for a directory, and changes nothing. */
  lemma RenameToSelfFails(dirs: set<string>, instancesDir: string, name: string)
    requires name in dirs
    ensures RenameError(dirs, instancesDir, name, name)
      == Some("rename " + PathJoin(instancesDir, name) + " " + PathJoin(instancesDir, name) + ": file exists")
  {
    var prefix := "rename " + PathJoin(instancesDir, name) + " " + PathJoin(instancesDir, name);
    assert (prefix + ": ") + "file exists" == prefix + ": file exists";
  }

  const ErrInstanceNotExist := "instance does not exist"

  /** `FetchInstance`: the stored fields of <instances>/<id>/instance.json,
      named `id`, with the version metadata of the stored game version
      (LoaderID set to the stored loader version) merged with the loader's. */
  function Fetched(configs: map<string, Bytes>, id: string, env: Env): (r: Result<InstanceData>)
    ensures id !in configs ==> r == Err(ErrInstanceNotExist)
    ensures r.Ok? ==> && r.value.name == id
                      && env.decode(configs[id]) == Ok(r.value.stored)
  {
    if id !in configs then Err(ErrInstanceNotExist)
    else
      var stored := env.decode(configs[id]);
      if stored.Err? then Err(Wrapped("parse instance metadata", stored.error))
      else
        var versionMeta := env.fetchVersion(stored.value.gameVersion);
        if versionMeta.Err? then Err(Wrapped("fetch version meta", versionMeta.error))
        else
          var base := versionMeta.value.(loaderID := stored.value.loaderVersion);
          var loaderMeta := env.fetchLoader(base, stored.value.loader, stored.value.loaderVersion);
          if loaderMeta.Err? then Err(Wrapped("fetch mod loader meta", loaderMeta.error))
          else Ok(InstanceData(id, Merged(base, loaderMeta.value), stored.value))
  }

  /** `IsInstanceExist`: the instance can be fetched. */
  predicate IsInstanceExist(configs: map<string, Bytes>, id: string, env: Env)
  {
    Fetched(configs, id, env).Ok?
  }

  /** `FetchInstance`, returning a new instance object. */
  method FetchInstance(reg: Registry, id: string, env: Env) returns (r: Result<Instance>)
    ensures r.Ok? <==> Fetched(reg.configs, id, env).Ok?
    ensures r.Ok? ==> fresh(r.value) && r.value.Data() == Fetched(reg.configs, id, env).value
    ensures r.Err? ==> r.error == Fetched(reg.configs, id, env).error
  {
    var data := Fetched(reg.configs, id, env);
    if data.Err? {
      return Err(data.error);
    }
    var inst := new Instance(data.value);
    return Ok(inst);
  }

  /** What `CreateInstance` records: the instance, and its instance.json. */
  function Created(configs: map<string, Bytes>, options: InstanceOptions, java: Result<string>, env: Env)
    : (r: Result<InstanceData>)
  {
    if IsInstanceExist(configs, options.name, env) then Err("instance already exists")
    else
      var versionMeta := env.fetchVersion(options.gameVersion);
      if versionMeta.Err? then Err(Wrapped("fetch version meta", versionMeta.error))
      else
        var loaderMeta := env.fetchLoader(versionMeta.value, options.loader, options.loaderVersion);
        if loaderMeta.Err? then Err(Wrapped("fetch mod loader meta", loaderMeta.error))
        else
          var merged := Merged(versionMeta.value.(loaderID := loaderMeta.value.id), loaderMeta.value);
          var config := if java.Ok? then DefaultConfig.(java := java.value) else DefaultConfig;
          Ok(InstanceData(options.name, merged, Stored(merged.id, options.loader, merged.loaderID, config)))
  }

  /** `CreateInstance`: `java` is the outcome of looking up `java` on the
      PATH. */
  method CreateInstance(reg: Registry, options: InstanceOptions, java: Result<string>, env: Env)
    returns (r: Result<Instance>)
    requires reg.Valid()
    modifies reg
    ensures reg.Valid()
    ensures r.Ok? <==> Created(old(reg.configs), options, java, env).Ok?
    ensures r.Err? ==> r.error == Created(old(reg.configs), options, java, env).error
                       && reg.dirs == old(reg.dirs) && reg.configs == old(reg.configs)
    ensures r.Ok? ==> && fresh(r.value)
                      && r.value.Data() == Created(old(reg.configs), options, java, env).value
                      && reg.dirs == old(reg.dirs) + {options.name}
                      && reg.configs == old(reg.configs)[options.name := env.encode(r.value.stored)]
  {
    var existing := Fetched(reg.configs, options.name, env);
    if existing.Ok? {
      return Err("instance already exists");
    }
    var versionMeta := env.fetchVersion(options.gameVersion);
    if versionMeta.Err? {
      return Err(Wrapped("fetch version meta", versionMeta.error));
    }
    var loaderMeta := env.fetchLoader(versionMeta.value, options.loader, options.loaderVersion);
    if loaderMeta.Err? {
      return Err(Wrapped("fetch mod loader meta", loaderMeta.error));
    }
    var vm := versionMeta.value.(loaderID := loaderMeta.value.id);
    vm := Merged(vm, loaderMeta.value);
    var inst := new Instance(InstanceData(options.name, vm, Stored(vm.id, options.loader, vm.loaderID, DefaultConfig)));
    reg.dirs := reg.dirs + {options.name};
    if java.Ok? {
      inst.stored := inst.stored.(config := inst.stored.config.(java := java.value));
    }
    reg.configs := reg.configs[options.name := env.encode(inst.stored)];
    return Ok(inst);
  }

  /** A new instance stores the resolved game id (not the alias asked for)
      and the loader version the merged metadata carries, with the default
      configuration; LoaderID set before the merge does not survive it. */
  lemma CreatedFields(configs: map<string, Bytes>, options: InstanceOptions, java: Result<string>, env: Env)
    requires Created(configs, options, java, env).Ok?
    ensures var d := Created(configs, options, java, env).value;
      var vm := env.fetchVersion(options.gameVersion).value;
      var lm := env.fetchLoader(vm, options.loader, options.loaderVersion).value;
      && d.stored.gameVersion == vm.id
      && d.stored.loaderVersion == lm.loaderID
      && d.stored.loader == options.loader
      && d.stored.config.resolution == WindowResolution(1708, 960)
      && d.stored.config.minMemory == 512 && d.stored.config.maxMemory == 4096
      && d.stored.config.java == (if java.Ok? then java.value else "")
  {
  }

  /** A created instance can be fetched back under its name when its
      instance.json round-trips and the metadata of its stored game version
      and loader can be fetched: the stored fields come back unchanged. */
  lemma CreateThenFetch(configs: map<string, Bytes>, options: InstanceOptions, java: Result<string>, env: Env)
    requires Created(configs, options, java, env).Ok?
    requires var s := Created(configs, options, java, env).value.stored;
      && env.decode(env.encode(s)) == Ok(s)
      && env.fetchVersion(s.gameVersion).Ok?
      && env.fetchLoader(env.fetchVersion(s.gameVersion).value.(loaderID := s.loaderVersion), s.loader, s.loaderVersion).Ok?
    ensures var d := Created(configs, options, java, env).value;
      var configs1 := configs[options.name := env.encode(d.stored)];
      && IsInstanceExist(configs1, options.name, env)
      && Fetched(configs1, options.name, env).value.stored == d.stored
      && Fetched(configs1, options.name, env).value.name == options.name
  {
  }

  /** A directory whose instance.json does not load is no instance:
      creating one under that name goes ahead exactly as if the file were not
      there, and then overwrites it. */
  lemma CreateOverBrokenInstance(configs: map<string, Bytes>, options: InstanceOptions, java: Result<string>, env: Env)
    requires options.name in configs && env.decode(configs[options.name]).Err?
    ensures !IsInstanceExist(configs, options.name, env)
    ensures Created(configs, options, java, env) == Created(configs - {options.name}, options, java, env)
  {
    assert options.name !in configs - {options.name};
  }

  /** `RemoveInstance`: an instance that cannot be fetched is not removed and
      its fetch error is returned; otherwise its directory goes. */
  method RemoveInstance(reg: Registry, id: string, env: Env) returns (err: Option<string>)
    requires reg.Valid()
    modifies reg
    ensures reg.Valid()
    ensures Fetched(old(reg.configs), id, env).Err? ==>
      err == Some(Fetched(old(reg.configs), id, env).error) && reg.dirs == old(reg.dirs) && reg.configs == old(reg.configs)
    ensures Fetched(old(reg.configs), id, env).Ok? ==>
      err.None? && reg.dirs == old(reg.dirs) - {id} && reg.configs == old(reg.configs) - {id}
  {
    var inst := FetchInstance(reg, id, env);
    if inst.Err? {
      return Some(inst.error);
    }
    reg.dirs := reg.dirs - {inst.value.name};
    reg.configs := reg.configs - {inst.value.name};
    return None;
  }

  /** After a removal the instance no longer exists, and the other
      instances' files are as they were. */
  lemma RemovedIsGone(configs: map<string, Bytes>, id: string, env: Env, other: string)
    requires IsInstanceExist(configs, id, env) && other != id
    ensures !IsInstanceExist(configs - {id}, id, env)
    ensures (other in configs - {id} <==> other in configs)
    ensures Fetched(configs - {id}, other, env) == Fetched(configs, other, env)
  {
    assert other in configs ==> (configs - {id})[other] == configs[other];
  }

  /** An entry of the instances directory as `os.ReadDir` lists it. */
  datatype DirEntry = DirEntry(name: string, isDir: bool)

  /** `os.ReadDir` of the instances directory: missing, failing, or its
      entries in the order listed. */
  datatype Listing = Missing | ReadFailed(msg: string) | Entries(entries: seq<DirEntry>)

  /** The entries that become instances: directories that can be fetched. */
  predicate Loads(configs: map<string, Bytes>, env: Env, e: DirEntry)
  {
    e.isDir && IsInstanceExist(configs, e.name, env)
  }

  /** The instances of `FetchAllInstances`, in listing order. */
  function AllInstances(configs: map<string, Bytes>, env: Env, entries: seq<DirEntry>): (r: seq<InstanceData>)
    ensures |r| <= |entries|
  {
    if |entries| == 0 then []
    else
      var rest := AllInstances(configs, env, entries[..|entries| - 1]);
      var e := entries[|entries| - 1];
      if Loads(configs, env, e) then rest + [Fetched(configs, e.name, env).value] else rest
  }

  // One more entry of the listing.
  lemma AllInstancesStep(configs: map<string, Bytes>, env: Env, entries: seq<DirEntry>, i: nat)
    requires i < |entries|
    ensures AllInstances(configs, env, entries[..i + 1])
         == if Loads(configs, env, entries[i])
            then AllInstances(configs, env, entries[..i]) + [Fetched(configs, entries[i].name, env).value]
            else AllInstances(configs, env, entries[..i])
  {
    assert entries[..i + 1][..i] == entries[..i];
  }

  /** `FetchAllInstances`. */
  method FetchAllInstances(reg: Registry, listing: Listing, env: Env) returns (r: Result<seq<Instance>>)
    ensures listing.Missing? ==> r == Ok([])
    ensures listing.ReadFailed? ==> r == Err(Wrapped("read instances directory", listing.msg))
    ensures listing.Entries? ==>
      && r.Ok?
      && |r.value| == |AllInstances(reg.configs, env, listing.entries)|
      && forall k :: 0 <= k < |r.value| ==> r.value[k].Data() == AllInstances(reg.configs, env, listing.entries)[k]
  {
    if listing.Missing? {
      return Ok([]);
    }
    if listing.ReadFailed? {
      return Err(Wrapped("read instances directory", listing.msg));
    }
    var entries := listing.entries;
    var insts: seq<Instance> := [];
    ghost var datas: seq<InstanceData> := [];
    for i := 0 to |entries|
      invariant datas == AllInstances(reg.configs, env, entries[..i])
      invariant |insts| == |datas|
      invariant forall k :: 0 <= k < |insts| ==> insts[k].Data() == datas[k]
    {
      AllInstancesStep(reg.configs, env, entries, i);
      var entry := entries[i];
      if entry.isDir {
        var inst := FetchInstance(reg, entry.name, env);
        if inst.Err? {
          continue;
        }
        insts := insts + [inst.value];
        datas := datas + [inst.value.Data()];
      }
    }
    assert entries[..|entries|] == entries;
    return Ok(insts);
  }

  /** The listing keeps exactly the loadable directories, each once and in
      listing order, named after their directories. */
  lemma {:induction false} AllInstancesAreLoadable(configs: map<string, Bytes>, env: Env, entries: seq<DirEntry>)
    ensures var r := AllInstances(configs, env, entries);
      var kept := Filter(entries, e => Loads(configs, env, e));
      && |r| == |kept|
      && forall k :: 0 <= k < |r| ==>
           Loads(configs, env, kept[k]) && r[k] == Fetched(configs, kept[k].name, env).value && r[k].name == kept[k].name
    decreases |entries|
  {
    var p := (e: DirEntry) => Loads(configs, env, e);
    if |entries| > 0 {
      var init := entries[..|entries| - 1];
      var e := entries[|entries| - 1];
      AllInstancesAreLoadable(configs, env, init);
      FilterAppend(init, e, p);
      assert init + [e] == entries;
    }
  }
}
