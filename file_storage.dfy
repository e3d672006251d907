/** The disk registry, the resolver from disk names to driver instances, and
    the storage facade with its unique-filename policy and after-put plugin
    chain.  The module-level tables of the library (`availableDisks`,
    `drivers`, `plugins`) live in one `Registry` object that every facade
    shares by reference. */
module FileStorage {
  import opened Common
  import opened Paths
  import DriverBase
  import S3

  /** The built-in disk installed when no configuration is given. */
  const DefaultDiskConfig: DiskConfig := DiskConfig("local", Named("local"), map["root" := "storage"])

  /** Two configurations of the list share a name. */
  predicate DuplicatedNames(configs: seq<DiskConfig>)
  {
    exists i, j :: 0 <= i < j < |configs| && configs[i].name == configs[j].name
  }

  /** What a successful `handleDiskConfigs(configs)` leaves in the registry. */
  function Registered(configs: seq<DiskConfig>): (disks: seq<DiskConfig>)
    ensures |disks| > 0
  {
    if |configs| == 0 then [DefaultDiskConfig] else configs
  }

  /** The check `handleDiskConfigs` runs: a set of the names seen so far,
      stopping at the first name that does not grow it. */
  method HasDuplicatesName(configs: seq<DiskConfig>) returns (found: bool)
    ensures found <==> DuplicatedNames(configs)
  {
    var seen: set<string> := {};
    var i := 0;
    while i < |configs|
      invariant 0 <= i <= |configs|
      invariant seen == set k | 0 <= k < i :: configs[k].name
      invariant forall p, q :: 0 <= p < q < i ==> configs[p].name != configs[q].name
    {
      var size := |seen|;
      ghost var before := seen;
      seen := seen + {configs[i].name};
      assert configs[i].name in before ==> seen == before;
      if size == |seen| {
        ghost var k :| 0 <= k < i && configs[k].name == configs[i].name;
        return true;
      }
      assert forall p :: 0 <= p < i ==> configs[p].name != configs[i].name by {
        forall p | 0 <= p < i ensures configs[p].name != configs[i].name {
          assert configs[p].name in before;
        }
      }
      i := i + 1;
    }
    return false;
  }

  /** A configuration that is the first one of `disks` named `name`. */
  predicate FirstNamed(disks: seq<DiskConfig>, name: string, i: int)
  {
    0 <= i < |disks| && disks[i].name == name && forall j :: 0 <= j < i ==> disks[j].name != name
  }

  /** `availableDisks.find(item => item.name === diskName)` */
  function FindDisk(disks: seq<DiskConfig>, name: string): (found: Option<DiskConfig>)
  {
    Find(disks, (c: DiskConfig) => c.name == name)
  }

  /** The slot holds a driver class whose static `driverName` is `id`. */
  predicate Provides(slot: Option<DriverType>, id: string)
  {
    slot.Some? && slot.value.driverName == Some(id)
  }

  /** The driver class a configuration selects: the class itself, or the first
      installed class whose `driverName` is the identifier. */
  function DriverClass(driver: DriverRef, drivers: seq<Option<DriverType>>): (driverClass: Option<DriverType>)
  {
    match driver
    case Custom(t) => Some(t)
    case Named(id) =>
      match Find(drivers, (slot: Option<DriverType>) => Provides(slot, id))
      case None => None
      case Some(slot) => slot
  }

  /** The error thrown when no class is found: a built-in identifier asks for
      its package; anything else was never declared, a class by its name. */
  function MissingDriver(driver: DriverRef): (thrown: Error)
  {
    match driver
    case Named(id) => if id in DriverNames then DriverNotInstalled(id) else DriverNotDeclared(id)
    case Custom(t) => DriverNotDeclared(t.className)
  }

  /** The lookup half of `getDisk(diskName)`: the configuration and the class
      to construct, or the error thrown. */
  function Resolve(disks: seq<DiskConfig>, drivers: seq<Option<DriverType>>, name: string)
    : (r: Result<(DiskConfig, DriverType)>)
    ensures r == Failure(DiskNotDefined(name)) <==> forall i :: 0 <= i < |disks| ==> disks[i].name != name
    ensures r.Success? ==> exists i :: FirstNamed(disks, name, i) && disks[i] == r.value.0
    ensures r.Success? && r.value.0.driver.Custom? ==> r.value.1 == r.value.0.driver.driverClass
    ensures r.Success? && r.value.0.driver.Named? ==>
      exists i :: 0 <= i < |drivers| && drivers[i] == Some(r.value.1) && Provides(drivers[i], r.value.0.driver.id)
        && forall j :: 0 <= j < i ==> !Provides(drivers[j], r.value.0.driver.id)
  {
    match FindDisk(disks, name)
    case None => Failure(DiskNotDefined(name))
    case Some(config) =>
      match DriverClass(config.driver, drivers)
      case None => Failure(MissingDriver(config.driver))
      case Some(t) => Success((config, t))
  }

  /** What the constructor of the selected class checks: for the S3 driver,
      the bucket name; the other backends' constructors are not modelled. */
  function Construct(config: DiskConfig, t: DriverType): (checked: Outcome)
  {
    if t == S3.S3DriverType then S3.Validate(config) else Pass
  }

  /** The whole of `getDisk(diskName)` short of allocating the instance. */
  function Instantiate(disks: seq<DiskConfig>, drivers: seq<Option<DriverType>>, name: string)
    : (r: Result<(DiskConfig, DriverType)>)
  {
    match Resolve(disks, drivers, name)
    case Failure(e) => Failure(e)
    case Success(ct) =>
      match Construct(ct.0, ct.1)
      case Fail(e) => Failure(e)
      case Pass => Success(ct)
  }

  /** A found configuration naming a built-in identifier with no installed
      class throws the "please install" error; an unknown identifier throws
      "not declared".  A configuration naming a class never reaches either. */
  lemma MissingDriverErrors(disks: seq<DiskConfig>, drivers: seq<Option<DriverType>>, name: string, i: int)
    requires FirstNamed(disks, name, i)
    ensures disks[i].driver.Custom? ==> Resolve(disks, drivers, name) == Success((disks[i], disks[i].driver.driverClass))
    ensures disks[i].driver.Named? && (forall k :: 0 <= k < |drivers| ==> !Provides(drivers[k], disks[i].driver.id)) ==>
      Resolve(disks, drivers, name) == Failure(
        if disks[i].driver.id in DriverNames then DriverNotInstalled(disks[i].driver.id)
        else DriverNotDeclared(disks[i].driver.id))
    ensures disks[i].driver.Named? && (exists k :: 0 <= k < |drivers| && Provides(drivers[k], disks[i].driver.id)) ==>
      Resolve(disks, drivers, name).Success?
  {
    var r := FindDisk(disks, name);
    assert r == Some(disks[i]) by {
      assert r.Some?;
      var j :| 0 <= j < |disks| && disks[j] == r.value && disks[j].name == name
        && forall m :: 0 <= m < j ==> disks[m].name != name;
      assert j == i;
    }
  }

  /** Appending driver classes keeps every identifier that already resolved
      resolving to the same class: the first match wins. */
  lemma {:induction false} AppendedDriversKeepResolution(drivers: seq<Option<DriverType>>, added: seq<Option<DriverType>>, id: string)
    requires exists k :: 0 <= k < |drivers| && Provides(drivers[k], id)
    ensures DriverClass(Named(id), drivers + added) == DriverClass(Named(id), drivers)
  {
    var p := (slot: Option<DriverType>) => Provides(slot, id);
    var s := drivers + added;
    var a, b := Find(s, p), Find(drivers, p);
    var k :| 0 <= k < |drivers| && Provides(drivers[k], id);
    assert p(s[k]) && p(drivers[k]);
    var i :| 0 <= i < |s| && s[i] == a.value && p(s[i]) && forall j :: 0 <= j < i ==> !p(s[j]);
    var i' :| 0 <= i' < |drivers| && drivers[i'] == b.value && p(drivers[i']) && forall j :: 0 <= j < i' ==> !p(drivers[j]);
    assert s[i'] == drivers[i'];
    assert i == i';
  }

  /** A custom driver class seen by the registry. */
  function Installed(customDrivers: seq<DriverType>): (slots: seq<Option<DriverType>>)
    ensures |slots| == |customDrivers|
    ensures forall i :: 0 <= i < |slots| ==> slots[i] == Some(customDrivers[i])
  {
    seq(|customDrivers|, i requires 0 <= i < |customDrivers| => Some(customDrivers[i]))
  }

  /** The module-level state shared by every facade. */
  class Registry {
    var availableDisks: seq<DiskConfig>
    var drivers: seq<Option<DriverType>>
    const plugins: seq<Plugin>

    /** Names stay unique in every snapshot the registry ever holds. */
    ghost predicate Valid()
      reads this
    {
      !DuplicatedNames(availableDisks)
    }

    /** The state at load time: the built-in local disk, one slot per built-in
        driver package in the order s3, ftp, local, sftp, gcs (empty when the
        package is not installed), and the image-manipulation plugin class
        when it is installed. */
    constructor (s3: Option<DriverType>, ftp: Option<DriverType>, local: Option<DriverType>,
                 sftp: Option<DriverType>, gcs: Option<DriverType>, imageManipulation: Option<Plugin>)
      ensures Valid()
      ensures availableDisks == [DefaultDiskConfig]
      ensures drivers == [s3, ftp, local, sftp, gcs]
      ensures plugins == if imageManipulation.Some? then [imageManipulation.value] else []
    {
      availableDisks := [DefaultDiskConfig];
      drivers := [s3, ftp, local, sftp, gcs];
      plugins := if imageManipulation.Some? then [imageManipulation.value] else [];
    }

    /** `handleDiskConfigs(diskConfigs)`: empties the table first, then throws
        on a duplicated name (leaving it empty), else installs the list or,
        for an empty list, the built-in local disk. */
    method HandleDiskConfigs(diskConfigs: seq<DiskConfig>) returns (r: Outcome)
      modifies this`availableDisks
      ensures Valid()
      ensures r == Pass <==> !DuplicatedNames(diskConfigs)
      ensures r != Pass ==> r == Fail(DuplicatedDiskName) && availableDisks == []
      ensures r == Pass ==> availableDisks == Registered(diskConfigs)
    {
      availableDisks := [];
      var duplicated := HasDuplicatesName(diskConfigs);
      if duplicated {
        return Fail(DuplicatedDiskName);
      }
      if |diskConfigs| == 0 {
        availableDisks := availableDisks + [DefaultDiskConfig];
      } else {
        availableDisks := availableDisks + diskConfigs;
      }
      r := Pass;
    }

    /** `addCustomDriver(customDrivers)`: appends, never removes or reorders. */
    method AddCustomDriver(customDrivers: seq<DriverType>)
      modifies this`drivers
      ensures drivers == old(drivers) + Installed(customDrivers)
    {
      if |customDrivers| > 0 {
        drivers := drivers + Installed(customDrivers);
      }
    }

    /** `getDisk(diskName)`: a fresh driver instance built from the first
        configuration of that name, or the error thrown. */
    method GetDisk(diskName: string) returns (r: Result<DriverBase.Driver>)
      ensures Instantiate(availableDisks, drivers, diskName).Failure? ==>
        r == Failure(Instantiate(availableDisks, drivers, diskName).error)
      ensures Instantiate(availableDisks, drivers, diskName).Success? ==>
        && r.Success? && fresh(r.value)
        && r.value.config == Instantiate(availableDisks, drivers, diskName).value.0
        && r.value.driverType == Instantiate(availableDisks, drivers, diskName).value.1
        && r.value.name == diskName
    {
      match Resolve(availableDisks, drivers, diskName)
      case Failure(e) => return Failure(e);
      case Success(found) =>
        var (config, driverClass) := found;
        var constructed := Construct(config, driverClass);
        if constructed.Fail? {
          return Failure(constructed.error);
        }
        var driver := new DriverBase.Driver(driverClass, config);
        r := Success(driver);
    }
  }

  /** The options object `config` destructures. */
  datatype StorageConfiguration = StorageConfiguration(
    diskConfigs: seq<DiskConfig>,
    customDrivers: seq<DriverType>,
    defaultDiskName: Option<string>,
    uniqueFileName: bool)

  /** `config()` called with no options. */
  const NoOptions: StorageConfiguration := StorageConfiguration([], [], None, false)

  /** The default disk `config` settles on once the registry is replaced:
      the given name when truthy, else the only registered disk. */
  function DefaultDiskName(given: Option<string>, disks: seq<DiskConfig>): (r: Result<string>)
    requires |disks| > 0
    ensures Truthy(given) ==> r == Success(given.value)
    ensures !Truthy(given) ==> (r.Success? <==> |disks| == 1)
    ensures !Truthy(given) && |disks| == 1 ==> r == Success(disks[0].name)
    ensures r.Failure? ==> r.error == MissingDefaultDisk
  {
    if Truthy(given) then Success(given.value)
    else if |disks| > 1 then Failure(MissingDefaultDisk)
    else Success(disks[0].name)
  }

  /** The base of the result `put` resolves with. */
  function Envelope(path: string, storedPath: string): (envelope: Record)
  {
    map["success" := Bool(true), "message" := Str("Uploading success"),
        "name" := Str(FileName(path)), "path" := Str(storedPath)]
  }

  /** The path the driver is asked to store under. */
  function TargetPath(path: string, uniqueFileName: bool, token: string): (target: string)
  {
    if uniqueFileName then ReplaceBase(path, token) else path
  }

  /** The after-put chain from plugin `i` on: each hooked plugin, in order,
      stores what its hook returns for the current `result.path` under its
      key; the first failing hook aborts the chain. */
  function RunHooks(plugins: seq<Plugin>, i: nat, result: Record, afterPut: (nat, Value) -> Result<Value>)
    : (r: Result<Record>)
    requires "path" in result
    decreases |plugins| - i
  {
    if i >= |plugins| then Success(result)
    else if Hooked(plugins[i]) then
      match afterPut(i, result["path"])
      case Failure(e) => Failure(e)
      case Success(v) => RunHooks(plugins, i + 1, result[plugins[i].afterPutKey.value := v], afterPut)
    else RunHooks(plugins, i + 1, result, afterPut)
  }

  /** What `put(data, path)` resolves or rejects with, given the upload token,
      the default driver's `put` and the plugins' hooks. */
  function PutOutcome(path: string, token: string, uniqueFileName: bool,
                      driverPut: string -> Result<Record>, plugins: seq<Plugin>,
                      afterPut: (nat, Value) -> Result<Value>): (r: Result<Record>)
  {
    var target := TargetPath(path, uniqueFileName, token);
    match driverPut(target)
    case Failure(e) => Failure(e)
    case Success(data) => RunHooks(plugins, 0, Overlay(Envelope(path, target), data), afterPut)
  }

  /** A field no remaining hook writes keeps its value through the chain. */
  lemma {:induction false} RunHooksKeeps(plugins: seq<Plugin>, i: nat, result: Record,
                                         afterPut: (nat, Value) -> Result<Value>, key: string)
    requires "path" in result && key in result
    requires forall k :: i <= k < |plugins| && Hooked(plugins[k]) ==> plugins[k].afterPutKey.value != key
    requires RunHooks(plugins, i, result, afterPut).Success?
    ensures key in RunHooks(plugins, i, result, afterPut).value
    ensures RunHooks(plugins, i, result, afterPut).value[key] == result[key]
    decreases |plugins| - i
  {
    if i < |plugins| {
      if Hooked(plugins[i]) {
        var v := afterPut(i, result["path"]).value;
        RunHooksKeeps(plugins, i + 1, result[plugins[i].afterPutKey.value := v], afterPut, key);
      } else {
        RunHooksKeeps(plugins, i + 1, result, afterPut, key);
      }
    }
  }

  /** When no hook writes `path` and no later plugin shares its key, a hooked
      plugin's key ends up holding what its hook returned for the stored path. */
  lemma {:induction false} HookOutputRecorded(plugins: seq<Plugin>, i: nat, result: Record,
                                              afterPut: (nat, Value) -> Result<Value>, j: nat)
    requires "path" in result
    requires i <= j < |plugins| && Hooked(plugins[j])
    requires forall k :: i <= k < |plugins| && Hooked(plugins[k]) ==> plugins[k].afterPutKey.value != "path"
    requires forall k :: j < k < |plugins| && Hooked(plugins[k]) ==> plugins[k].afterPutKey != plugins[j].afterPutKey
    requires RunHooks(plugins, i, result, afterPut).Success?
    ensures afterPut(j, result["path"]).Success?
    ensures plugins[j].afterPutKey.value in RunHooks(plugins, i, result, afterPut).value
    ensures RunHooks(plugins, i, result, afterPut).value[plugins[j].afterPutKey.value] == afterPut(j, result["path"]).value
    decreases j - i
  {
    if i == j {
      var key := plugins[j].afterPutKey.value;
      var next := result[key := afterPut(j, result["path"]).value];
      RunHooksKeeps(plugins, j + 1, next, afterPut, key);
    } else if Hooked(plugins[i]) {
      var next := result[plugins[i].afterPutKey.value := afterPut(i, result["path"]).value];
      assert next["path"] == result["path"];
      HookOutputRecorded(plugins, i + 1, next, afterPut, j);
    } else {
      HookOutputRecorded(plugins, i + 1, result, afterPut, j);
    }
  }

  /** The chain fails exactly with the error of its first failing hook: the
      hooks before it ran and succeeded (none of them rewriting `path`), and
      no hook after it runs. */
  lemma {:induction false} FirstFailingHookAborts(plugins: seq<Plugin>, i: nat, result: Record,
                                                  afterPut: (nat, Value) -> Result<Value>, j: nat)
    requires "path" in result
    requires i <= j < |plugins| && Hooked(plugins[j])
    requires forall k :: i <= k < j && Hooked(plugins[k]) ==>
      afterPut(k, result["path"]).Success? && plugins[k].afterPutKey.value != "path"
    requires afterPut(j, result["path"]).Failure?
    ensures RunHooks(plugins, i, result, afterPut) == Failure(afterPut(j, result["path"]).error)
    decreases j - i
  {
    if i < j {
      if Hooked(plugins[i]) {
        var next := result[plugins[i].afterPutKey.value := afterPut(i, result["path"]).value];
        assert next["path"] == result["path"];
        FirstFailingHookAborts(plugins, i + 1, next, afterPut, j);
      } else {
        FirstFailingHookAborts(plugins, i + 1, result, afterPut, j);
      }
    }
  }

  /** The envelope of a successful put: success, message, the name taken from
      the original path and the stored path, unless the driver's result or a
      hook overrides them. */
  lemma PutEnvelope(path: string, token: string, uniqueFileName: bool,
                    driverPut: string -> Result<Record>, plugins: seq<Plugin>,
                    afterPut: (nat, Value) -> Result<Value>, key: string)
    requires key in {"success", "message", "name", "path"}
    requires driverPut(TargetPath(path, uniqueFileName, token)).Success?
    requires key !in driverPut(TargetPath(path, uniqueFileName, token)).value
    requires forall k :: 0 <= k < |plugins| && Hooked(plugins[k]) ==> plugins[k].afterPutKey.value != key
    requires PutOutcome(path, token, uniqueFileName, driverPut, plugins, afterPut).Success?
    ensures var v := PutOutcome(path, token, uniqueFileName, driverPut, plugins, afterPut).value;
      key in v && v[key] == Envelope(path, TargetPath(path, uniqueFileName, token))[key]
  {
    var target := TargetPath(path, uniqueFileName, token);
    var start := Overlay(Envelope(path, target), driverPut(target).value);
    RunHooksKeeps(plugins, 0, start, afterPut, key);
  }

  /** Over the S3 driver, whose result carries `success` and `message` but
      not `name` or `path`, the facade reports the name of the original path
      and the path the driver stored under. */
  lemma PutOverS3NameAndPath(path: string, token: string, uniqueFileName: bool, uploaded: Record,
                             plugins: seq<Plugin>, afterPut: (nat, Value) -> Result<Value>)
    requires "name" !in uploaded && "path" !in uploaded
    requires forall k :: 0 <= k < |plugins| && Hooked(plugins[k]) ==> plugins[k].afterPutKey.value !in {"name", "path"}
    requires PutOutcome(path, token, uniqueFileName, _ => Success(S3.UploadResult(uploaded)), plugins, afterPut).Success?
    ensures var v := PutOutcome(path, token, uniqueFileName, _ => Success(S3.UploadResult(uploaded)), plugins, afterPut).value;
      && "name" in v && v["name"] == Str(FileName(path))
      && "path" in v && v["path"] == Str(TargetPath(path, uniqueFileName, token))
  {
    var driverPut: string -> Result<Record> := _ => Success(S3.UploadResult(uploaded));
    PutEnvelope(path, token, uniqueFileName, driverPut, plugins, afterPut, "name");
    PutEnvelope(path, token, uniqueFileName, driverPut, plugins, afterPut, "path");
  }

  /** A field of the driver's result that no hook writes reaches the caller
      as the driver reported it, over the envelope's own value. */
  lemma DriverFieldsOverride(path: string, token: string, uniqueFileName: bool,
                             driverPut: string -> Result<Record>, plugins: seq<Plugin>,
                             afterPut: (nat, Value) -> Result<Value>, key: string)
    requires driverPut(TargetPath(path, uniqueFileName, token)).Success?
    requires key in driverPut(TargetPath(path, uniqueFileName, token)).value
    requires forall k :: 0 <= k < |plugins| && Hooked(plugins[k]) ==> plugins[k].afterPutKey.value != key
    requires PutOutcome(path, token, uniqueFileName, driverPut, plugins, afterPut).Success?
    ensures key in PutOutcome(path, token, uniqueFileName, driverPut, plugins, afterPut).value
    ensures PutOutcome(path, token, uniqueFileName, driverPut, plugins, afterPut).value[key]
      == driverPut(TargetPath(path, uniqueFileName, token)).value[key]
  {
    var target := TargetPath(path, uniqueFileName, token);
    var start := Overlay(Envelope(path, target), driverPut(target).value);
    RunHooksKeeps(plugins, 0, start, afterPut, key);
  }

  /** The unique-filename policy: the driver is asked to store under the same
      directory and extension with the token as name; without the policy the
      path is passed through unchanged. */
  lemma UniqueFileNamePolicy(path: string, token: string)
    requires TokenShaped(token)
    ensures TargetPath(path, false, token) == path
    ensures DirPrefix(TargetPath(path, true, token)) == DirPrefix(path)
    ensures BaseName(TargetPath(path, true, token)) == token + ExtName(BaseName(path))
    ensures ExtName(BaseName(TargetPath(path, true, token))) == ExtName(BaseName(path))
  {
    ReplaceBaseKeepsDirAndExt(path, token);
  }

  /** Two puts of the same path under the policy are stored apart exactly
      when their tokens differ. */
  lemma DistinctTokensDistinctPaths(path: string, t1: string, t2: string)
    ensures TargetPath(path, true, t1) == TargetPath(path, true, t2) <==> t1 == t2
  {
    if t1 != t2 {
      ReplaceBaseInjective(path, t1, t2);
    }
  }

  /** Over an S3 disk the facade reports the S3 driver's message, since the
      driver's fields overwrite the envelope. */
  lemma PutOverS3Message(path: string, token: string, uniqueFileName: bool, uploaded: Record,
                         plugins: seq<Plugin>, afterPut: (nat, Value) -> Result<Value>)
    requires "message" !in uploaded
    requires forall k :: 0 <= k < |plugins| && Hooked(plugins[k]) ==> plugins[k].afterPutKey.value != "message"
    requires PutOutcome(path, token, uniqueFileName, _ => Success(S3.UploadResult(uploaded)), plugins, afterPut).Success?
    ensures "message" in PutOutcome(path, token, uniqueFileName, _ => Success(S3.UploadResult(uploaded)), plugins, afterPut).value
    ensures PutOutcome(path, token, uniqueFileName, _ => Success(S3.UploadResult(uploaded)), plugins, afterPut).value["message"]
      == Str("Uploading success!")
  {
    var target := TargetPath(path, uniqueFileName, token);
    var start := Overlay(Envelope(path, target), S3.UploadResult(uploaded));
    RunHooksKeeps(plugins, 0, start, afterPut, "message");
  }

  /** What `disk()` returns: a driver, or a new facade. */
  datatype DiskHandle = DriverHandle(driver: DriverBase.Driver?) | StorageHandle(storage: StorageClass)

  /** The storage facade. */
  class StorageClass {
    const registry: Registry
    var defaultDisk: DriverBase.Driver?
    var pluginInstances: seq<Plugin>
    var uniqueFileName: bool

    /** `new StorageClass(false)`: not configured yet. */
    constructor (registry: Registry)
      ensures this.registry == registry
      ensures defaultDisk == null && pluginInstances == [] && !uniqueFileName
    {
      this.registry := registry;
      defaultDisk := null;
      pluginInstances := [];
      uniqueFileName := false;
    }

    /** The `name` getter: the default disk's name. */
    function Name(): (name: string)
      reads this
      requires defaultDisk != null
    {
      defaultDisk.name
    }

    /** `config(options)`: replaces the registry, appends the custom drivers,
        settles the default disk name, records the unique-filename flag, then
        resolves the default disk and instantiates the plugins.  Each failure
        leaves what was already done in place. */
    method Config(options: StorageConfiguration) returns (r: Outcome)
      requires registry.Valid()
      modifies this, registry
      ensures registry.Valid()
      ensures DuplicatedNames(options.diskConfigs) ==>
        && r == Fail(DuplicatedDiskName)
        && registry.availableDisks == [] && registry.drivers == old(registry.drivers)
        && defaultDisk == old(defaultDisk) && uniqueFileName == old(uniqueFileName)
        && pluginInstances == old(pluginInstances)
      ensures !DuplicatedNames(options.diskConfigs) ==>
        && registry.availableDisks == Registered(options.diskConfigs)
        && registry.drivers == old(registry.drivers) + Installed(options.customDrivers)
      ensures (!DuplicatedNames(options.diskConfigs)
        && DefaultDiskName(options.defaultDiskName, Registered(options.diskConfigs)).Failure?) ==>
        && r == Fail(MissingDefaultDisk)
        && defaultDisk == old(defaultDisk) && uniqueFileName == old(uniqueFileName)
        && pluginInstances == old(pluginInstances)
      ensures (!DuplicatedNames(options.diskConfigs)
        && DefaultDiskName(options.defaultDiskName, Registered(options.diskConfigs)).Success?) ==>
        var name := DefaultDiskName(options.defaultDiskName, Registered(options.diskConfigs)).value;
        var resolved := Instantiate(registry.availableDisks, registry.drivers, name);
        && uniqueFileName == options.uniqueFileName
        && (resolved.Failure? ==>
              r == Fail(resolved.error) && defaultDisk == old(defaultDisk) && pluginInstances == old(pluginInstances))
        && (resolved.Success? ==>
              && r == Pass && defaultDisk != null && fresh(defaultDisk)
              && defaultDisk.config == resolved.value.0 && defaultDisk.driverType == resolved.value.1
              && Name() == name && pluginInstances == registry.plugins)
    {
      var handled := registry.HandleDiskConfigs(options.diskConfigs);
      if handled.Fail? {
        return handled;
      }
      registry.AddCustomDriver(options.customDrivers);
      var chosen := DefaultDiskName(options.defaultDiskName, registry.availableDisks);
      if chosen.Failure? {
        return Fail(chosen.error);
      }
      uniqueFileName := options.uniqueFileName;
      var disk := registry.GetDisk(chosen.value);
      if disk.Failure? {
        return Fail(disk.error);
      }
      defaultDisk := disk.value;
      pluginInstances := registry.plugins;
      r := Pass;
    }

    /** `disk(diskName, asStorage)`: the default driver when no name is given;
        a freshly resolved driver; or, as storage, a new facade configured
        with the registry's own disks and that name as default. */
    method Disk(diskName: Option<string>, asStorage: bool) returns (r: Result<DiskHandle>)
      requires registry.Valid()
      modifies registry
      ensures registry.Valid()
      ensures !Truthy(diskName) ==> r == Success(DriverHandle(defaultDisk)) && unchanged(registry)
      ensures Truthy(diskName) && !asStorage ==>
        var resolved := Instantiate(registry.availableDisks, registry.drivers, diskName.value);
        && unchanged(registry)
        && (resolved.Failure? ==> r == Failure(resolved.error))
        && (resolved.Success? ==>
              && r.Success? && r.value.DriverHandle? && r.value.driver != null && fresh(r.value.driver)
              && r.value.driver.config == resolved.value.0 && r.value.driver.driverType == resolved.value.1
              && r.value.driver.name == diskName.value)
      ensures Truthy(diskName) && asStorage ==>
        var resolved := Instantiate(Registered(old(registry.availableDisks)), registry.drivers, diskName.value);
        && registry.availableDisks == Registered(old(registry.availableDisks))
        && registry.drivers == old(registry.drivers)
        && (resolved.Failure? ==> r == Failure(resolved.error))
        && (resolved.Success? ==>
              && r.Success? && r.value.StorageHandle? && fresh(r.value.storage)
              && r.value.storage.registry == registry
              && r.value.storage.defaultDisk != null
              && r.value.storage.Name() == diskName.value
              && r.value.storage.defaultDisk.config == resolved.value.0
              && r.value.storage.defaultDisk.driverType == resolved.value.1
              && !r.value.storage.uniqueFileName
              && r.value.storage.pluginInstances == registry.plugins)
    {
      if !Truthy(diskName) {
        return Success(DriverHandle(defaultDisk));
      }
      if asStorage {
        var storage := new StorageClass(registry);
        var configured := storage.Config(StorageConfiguration(registry.availableDisks, [], diskName, false));
        if configured.Fail? {
          return Failure(configured.error);
        }
        return Success(StorageHandle(storage));
      }
      var driver := registry.GetDisk(diskName.value);
      if driver.Failure? {
        return Failure(driver.error);
      }
      r := Success(DriverHandle(driver.value));
    }

    /** `put(data, path)`: builds the envelope, applies the unique-filename
        policy with `token`, asks the default driver to store under the
        resulting path, overlays its result and runs the after-put hooks of the
        plugins in order. */
    method Put(path: string, token: string, driverPut: string -> Result<Record>,
               afterPut: (nat, Value) -> Result<Value>)
      returns (r: Result<Record>)
      requires defaultDisk != null
      ensures r == PutOutcome(path, token, uniqueFileName, driverPut, pluginInstances, afterPut)
    {
      var result := Envelope(path, path);
      if uniqueFileName {
        result := result["path" := Str(ReplaceBase(path, token))];
      }
      assert result == Envelope(path, TargetPath(path, uniqueFileName, token));
      var putData := driverPut(result["path"].s);
      if putData.Failure? {
        return Failure(putData.error);
      }
      result := Overlay(result, putData.value);
      ghost var start := result;
      var i := 0;
      while i < |pluginInstances|
        invariant 0 <= i <= |pluginInstances|
        invariant "path" in result
        invariant RunHooks(pluginInstances, 0, start, afterPut) == RunHooks(pluginInstances, i, result, afterPut)
      {
        var plugin := pluginInstances[i];
        if Hooked(plugin) {
          var afterPutData := afterPut(i, result["path"]);
          if afterPutData.Failure? {
            assert RunHooks(pluginInstances, i, result, afterPut) == Failure(afterPutData.error);
            return Failure(afterPutData.error);
          }
          result := result[plugin.afterPutKey.value := afterPutData.value];
        }
        i := i + 1;
      }
      r := Success(result);
    }
  }

  /** `new StorageClass()`: construction followed by `config()` with no
      options, as the exported `Storage` instance is made. */
  method NewConfiguredStorage(registry: Registry) returns (storage: StorageClass, r: Outcome)
    requires registry.Valid()
    modifies registry
    ensures fresh(storage) && storage.registry == registry && registry.Valid()
    ensures registry.availableDisks == [DefaultDiskConfig] && registry.drivers == old(registry.drivers)
    ensures Instantiate([DefaultDiskConfig], registry.drivers, "local").Failure? ==>
      r == Fail(Instantiate([DefaultDiskConfig], registry.drivers, "local").error) && storage.defaultDisk == null
    ensures Instantiate([DefaultDiskConfig], registry.drivers, "local").Success? ==>
      r == Pass && storage.defaultDisk != null && storage.Name() == "local"
  {
    storage := new StorageClass(registry);
    r := storage.Config(NoOptions);
  }

  /** The single-disk set-up of the GCS driver's tests: one disk, no default
      name, and the facade reports that disk's name. */
  method SingleDiskBecomesDefault() returns (name: string)
    ensures name == "my_gcs"
  {
    var gcs := DriverType("GoogleCloudStorageDriver", Some("gcs"));
    var registry := new Registry(None, None, None, None, Some(gcs), None);
    var storage := new StorageClass(registry);
    var disk := DiskConfig("my_gcs", Named("gcs"), map["bucketName" := "my_gcs_bucket", "projectId" := "test"]);
    assert !DuplicatedNames([disk]);
    assert Provides(registry.drivers[4], "gcs");
    MissingDriverErrors([disk], registry.drivers, "my_gcs", 0);
    assert Installed([]) == [];
    assert Instantiate([disk], registry.drivers, "my_gcs").Success?;
    ghost var drivers := registry.drivers;
    var configured := storage.Config(StorageConfiguration([disk], [], None, false));
    assert registry.drivers == drivers;
    assert Registered([disk]) == registry.availableDisks == [disk];
    assert Instantiate(registry.availableDisks, registry.drivers, "my_gcs").Success?;
    name := storage.Name();
  }

  /** A facade configured with two disks, "local" on the local driver and
      "remote" on S3, and "local" as its default. */
  method TwoDiskStorage() returns (storage: StorageClass)
    ensures fresh(storage) && fresh(storage.registry) && storage.registry.Valid()
    ensures storage.defaultDisk != null && storage.Name() == "local"
    ensures storage.registry.availableDisks
      == [DiskConfig("local", Named("local"), map[]), DiskConfig("remote", Named("s3"), map["bucketName" := "b"])]
    ensures Instantiate(storage.registry.availableDisks, storage.registry.drivers, "remote")
      == Success((DiskConfig("remote", Named("s3"), map["bucketName" := "b"]), S3.S3DriverType))
  {
    var local := DriverType("LocalDriver", Some("local"));
    var registry := new Registry(Some(S3.S3DriverType), None, Some(local), None, None, None);
    storage := new StorageClass(registry);
    var localDisk := DiskConfig("local", Named("local"), map[]);
    var remoteDisk := DiskConfig("remote", Named("s3"), map["bucketName" := "b"]);
    var disks := [localDisk, remoteDisk];
    assert !DuplicatedNames(disks);
    ghost var drivers := registry.drivers;
    FindFirst(disks, (c: DiskConfig) => c.name == "local", 0);
    FindFirst(disks, (c: DiskConfig) => c.name == "remote", 1);
    FindFirst(drivers, (slot: Option<DriverType>) => Provides(slot, "local"), 2);
    FindFirst(drivers, (slot: Option<DriverType>) => Provides(slot, "s3"), 0);
    assert Instantiate(disks, drivers, "local") == Success((localDisk, local));
    assert Instantiate(disks, drivers, "remote") == Success((remoteDisk, S3.S3DriverType));
    assert Installed([]) == [];
    var configured := storage.Config(StorageConfiguration(disks, [], Some("local"), false));
    assert registry.drivers == drivers;
    assert Registered(disks) == registry.availableDisks == disks;
  }

  /** Two disks with an explicit default: the facade is named after the
      default, `disk("remote")` builds an S3 driver, and `disk("remote", true)`
      is a facade named "remote" while the caller's default stays "local". */
  method SecondaryDiskScenario() returns (name: string, remote: DriverType, scopedName: string, nameAfter: string)
    ensures name == "local" && remote == S3.S3DriverType && scopedName == "remote"
    ensures nameAfter == "local"
  {
    var storage := TwoDiskStorage();
    name := storage.Name();
    var driver := storage.Disk(Some("remote"), false);
    remote := driver.value.driver.driverType;
    var scoped := storage.Disk(Some("remote"), true);
    scopedName := scoped.value.storage.Name();
    nameAfter := storage.Name();
  }
}
