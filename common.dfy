/** Vocabulary shared by the storage packages: option and result wrappers, the
    error taxonomy with its messages, plain JavaScript records, disk
    configurations, driver types and plugins. */
module Common {

  datatype Option<T> = None | Some(value: T)

  /** Every error the modelled code throws or rejects with. */
  datatype Error =
    | DuplicatedDiskName
    | DiskNotDefined(diskName: string)
    | DriverNotInstalled(id: string)
    | DriverNotDeclared(driverName: string)
    | MissingDefaultDisk
    | BucketNameRequired
    | NotAnImage(uri: string)
    | Unauthenticated(message: string)
    | FileNotFound(message: string)
    | Backend(code: string, message: string)   // an error raised by a backend SDK, passed through

  /** The text of the `Error` object each error is thrown as. */
  function Message(e: Error): (text: string)
  {
    match e
    case DuplicatedDiskName => "Duplicated disk name."
    case DiskNotDefined(n) => "Given disk is not defined: " + n
    case DriverNotInstalled(id) => "Please install `@file-storage/" + id + "` for " + id + " driver"
    case DriverNotDeclared(n) => "Driver '" + n + "' is not declared."
    case MissingDefaultDisk => "Please specify a default disk name."
    case BucketNameRequired => "Bucket name is required"
    case NotAnImage(uri) => "Not an image: " + uri
    case Unauthenticated(m) => m
    case FileNotFound(m) => m
    case Backend(_, m) => m
  }

  /** A call that returns a value or throws (a promise that resolves or rejects). */
  datatype Result<T> = Success(value: T) | Failure(error: Error)

  /** A call that returns nothing of interest or throws. */
  datatype Outcome = Pass | Fail(error: Error)

  /** A JavaScript value, as far as the core inspects it. */
  datatype Value =
    | Bool(b: bool)
    | Str(s: string)
    | Num(n: int)
    | Stream(id: nat, isPassThrough: bool)
    | Opaque(id: nat)

  /** A plain JavaScript object; key order is not modelled. */
  type Record = map<string, Value>

  /** `Object.assign({}, base, top)` and `{...base, ...top}`: the fields of
      `top` win over those of `base`. */
  function Overlay(base: Record, top: Record): (r: Record)
    ensures r.Keys == base.Keys + top.Keys
    ensures forall k :: k in top ==> r[k] == top[k]
    ensures forall k :: k in base && k !in top ==> r[k] == base[k]
  {
    base + top
  }

  /** JavaScript truthiness of an optional string: present and not empty. */
  predicate Truthy(s: Option<string>)
  {
    s.Some? && s.value != ""
  }

  /** `Array.prototype.find`: the first element satisfying `p`, if any. */
  function Find<T>(s: seq<T>, p: T -> bool): (r: Option<T>)
    ensures r.None? <==> forall i :: 0 <= i < |s| ==> !p(s[i])
    ensures r.Some? ==> exists i :: 0 <= i < |s| && s[i] == r.value && p(s[i]) && forall j :: 0 <= j < i ==> !p(s[j])
  {
    if |s| == 0 then None
    else if p(s[0]) then Some(s[0])
    else
      var r := Find(s[1..], p);
      assert forall i :: 1 <= i < |s| ==> s[i] == s[1..][i - 1];
      r
  }

  /** `find` returns the element at the first index satisfying `p`. */
  lemma FindFirst<T>(s: seq<T>, p: T -> bool, i: int)
    requires 0 <= i < |s| && p(s[i])
    requires forall j :: 0 <= j < i ==> !p(s[j])
    ensures Find(s, p) == Some(s[i])
  {
    var r := Find(s, p);
    var k :| 0 <= k < |s| && s[k] == r.value && p(s[k]) && forall j :: 0 <= j < k ==> !p(s[j]);
    assert k == i;
  }

  /** A driver class: its own name and its optional static `driverName`. */
  datatype DriverType = DriverType(className: string, driverName: Option<string>)

  /** The `driver` field of a disk configuration: a driver identifier or a class. */
  datatype DriverRef = Named(id: string) | Custom(driverClass: DriverType)

  /** A disk configuration: its unique name, its driver and the backend's own
      fields (`root`, `bucketName`, `publicUrl`, ...). */
  datatype DiskConfig = DiskConfig(name: string, driver: DriverRef, options: map<string, string>)

  /** The values of the `DriverName` enumeration of the built-in backends. */
  const DriverNames: set<string> := {"s3", "ftp", "local", "sftp", "gcs"}

  /** A plugin instance: its optional `afterPutKey` and whether it has an `afterPut` hook. */
  datatype Plugin = Plugin(afterPutKey: Option<string>, hasAfterPut: bool)

  /** The hook runs only when both the key (a non-empty string) and the function are present. */
  predicate Hooked(p: Plugin)
  {
    Truthy(p.afterPutKey) && p.hasAfterPut
  }
}
