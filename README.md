# file-storage: disk registry, storage facade and S3 driver logic

This project models the core of the `file-storage` TypeScript library in Dafny. The library is a filesystem abstraction. An application declares named disks, each backed by a driver (local, S3, FTP, SFTP, GCS or a custom driver class), and then goes through the `Storage` facade.

The model covers three parts:

- **Registry and resolver** (`FileStorage`, file `file_storage.dfy`).
  - The module-level tables `availableDisks`, `drivers` and `plugins` live in one `Registry` object. Every facade shares it by reference.
  - `handleDiskConfigs` and `addCustomDriver` are methods on it that update it in place.
  - `getDisk` resolves a disk name to a driver class and builds a fresh instance.
  - The pure half of that lookup is `Resolve`, plus `Instantiate`, which adds the constructor's own check.
- **Storage facade** (`FileStorage.StorageClass`).
  - Its fields are `defaultDisk`, `pluginInstances` and `uniqueFileName`.
  - `config` replaces the registry, appends custom drivers, chooses the default disk and records the flag.
  - `disk` returns one of three kinds of handle.
  - `put` builds a result envelope, applies the unique-filename policy and overlays the driver's result. It then runs the `afterPut` plugin chain in a loop, and the loop is proved against `RunHooks`.
- **Driver base class and S3 driver** (`DriverBase`, `S3`).
  - The base constructor copies the disk name.
  - `uploadImageFromExternalUri` has a content-type guard and first-settlement-wins promise semantics.
  - The S3 driver covers bucket validation, URL building and the directory-key normalisation.
  - It also covers the classification of SDK error codes, the shapes of the put request and result, and the outcomes of `exists`, `delete`, `makeDir` and `removeDir`.

Shared vocabulary is in `common.dfy`: errors with their message texts, results, JavaScript records, disk configurations and plugins. The POSIX path split used by the unique-filename policy is in `paths.dfy`.

Foreign calls are parameters, given as functions from the request to the outcome. These are the driver's `put`, the plugins' `afterPut`, the S3 SDK calls and the reply of the HEAD request. The upload token (a v4 UUID in the library) is a parameter too.

Three behaviours of the code are worth stating plainly:

- A configuration with duplicated disk names leaves the registry **empty**, not as it was, because the table is reset before the check (packages/core/lib/file-storage.ts:40). A later `disk(n, true)` over that empty registry then reinstalls the built-in local disk.
- When the default disk name is missing, the new disk list is already installed and custom drivers already appended (packages/core/lib/file-storage.ts:121-126). So a failed `config` does leave a partial configuration in place.
- The S3 driver's `errorHandler` is defined at packages/s3-driver/lib/s3-driver.ts:37-48, but none of the driver's own methods calls it. SDK errors from `size`, `lastModified`, `get`, `delete` and `removeDir` therefore reach the caller unclassified. `S3.ErrorHandler` models the function itself.

Two members have no contract of their own and are used by the ones below:
- `FileStorage.StorageClass.Name` is the `name` getter (packages/core/lib/file-storage.ts:110-112), the default driver's name. `Config`, `Disk` and the scenarios state what it returns.
- `Common.Message` gives the text each error is thrown with. These are the texts at packages/core/lib/file-storage.ts:46, 69, 81, 85 and 126, packages/s3-driver/lib/s3-driver.ts:30 and packages/common/lib/driver.class.ts:103.

## Model

| member | source | states |
|---|---|---|
| Common.Overlay | packages/core/lib/file-storage.ts:199 | `Object.assign({}, base, top)`: the keys of both; `top`'s values win, `base`'s kept elsewhere |
| Common.Find | packages/core/lib/file-storage.ts:66 | `Array.find`: None iff no element satisfies the predicate; otherwise the element at the first satisfying index |
| Common.FindFirst | packages/core/lib/file-storage.ts:75 | an element satisfying the predicate with none before it is the one `find` returns |
| Paths.BaseName | packages/core/lib/file-storage.ts:192 | the base name is the part of the path after its last separator: it contains no separator, and the directory prefix followed by it is the path |
| Paths.ExtName | packages/core/lib/file-storage.ts:193 | the extension is empty exactly when the base has no dot past its first character or is ".."; otherwise it is the suffix from the last dot on, with no further dot |
| Paths.ReplaceBaseKeepsDirAndExt | packages/core/lib/file-storage.ts:191-195 | re-parsing the rewritten path gives the original directory, base = token + original extension, and the original extension |
| Paths.ReplaceBaseInjective | packages/core/lib/file-storage.ts:192-194 | distinct tokens give distinct rewritten paths |
| Paths.FileNameOfSegment | packages/common/lib/utils.spec.ts:5-10 | `getFileName` of dir + name + query string is the name, for every dir ending in '/', name without '/' or '?', and query starting with '?' |
| DriverBase.Driver.constructor | packages/common/lib/driver.class.ts:10-12 | a driver's `name` is its configuration's `name` |
| DriverBase.HasSubstring | packages/common/lib/driver.class.ts:94 | the unanchored `match(/image/)` holds iff the literal occurs at some index |
| DriverBase.Settle | packages/common/lib/driver.class.ts:87-104 | the first resolve/reject records its own value; later calls change nothing |
| DriverBase.UploadImageFromExternalUri | packages/common/lib/driver.class.ts:82-107 | `put` runs iff the flag is set or the response's content-type contains "image"; a HEAD error rejects with it even when `put` runs; otherwise the outcome is `put`'s, or 'Not an image: ' + uri |
| DriverBase.ContentTypeGuardAccepts | packages/common/lib/driver.class.ts:92-95 | any content type with "image" anywhere inside passes the guard |
| DriverBase.ContentTypeGuardRefuses | packages/common/lib/driver.class.ts:92-95 | a content type in which lower-case "image" occurs nowhere fails the guard |
| DriverBase.MissingContentTypeRefused | packages/common/lib/driver.class.ts:94 | a response without a content-type header fails the guard |
| S3.Validate | packages/s3-driver/lib/s3-driver.ts:28-31 | the constructor passes iff `bucketName` is non-empty, else throws 'Bucket name is required' |
| S3.NewS3Driver | packages/s3-driver/lib/s3-driver.ts:26-35 | construction fails exactly when the bucket name is falsy; otherwise the driver stores the name, bucket and public URL |
| S3.S3Driver.constructor | packages/s3-driver/lib/s3-driver.ts:26-33 | a constructed driver has the disk's name, the S3 class, a non-empty bucket and the configured public URL |
| S3.S3Driver.UrlPrefix | packages/s3-driver/lib/s3-driver.ts:50-54 | the prefix is the public URL plus '/' when it is set, else the bucket's `s3.amazonaws.com` address; it always ends in '/' |
| S3.S3Driver.Url | packages/s3-driver/lib/s3-driver.ts:50-54 | the URL is the prefix followed by the path, with nothing looked up |
| S3.S3Driver.UrlInjective | packages/s3-driver/lib/s3-driver.ts:50-54 | distinct paths have distinct URLs |
| S3.S3Driver.Exists | packages/s3-driver/lib/s3-driver.ts:56-67 | true iff the HEAD of (bucket, path) succeeds; never an error |
| S3.S3Driver.Put | packages/s3-driver/lib/s3-driver.ts:91-121 | request = defaults {Bucket, Key, Body, ACL: public-read} overlaid by params, with Body replaced by the pipe unless it is a PassThrough; result = upload result over {success: true, message: 'Uploading success!'}, or the upload's error |
| S3.UploadResult | packages/s3-driver/lib/s3-driver.ts:116-120 | the keys are exactly `success`, `message` and the upload's own; the upload's fields are kept, and `success`/`message` default to true and 'Uploading success!' |
| S3.S3Driver.Delete | packages/s3-driver/lib/s3-driver.ts:139-153 | resolves true iff the SDK deletes (bucket, key); otherwise rejects with the SDK's error |
| S3.DirKey | packages/s3-driver/lib/s3-driver.ts:181 | the key ends in '/', starts with the directory, and is the directory itself when that already ends in '/' |
| S3.DirKeyIdempotent | packages/s3-driver/lib/s3-driver.ts:181 | normalising a key twice gives the same key |
| S3.DirKeyIgnoresTrailingSlash | packages/s3-driver/lib/s3-driver.ts:193 | "d" and "d/" give the same key exactly when "d" does not already end in '/' |
| S3.S3Driver.MakeDir | packages/s3-driver/lib/s3-driver.ts:178-188 | puts the placeholder under the normalised key and resolves with `dir` as given; otherwise rejects with the SDK's error |
| S3.S3Driver.RemoveDir | packages/s3-driver/lib/s3-driver.ts:190-199 | deletes the placeholder under the normalised key and resolves with `dir` as given; otherwise rejects with the SDK's error |
| S3.S3Driver.MakeDirSameObject | packages/s3-driver/lib/s3-driver.ts:178-188 | "d" and "d/" create the same object, yet each resolves with its own argument |
| S3.ErrorHandler | packages/s3-driver/lib/s3-driver.ts:37-48 | 'CredentialsError' becomes an unauthenticated error and 'NotFound' a file-not-found error, both with the message kept; anything else is rethrown unchanged |
| FileStorage.Registered | packages/core/lib/file-storage.ts:49-53 | the installed list is never empty: the given list, or the built-in local disk for an empty one |
| FileStorage.HasDuplicatesName | packages/core/lib/file-storage.ts:42-43 | the seen-set scan reports true iff two configurations share a name |
| FileStorage.Registry.constructor | packages/core/lib/file-storage.ts:18-36 | at load time the registry holds only the local disk {local, storage}, the five built-in driver slots in order, and the installed plugin classes |
| FileStorage.Registry.HandleDiskConfigs | packages/core/lib/file-storage.ts:38-54 | a duplicated name throws 'Duplicated disk name.' and leaves the registry empty; otherwise the registry is exactly the given list, or the local disk alone |
| FileStorage.Registry.AddCustomDriver | packages/core/lib/file-storage.ts:59-63 | the driver list only grows: the old list followed by the custom classes |
| FileStorage.Installed | packages/core/lib/file-storage.ts:61 | every appended slot holds its custom class, in order |
| FileStorage.Resolve | packages/core/lib/file-storage.ts:65-86 | 'not defined' iff no configuration has the name; otherwise the first configuration of that name, its own class when given one, or the first installed slot whose `driverName` matches |
| FileStorage.MissingDriverErrors | packages/core/lib/file-storage.ts:77-86 | no matching slot throws 'please install' for a built-in identifier and 'not declared' otherwise; a class never fails lookup; a matching slot always resolves |
| FileStorage.AppendedDriversKeepResolution | packages/core/lib/file-storage.ts:75 | appending drivers never changes which class an already-resolving identifier selects |
| FileStorage.Registry.GetDisk | packages/core/lib/file-storage.ts:65-89 | returns a fresh driver built from the resolved configuration and class, named as asked, or throws the resolver's or the constructor's error |
| FileStorage.DefaultDiskName | packages/core/lib/file-storage.ts:124-129 | a truthy given name wins; otherwise it succeeds iff exactly one disk is registered, naming that disk; otherwise 'Please specify a default disk name.' |
| FileStorage.StorageClass.constructor | packages/core/lib/file-storage.ts:104-108 | an unconfigured facade has no default disk, no plugins and the policy off |
| FileStorage.StorageClass.Config | packages/core/lib/file-storage.ts:117-139 | duplicates: fails with the registry empty and the facade untouched; missing default: fails after replacing the registry, facade untouched; resolution failure: fails with the flag set; success: fresh default driver named as chosen, plugins from the registry |
| FileStorage.NewConfiguredStorage | packages/core/lib/file-storage.ts:254 | the exported instance is configured with the local disk alone and is named "local" whenever its driver is installed |
| FileStorage.SingleDiskBecomesDefault | packages/gcs-driver/lib/gcs-driver.spec.ts:10-27 | one GCS disk and no default name: the facade's name is "my_gcs" |
| FileStorage.StorageClass.Disk | packages/core/lib/file-storage.ts:150-165 | no name: the default driver; a name: a fresh resolved driver, registry untouched; as storage: a fresh facade over the same registry named after the disk, policy off, registry re-installed from its own list |
| FileStorage.TwoDiskStorage | packages/core/lib/file-storage.ts:117-139 | `config` with disks local and remote (S3) and default "local" installs exactly those two disks and gives a facade named "local", over which "remote" resolves to the S3 class |
| FileStorage.SecondaryDiskScenario | packages/core/lib/file-storage.ts:150-165 | with disks local and remote (S3): the facade is named "local", `disk("remote")` is an S3 driver, `disk("remote", true)` is named "remote", and the caller is still named "local" afterwards |
| FileStorage.StorageClass.Put | packages/core/lib/file-storage.ts:183-209 | the loop's result is `PutOutcome`: the envelope, the driver's fields over it, then each hooked plugin's output in order, failing with the first failing hook |
| FileStorage.PutEnvelope | packages/core/lib/file-storage.ts:184-199 | each of the four envelope fields (success, 'Uploading success', the name of the original path, the stored path) survives when neither the driver nor a hook writes it |
| FileStorage.PutOverS3NameAndPath | packages/core/lib/file-storage.ts:184-199 | over the S3 driver's result, the facade reports the name of the original path and the path the driver stored under, unless a hook writes them |
| FileStorage.DriverFieldsOverride | packages/core/lib/file-storage.ts:199 | a field of the driver's result reaches the caller over the envelope's value unless a hook writes it |
| FileStorage.PutOverS3Message | packages/core/lib/file-storage.ts:199 | over the S3 driver, the facade reports 'Uploading success!' unless the upload result or a hook writes `message` |
| FileStorage.UniqueFileNamePolicy | packages/core/lib/file-storage.ts:191-195 | without the policy the path is unchanged; with it, same directory and extension and token as name |
| FileStorage.DistinctTokensDistinctPaths | packages/core/lib/file-storage.ts:191-195 | under the policy two puts of one path are stored apart iff their tokens differ |
| FileStorage.RunHooksKeeps | packages/core/lib/file-storage.ts:201-206 | a field no remaining hook writes keeps its value through the chain |
| FileStorage.HookOutputRecorded | packages/core/lib/file-storage.ts:201-206 | a hooked plugin's key holds its hook's output for the stored path, unless a later plugin shares the key |
| FileStorage.FirstFailingHookAborts | packages/core/lib/file-storage.ts:201-206 | after any number of hooks that succeed, the chain fails with the error of the first failing hook, and no later hook counts |

## Left out

- AWS SDK, Node stream and `request` I/O are left out. They are parameters: the HEAD reply, `upload`, `headObject`, `deleteObject` and `putObject` outcomes.
- `size`, `lastModified` and `get` of the S3 driver are not modelled. They only read SDK replies and convert dates and lengths.
- `setupMockS3` is not modelled. It is test set-up against a local endpoint.
- S3.S3Driver.Put: the PassThrough piping is not modelled. The pipe is a given value, and no bytes or stream events are modelled.
- Dynamic loading via `requireDefaultModule` is not modelled. The driver slots and the plugin class are constructor arguments of `Registry`, and a slot is absent when its package is missing.
- Plugin `init` is left out: it runs on the default disk and its promise is not awaited. `pluginInstances` is the registry's plugin list.
- The image-manipulation plugin, `imageStats`, `copy` and `move` are left out. They delegate to code outside this model.
- The UUID generator is not modelled. The upload token is a parameter, and distinct stored paths are proved for distinct tokens.
- Paths.ReplaceBase: Node's `path.parse`/`format` is modelled as a POSIX split only. Roots, Windows separators and trailing separators are not modelled.
- Paths.FileName: the implementation of `getFileName` is not part of this model. It is specified as the base name of the part before '?', which agrees with the library's own examples.
- `getExt` is not part of this model. It is not used by the core.
- Promise scheduling and concurrent in-flight operations are not modelled. Each operation is one atomic step, and `Settle` models first-settlement-wins.
- FileStorage.Construct: only the S3 constructor's check is modelled. The FTP, SFTP, local and GCS constructors are not part of this model and are taken to succeed.
- FileStorage.Registry.GetDisk returns the base `Driver` object rather than a backend-specific instance. The S3 driver's own members are reached through `S3.S3Driver`.
- The facade's one-line delegations are not repeated: `url`, `exists`, `size`, `lastModified`, `get`, `delete`, `copy`, `move`, `makeDir`, `removeDir` and `uploadImageFromExternalUri`. Their behaviour is that of the driver members above.
- The values of the `DriverName` enumeration come from outside the modelled files. They are taken to be "s3", "ftp", "local", "sftp" and "gcs", the identifiers of the built-in packages.
- The key order of JavaScript objects is not modelled. Records are maps.
- The classes of the error objects are not modelled. Errors are distinguished by kind, and `Common.Message` gives the texts.
- FileStorage.StorageClass.Disk, as-storage case: the registry is re-installed from its own list. That leaves its contents unchanged unless it was empty after a duplicated-name failure.
