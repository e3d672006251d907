/** The S3 driver's own logic: constructor validation, public URLs, the
    classification of SDK errors, the shapes of the requests it sends and of
    the results it returns.  Every SDK call is a parameter: a function from
    the request to the call's outcome. */
module S3 {
  import opened Common
  import DriverBase

  /** The S3 driver class, whose static `driverName` is the built-in "s3". */
  const S3DriverType: DriverType := DriverType("S3Driver", Some("s3"))

  /** The configuration's `bucketName`, "" when absent. */
  function BucketName(config: DiskConfig): (bucket: string)
  {
    if "bucketName" in config.options then config.options["bucketName"] else ""
  }

  /** The configuration's optional `publicUrl`. */
  function PublicUrl(config: DiskConfig): (publicUrl: Option<string>)
  {
    if "publicUrl" in config.options then Some(config.options["publicUrl"]) else None
  }

  /** The check `new S3Driver(config)` makes before building its client:
      a falsy `bucketName` throws. */
  function Validate(config: DiskConfig): (r: Outcome)
    ensures r == Pass <==> BucketName(config) != ""
    ensures r != Pass ==> r == Fail(BucketNameRequired)
  {
    if BucketName(config) == "" then Fail(BucketNameRequired) else Pass
  }

  /** A request naming one object of a bucket (HEAD, GET, DELETE, PUT of a placeholder). */
  datatype ObjectRequest = ObjectRequest(bucket: string, key: string)

  /** `dir.replace(/\/$|$/, '/')`: the key of a directory placeholder object. */
  function DirKey(dir: string): (key: string)
    ensures |key| > 0 && key[|key| - 1] == '/'
    ensures |dir| <= |key| <= |dir| + 1 && key[..|dir|] == dir
    ensures |dir| > 0 && dir[|dir| - 1] == '/' ==> key == dir
  {
    if |dir| > 0 && dir[|dir| - 1] == '/' then dir else dir + "/"
  }

  /** Normalising a directory key twice gives the same key. */
  lemma DirKeyIdempotent(dir: string)
    ensures DirKey(DirKey(dir)) == DirKey(dir)
  {
  }

  /** Two directory names that differ only by a trailing slash name the same object. */
  lemma DirKeyIgnoresTrailingSlash(dir: string)
    ensures DirKey(dir + "/") == DirKey(dir) <==> |dir| == 0 || dir[|dir| - 1] != '/'
  {
    if |dir| > 0 && dir[|dir| - 1] == '/' {
      assert |DirKey(dir + "/")| == |dir| + 1;
    }
  }

  /** `errorHandler`: always throws; maps the SDK codes 'CredentialsError' and
      'NotFound' to the library's own errors and rethrows any other error unchanged. */
  function ErrorHandler(error: Error): (thrown: Error)
    ensures error.Backend? && error.code == "CredentialsError" ==> thrown == Unauthenticated(error.message)
    ensures error.Backend? && error.code == "NotFound" ==> thrown == FileNotFound(error.message)
    ensures !(error.Backend? && error.code in {"CredentialsError", "NotFound"}) ==> thrown == error
    ensures Message(thrown) == Message(error)
  {
    match error
    case Backend(code, message) =>
      if code == "CredentialsError" then Unauthenticated(message)
      else if code == "NotFound" then FileNotFound(message)
      else error
    case _ => error
  }

  /** The result `put` resolves with: the SDK's upload result over a success envelope. */
  function UploadResult(uploaded: Record): (r: Record)
    ensures r.Keys == {"success", "message"} + uploaded.Keys
    ensures r["success"] == if "success" in uploaded then uploaded["success"] else Bool(true)
    ensures r["message"] == if "message" in uploaded then uploaded["message"] else Str("Uploading success!")
    ensures forall k :: k in uploaded ==> k in r && r[k] == uploaded[k]
  {
    Overlay(map["success" := Bool(true), "message" := Str("Uploading success!")], uploaded)
  }

  class S3Driver {
    const base: DriverBase.Driver
    const bucketName: string
    const publicUrl: Option<string>

    /** `new S3Driver(config)` once the bucket check has passed; see `NewS3Driver`. */
    constructor (config: DiskConfig)
      requires Validate(config) == Pass
      ensures base.name == config.name && base.driverType == S3DriverType
      ensures bucketName == BucketName(config) && bucketName != ""
      ensures publicUrl == PublicUrl(config)
    {
      base := new DriverBase.Driver(S3DriverType, config);
      bucketName := BucketName(config);
      publicUrl := PublicUrl(config);
    }

    /** What every URL starts with: the public URL and a slash when it is set
        (a non-empty string), the bucket's virtual-hosted address otherwise. */
    function UrlPrefix(): (prefix: string)
      ensures |prefix| > 0 && prefix[|prefix| - 1] == '/'
      ensures Truthy(publicUrl) ==> |prefix| == |publicUrl.value| + 1 && prefix[..|publicUrl.value|] == publicUrl.value
      ensures !Truthy(publicUrl) ==> prefix == "https://" + bucketName + ".s3.amazonaws.com/"
    {
      if Truthy(publicUrl) then publicUrl.value + "/" else "https://" + bucketName + ".s3.amazonaws.com/"
    }

    /** `url(path)`: the prefix followed by the path; nothing is looked up. */
    function Url(path: string): (r: string)
      ensures |r| == |UrlPrefix()| + |path|
      ensures r[..|UrlPrefix()|] == UrlPrefix() && r[|UrlPrefix()|..] == path
    {
      UrlPrefix() + path
    }

    /** Distinct paths have distinct URLs. */
    lemma UrlInjective(p: string, q: string)
      ensures Url(p) == Url(q) ==> p == q
    {
      if Url(p) == Url(q) {
        assert p == Url(p)[|UrlPrefix()|..];
      }
    }

    /** `exists(path)`: resolves true when the HEAD of the object succeeds and
        false on every failure; it never rejects. */
    function Exists(path: string, headObject: ObjectRequest -> Outcome): (b: bool)
      ensures b <==> headObject(ObjectRequest(bucketName, path)) == Pass
    {
      match headObject(ObjectRequest(bucketName, path))
      case Pass => true
      case Fail(_) => false
    }

    /** The request fields `put` starts from, before the caller's `params`. */
    function PutDefaults(key: string, body: Value): (request: Record)
    {
      map["Bucket" := Str(bucketName), "Key" := Str(key), "Body" := body, "ACL" := Str("public-read")]
    }

    /** `put(data, Key, params)`: `body` is `toStream(data)` and `pipe` the
        PassThrough it is piped into when it is not one already; `upload` is
        the SDK's upload of the final request.  The caller's params override
        every default, except that `Body` is replaced by the pipe afterwards. */
    method Put(body: Value, pipe: Value, key: string, params: Option<Record>,
               upload: Record -> Result<Record>)
      returns (putParams: Record, r: Result<Record>)
      ensures putParams.Keys == {"Bucket", "Key", "Body", "ACL"} + (if params.Some? then params.value.Keys else {})
      ensures forall k :: k in putParams && k != "Body" ==>
        putParams[k] == if params.Some? && k in params.value then params.value[k] else PutDefaults(key, body)[k]
      ensures body.Stream? && body.isPassThrough ==>
        putParams["Body"] == if params.Some? && "Body" in params.value then params.value["Body"] else body
      ensures !(body.Stream? && body.isPassThrough) ==> putParams["Body"] == pipe
      ensures upload(putParams).Success? ==> r == Success(UploadResult(upload(putParams).value))
      ensures upload(putParams).Failure? ==> r == upload(putParams)
    {
      putParams := PutDefaults(key, body);
      if params.Some? {
        putParams := Overlay(putParams, params.value);
      }
      if !(body.Stream? && body.isPassThrough) {
        putParams := putParams["Body" := pipe];
      }
      var uploaded := upload(putParams);
      match uploaded
      case Success(result) => r := Success(UploadResult(result));
      case Failure(e) => r := Failure(e);
    }

    /** `delete(Key)`: resolves true when the SDK deletes the object, rejects
        with the SDK's error otherwise. */
    function Delete(key: string, deleteObject: ObjectRequest -> Outcome): (r: Result<bool>)
      ensures r.Success? <==> deleteObject(ObjectRequest(bucketName, key)) == Pass
      ensures r.Success? ==> r.value
      ensures r.Failure? ==> Fail(r.error) == deleteObject(ObjectRequest(bucketName, key))
    {
      match deleteObject(ObjectRequest(bucketName, key))
      case Pass => Success(true)
      case Fail(e) => Failure(e)
    }

    /** `makeDir(dir)`: puts a placeholder object under the normalised key and
        resolves with `dir` as given, not with the key. */
    function MakeDir(dir: string, putObject: ObjectRequest -> Outcome): (r: Result<string>)
      ensures r.Success? <==> putObject(ObjectRequest(bucketName, DirKey(dir))) == Pass
      ensures r.Success? ==> r.value == dir
      ensures r.Failure? ==> Fail(r.error) == putObject(ObjectRequest(bucketName, DirKey(dir)))
    {
      match putObject(ObjectRequest(bucketName, DirKey(dir)))
      case Pass => Success(dir)
      case Fail(e) => Failure(e)
    }

    /** `removeDir(dir)`: deletes the placeholder object under the normalised
        key and resolves with `dir` as given. */
    function RemoveDir(dir: string, deleteObject: ObjectRequest -> Outcome): (r: Result<string>)
      ensures r.Success? <==> deleteObject(ObjectRequest(bucketName, DirKey(dir))) == Pass
      ensures r.Success? ==> r.value == dir
      ensures r.Failure? ==> Fail(r.error) == deleteObject(ObjectRequest(bucketName, DirKey(dir)))
    {
      match deleteObject(ObjectRequest(bucketName, DirKey(dir)))
      case Pass => Success(dir)
      case Fail(e) => Failure(e)
    }

    /** "a" and "a/" address the same placeholder object, yet each call
        resolves with the name it was given. */
    lemma MakeDirSameObject(dir: string, putObject: ObjectRequest -> Outcome)
      requires |dir| == 0 || dir[|dir| - 1] != '/'
      requires putObject(ObjectRequest(bucketName, DirKey(dir))) == Pass
      ensures MakeDir(dir + "/", putObject) == Success(dir + "/")
      ensures MakeDir(dir, putObject) == Success(dir)
    {
      DirKeyIgnoresTrailingSlash(dir);
    }
  }

  /** `new S3Driver(config)`: throws 'Bucket name is required' when the
      configuration's `bucketName` is falsy, otherwise stores the bucket and
      the public URL. */
  method NewS3Driver(config: DiskConfig) returns (r: Result<S3Driver>)
    ensures r.Failure? <==> BucketName(config) == ""
    ensures r.Failure? ==> r.error == BucketNameRequired
    ensures r.Success? ==> fresh(r.value)
    ensures r.Success? ==> r.value.base.name == config.name
    ensures r.Success? ==> r.value.bucketName == BucketName(config) && r.value.publicUrl == PublicUrl(config)
  {
    if Validate(config) != Pass {
      return Failure(BucketNameRequired);
    }
    var d := new S3Driver(config);
    r := Success(d);
  }
}
