/** The abstract driver base class: the name every driver takes from its disk
    configuration, and the one operation the base class implements itself,
    uploading an image fetched from a remote URI after a content-type guard. */
module DriverBase {
  import opened Common

  /** A live driver instance, bound to the disk configuration it was built from. */
  class Driver {
    const name: string
    const config: DiskConfig
    const driverType: DriverType

    /** `new driverType(config)`: the base constructor copies the configuration's name. */
    constructor (driverType: DriverType, config: DiskConfig)
      ensures this.name == config.name
      ensures this.config == config && this.driverType == driverType
    {
      this.name := config.name;
      this.config := config;
      this.driverType := driverType;
    }
  }

  /** `t` occurs in `s` at index `i`. */
  predicate OccursAt(s: string, t: string, i: nat)
  {
    i + |t| <= |s| && s[i..i + |t|] == t
  }

  /** An unanchored, case-sensitive regular-expression match of the literal `t`. */
  function HasSubstring(s: string, t: string): (b: bool)
    ensures b <==> exists i: nat :: OccursAt(s, t, i)
    decreases |s|
  {
    if |t| > |s| then false
    else if s[..|t|] == t then
      assert OccursAt(s, t, 0);
      true
    else
      var b := HasSubstring(s[1..], t);
      assert forall i: nat :: OccursAt(s[1..], t, i) <==> OccursAt(s, t, i + 1) by {
        forall i: nat ensures OccursAt(s[1..], t, i) <==> OccursAt(s, t, i + 1) {
          if i + |t| <= |s[1..]| {
            assert s[1..][i..i + |t|] == s[i + 1..i + 1 + |t|];
          }
        }
      }
      assert !OccursAt(s, t, 0);
      assert (exists i: nat :: OccursAt(s, t, i)) ==> exists i: nat :: OccursAt(s[1..], t, i) by {
        if i: nat :| OccursAt(s, t, i) {
          assert i > 0 && OccursAt(s[1..], t, i - 1);
        }
      }
      b
  }

  /** The reply of the HEAD request: a transport error, a response with its
      headers, or both absent; the request library may report either. */
  datatype HeadReply = HeadReply(err: Option<Error>, headers: Option<map<string, string>>)

  /** `res && res.headers['content-type'] && res.headers['content-type'].match(/image/)` */
  predicate IsImageResponse(headers: Option<map<string, string>>)
  {
    && headers.Some?
    && "content-type" in headers.value
    && headers.value["content-type"] != ""
    && HasSubstring(headers.value["content-type"], "image")
  }

  /** A promise settles once: a later `resolve` or `reject` is ignored. */
  function Settle<T>(settled: Option<T>, next: T): (r: Option<T>)
    ensures settled.None? ==> r == Some(next)
    ensures settled.Some? ==> r == settled
  {
    if settled.Some? then settled else Some(next)
  }

  /** `uploadImageFromExternalUri(uri, path, ignoreHeaderContentType)`: the
      callback of the HEAD request, run against the driver's `put`.  A HEAD
      error rejects, but the callback carries on, so `put` may still run; the
      first settlement decides the promise.  Returns the settled outcome and
      whether `put` was invoked. */
  method UploadImageFromExternalUri(uri: string, path: string, ignoreHeaderContentType: bool,
                                    head: HeadReply, put: string -> Result<Record>)
    returns (r: Result<Record>, putInvoked: bool)
    ensures putInvoked <==> ignoreHeaderContentType || IsImageResponse(head.headers)
    ensures head.err.Some? ==> r == Failure(head.err.value)
    ensures head.err.None? && putInvoked ==> r == put(path)
    ensures head.err.None? && !putInvoked ==> r == Failure(NotAnImage(uri))
  {
    var settled: Option<Result<Record>> := None;
    if head.err.Some? {
      settled := Settle(settled, Failure(head.err.value));
    }
    putInvoked := ignoreHeaderContentType || IsImageResponse(head.headers);
    if putInvoked {
      var data := put(path);
      settled := Settle(settled, data);
    } else {
      settled := Settle(settled, Failure(NotAnImage(uri)));
    }
    r := settled.value;
  }

  /** A content type is accepted when "image" appears anywhere in it, in lower
      case: "image/png", "application/x-image" and "notimage" all pass. */
  lemma {:induction false} ContentTypeGuardAccepts(prefix: string, suffix: string)
    ensures IsImageResponse(Some(map["content-type" := prefix + "image" + suffix]))
  {
    var s := prefix + "image" + suffix;
    assert s[|prefix|..|prefix| + 5] == "image";
    assert OccursAt(s, "image", |prefix|);
  }

  /** A content type with no lower-case "image" in it, such as "text/html" or
      "IMAGE/PNG", is refused. */
  lemma ContentTypeGuardRefuses(contentType: string)
    requires forall i: nat :: !OccursAt(contentType, "image", i)
    ensures !IsImageResponse(Some(map["content-type" := contentType]))
  {
  }

  /** A response without a `content-type` header is refused, whatever else it carries. */
  lemma MissingContentTypeRefused(headers: map<string, string>)
    requires "content-type" !in headers
    ensures !IsImageResponse(Some(headers))
  {
  }
}
