/**
 * The S3 backend of the remote cache: a client that reads and writes byte
 * blobs in one bucket and degrades, one way, to a disabled state in which
 * every read misses and every write does nothing.
 *
 * The S3 service is not part of this model. A bucket is an object holding
 * the map from object keys to contents, and every call to S3 takes the
 * failure, if any, that the call raises for reasons the contents do not
 * explain. A failure is either a botocore `ClientError` with an error code,
 * which the backend catches, or another exception (a connection error, a
 * read timeout, missing credentials, ...), which it lets escape.
 */
module S3Backend {
  import opened Wrappers

  type Bytes = seq<bv8>

  /** The `Error.Code` of a botocore `ClientError`. */
  type ErrorCode = string

  const NoSuchKey: ErrorCode := "NoSuchKey"
  const PreconditionFailed: ErrorCode := "PreconditionFailed"
  const BucketAlreadyOwnedByYou: ErrorCode := "BucketAlreadyOwnedByYou"

  /** The one region in which a bucket is created without a location constraint. */
  const UsEast1 := "us-east-1"

  /** A failure injected into an S3 call: a `ClientError`, or an exception of another class. */
  datatype Fault = ClientFault(code: ErrorCode) | OtherFault(exception: string)

  /** What an S3 call gives back: a response, a raised `ClientError`, or another raised exception. */
  datatype S3Response<+T> = Response(body: T) | ClientError(code: ErrorCode) | OtherError(exception: string)

  /** The response an S3 call gives when `fault` is raised. */
  function Raise<T>(fault: Fault): S3Response<T>
  {
    match fault
    case ClientFault(code) => ClientError(code)
    case OtherFault(exception) => OtherError(exception)
  }

  /** The two environment variables the backend reads. */
  datatype Environment = Environment(region: Option<string>, bucket: Option<string>)

  /**
   * What escapes to the backend's caller: the RuntimeError raised when the
   * boto3 package cannot be imported, or an exception that is not a
   * `ClientError`, passed through unchanged.
   */
  datatype Exception = Boto3Unavailable | Uncaught(exception: string)

  /** The arguments of a `create_bucket` call. */
  datatype CreateBucketRequest = CreateBucketRequest(bucket: string, locationConstraint: Option<string>)

  /** The boto3 S3 client, bound to a region. */
  datatype Client = Client(region: string)

  /**
   * The `create_bucket` call for `bucket` in `region`: the location
   * constraint is attached exactly outside us-east-1, and names the region.
   */
  function CreateBucketArgs(bucket: string, region: string): (r: CreateBucketRequest)
    ensures r.bucket == bucket
    ensures r.locationConstraint.Some? <==> region != UsEast1
    ensures r.locationConstraint.Some? ==> r.locationConstraint.value == region
  {
    CreateBucketRequest(bucket, if region != UsEast1 then Some(region) else None)
  }

  /** Every entry of `before` is still in `after`, with the same contents. */
  ghost predicate Extends(before: map<string, Bytes>, after: map<string, Bytes>)
  {
    forall k :: k in before ==> k in after && after[k] == before[k]
  }

  /** One S3 bucket, shared by every client that names it. */
  class Bucket {
    var objects: map<string, Bytes>

    constructor (objects: map<string, Bytes>)
      ensures this.objects == objects
    {
      this.objects := objects;
    }

    /**
     * `get_object` followed by reading the body: the stored bytes, NoSuchKey
     * for a missing key, or the raised failure.
     */
    method GetObject(key: string, fault: Option<Fault>) returns (r: S3Response<Bytes>)
      ensures r.Response? <==> fault.None? && key in objects
      ensures r.Response? ==> r.body == objects[key]
      ensures fault.None? && key !in objects ==> r == ClientError(NoSuchKey)
      ensures fault.Some? ==> r == Raise(fault.value)
    {
      if fault.Some? {
        r := Raise(fault.value);
      } else if key in objects {
        r := Response(objects[key]);
      } else {
        r := ClientError(NoSuchKey);
      }
    }

    /**
     * `put_object` with `IfNoneMatch='*'`: stores `data` only when no object
     * has the key yet, and answers PreconditionFailed when one has.
     */
    method PutObjectIfNoneMatch(key: string, data: Bytes, fault: Option<Fault>) returns (r: S3Response<()>)
      modifies this
      ensures r.Response? <==> fault.None? && key !in old(objects)
      ensures objects == if r.Response? then old(objects)[key := data] else old(objects)
      ensures fault.None? && key in old(objects) ==> r == ClientError(PreconditionFailed)
      ensures fault.Some? ==> r == Raise(fault.value)
    {
      if fault.Some? {
        r := Raise(fault.value);
      } else if key in objects {
        r := ClientError(PreconditionFailed);
      } else {
        objects := objects[key := data];
        r := Response(());
      }
    }
  }

  class S3RemoteCacheBackend {
    /** The boto3 client; None once the backend is disabled. */
    var client: Option<Client>
    const region: Option<string>
    const bucketName: Option<string>
    /** The bucket `bucketName` names. */
    const bucket: Bucket
    /** The `create_bucket` call the constructor made, if it made one. */
    ghost const createRequest: Option<CreateBucketRequest>

    /** A live client was made for the configured region and bucket. */
    ghost predicate Valid()
      reads this
    {
      client.Some? ==> region.Some? && bucketName.Some? && client.value == Client(region.value)
    }

    predicate Enabled()
      reads this
    {
      client.Some?
    }

    /**
     * The state the constructor leaves: the region as configured, the
     * bucket name only when the region was found, a `create_bucket` call
     * exactly when both were found, and a live client exactly when that call
     * succeeded or found the bucket already owned by us.
     */
    ghost predicate StartedFrom(env: Environment, s3: Bucket, created: S3Response<()>)
      reads this
    {
      && region == env.region
      && bucketName == (if env.region.None? then None else env.bucket)
      && bucket == s3
      && createRequest == (if env.region.Some? && env.bucket.Some?
                           then Some(CreateBucketArgs(env.bucket.value, env.region.value))
                           else None)
      && (Enabled() <==> env.region.Some? && env.bucket.Some?
                         && (created.Response? || created == ClientError(BucketAlreadyOwnedByYou)))
    }

    /**
     * The paths of the constructor that return, once boto3 is known to be
     * importable. `created` is what S3 answers to the `create_bucket` call;
     * it is not consulted when no call is made. The paths that raise are
     * those of `New`.
     */
    constructor (env: Environment, s3: Bucket, created: S3Response<()>)
      requires env.region.Some? && env.bucket.Some? ==> !created.OtherError?
      ensures Valid() && StartedFrom(env, s3, created)
    {
      region := env.region;
      bucket := s3;
      if env.region.None? {
        bucketName := None;
        createRequest := None;
        client := None;
      } else if env.bucket.None? {
        bucketName := None;
        createRequest := None;
        client := None;
      } else {
        bucketName := env.bucket;
        createRequest := Some(CreateBucketArgs(env.bucket.value, env.region.value));
        client := Some(Client(env.region.value));
        if created.ClientError? && created.code != BucketAlreadyOwnedByYou {
          client := None;
        }
      }
    }

    /**
     * `S3RemoteCacheBackend(cache_id)`. It raises a RuntimeError when boto3
     * is missing. With region and bucket configured it also lets escape
     * whatever `boto3.client` raises (`clientFault`, e.g. an invalid region)
     * and any exception of `create_bucket` other than a `ClientError` (e.g.
     * missing credentials). Otherwise it returns a backend.
     */
    static method New(boto3Available: bool, env: Environment, s3: Bucket,
                      clientFault: Option<string>, created: S3Response<()>)
      returns (r: Result<S3RemoteCacheBackend, Exception>)
      ensures r.Err? <==> || !boto3Available
                          || (env.region.Some? && env.bucket.Some? && (clientFault.Some? || created.OtherError?))
      ensures !boto3Available ==> r == Err(Boto3Unavailable)
      ensures boto3Available && env.region.Some? && env.bucket.Some? && clientFault.Some?
              ==> r == Err(Uncaught(clientFault.value))
      ensures boto3Available && env.region.Some? && env.bucket.Some? && clientFault.None? && created.OtherError?
              ==> r == Err(Uncaught(created.exception))
      ensures r.Ok? ==> fresh(r.value) && r.value.Valid() && r.value.StartedFrom(env, s3, created)
    {
      if !boto3Available {
        return Err(Boto3Unavailable);
      }
      if env.region.Some? && env.bucket.Some? {
        if clientFault.Some? {
          return Err(Uncaught(clientFault.value));
        }
        if created.OtherError? {
          return Err(Uncaught(created.exception));
        }
      }
      var b := new S3RemoteCacheBackend(env, s3, created);
      r := Ok(b);
    }

    /**
     * `_get`: the stored bytes on success; a miss when disabled, when the
     * key is absent (NoSuchKey, which keeps the backend enabled) and on any
     * other `ClientError` (which disables it). An exception that is not a
     * `ClientError` escapes and leaves the state as it was.
     */
    method Get(key: string, fault: Option<Fault>) returns (r: Result<Option<Bytes>, Exception>)
      requires Valid()
      modifies this`client
      ensures Valid()
      ensures r.Err? <==> old(Enabled()) && fault.Some? && fault.value.OtherFault?
      ensures r.Err? ==> r.error == Uncaught(fault.value.exception)
      ensures (r.Ok? && r.value.Some?) <==> old(Enabled()) && fault.None? && key in bucket.objects
      ensures r.Ok? && r.value.Some? ==> r.value.value == bucket.objects[key]
      ensures Enabled() <==> && old(Enabled())
                             && (fault.None? || fault.value == ClientFault(NoSuchKey) || fault.value.OtherFault?)
    {
      if client.None? {
        return Ok(None);
      }
      var response := bucket.GetObject(key, fault);
      match response
      case Response(body) =>
        r := Ok(Some(body));
      case ClientError(code) =>
        if code == NoSuchKey {
          return Ok(None);
        }
        client := None;
        r := Ok(None);
      case OtherError(exception) =>
        r := Err(Uncaught(exception));
    }

    /**
     * `_put`: a conditional create. The key is bound to `data` only when
     * the backend is enabled, S3 raises nothing and the key was absent; an
     * existing entry is never overwritten. PreconditionFailed is benign; any
     * other `ClientError` disables the backend. An exception that is not a
     * `ClientError` escapes and leaves the state as it was.
     */
    method Put(key: string, data: Bytes, fault: Option<Fault>) returns (r: Result<(), Exception>)
      requires Valid()
      modifies this`client, bucket
      ensures Valid()
      ensures r.Err? <==> old(Enabled()) && fault.Some? && fault.value.OtherFault?
      ensures r.Err? ==> r.error == Uncaught(fault.value.exception)
      ensures bucket.objects == if old(Enabled()) && fault.None? && key !in old(bucket.objects)
                                then old(bucket.objects)[key := data]
                                else old(bucket.objects)
      ensures Extends(old(bucket.objects), bucket.objects)
      ensures Enabled() <==> && old(Enabled())
                             && (fault.None? || fault.value == ClientFault(PreconditionFailed) || fault.value.OtherFault?)
    {
      if client.None? {
        return Ok(());
      }
      var response := bucket.PutObjectIfNoneMatch(key, data, fault);
      match response
      case Response(_) =>
        r := Ok(());
      case ClientError(code) =>
        if code != PreconditionFailed {
          client := None;
        }
        r := Ok(());
      case OtherError(exception) =>
        r := Err(Uncaught(exception));
    }
  }
}
