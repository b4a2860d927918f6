/**
 * The cache façade: turns logical keys into physical keys and hands them to
 * the backend. It keeps no state of its own beyond its backend.
 */
module S3Cache {
  import opened Wrappers
  import opened KeyScheme
  import opened S3Backend

  /**
   * What escapes to the façade's caller: the error `str.format` raises on
   * the key template, or what the backend lets escape.
   */
  datatype Raised = BadTemplate(error: FormatError) | FromBackend(exception: Exception)

  class S3RemoteCache {
    const cacheId: string
    const backend: S3RemoteCacheBackend
    /** The template `_get_key` fills in; built once, at construction. */
    const keyFmt: string

    ghost predicate Valid()
      reads this, backend
    {
      keyFmt == AsWrittenTemplate(cacheId, Version) && backend.Valid()
    }

    /** Keeps the namespace and the backend, and builds the key template from the namespace as is. */
    constructor (cacheId: string, backend: S3RemoteCacheBackend)
      requires backend.Valid()
      ensures Valid() && this.cacheId == cacheId && this.backend == backend
    {
      this.cacheId := cacheId;
      this.backend := backend;
      this.keyFmt := AsWrittenTemplate(cacheId, Version);
    }

    /** `S3RemoteCache(cache_id)`: builds its backend, so it raises exactly when the backend does. */
    static method New(cacheId: string, boto3Available: bool, env: Environment, s3: Bucket,
                      clientFault: Option<string>, created: S3Response<()>)
      returns (r: Result<S3RemoteCache, Exception>)
      ensures r.Err? <==> || !boto3Available
                          || (env.region.Some? && env.bucket.Some? && (clientFault.Some? || created.OtherError?))
      ensures !boto3Available ==> r == Err(Boto3Unavailable)
      ensures boto3Available && env.region.Some? && env.bucket.Some? && clientFault.Some?
              ==> r == Err(Uncaught(clientFault.value))
      ensures boto3Available && env.region.Some? && env.bucket.Some? && clientFault.None? && created.OtherError?
              ==> r == Err(Uncaught(created.exception))
      ensures r.Ok? ==> && fresh(r.value) && fresh(r.value.backend) && r.value.Valid()
                        && r.value.cacheId == cacheId
                        && r.value.backend.StartedFrom(env, s3, created)
    {
      var b := S3RemoteCacheBackend.New(boto3Available, env, s3, clientFault, created);
      match b
      case Err(e) =>
        r := Err(e);
      case Ok(backend) =>
        var c := new S3RemoteCache(cacheId, backend);
        r := Ok(c);
    }

    /**
     * `_get_key`: the template filled in with `key`. For a namespace
     * without braces this is the physical key of `key`. A namespace with
     * braces is read as format syntax: "}" makes it raise, and "{key}" gives
     * the physical key of namespace `key`.
     */
    function GetKey(key: string): (r: Result<string, FormatError>)
      requires keyFmt == AsWrittenTemplate(cacheId, Version)
      ensures NoBraces(cacheId) ==> r == Ok(PhysicalKey(cacheId, key, Version))
      ensures cacheId == "}" ==> r == Err(SingleCloseBrace)
      ensures cacheId == "{key}" ==> r == Ok(PhysicalKey(key, key, Version))
    {
      assert NoBraces(cacheId) ==> Format(keyFmt, key) == Ok(PhysicalKey(cacheId, key, Version)) by {
        if NoBraces(cacheId) {
          FormatAsWritten(cacheId, Version, key);
        }
      }
      assert cacheId == "}" ==> Format(keyFmt, key) == Err(SingleCloseBrace) by {
        AsWrittenRejectsBrace(key);
      }
      assert cacheId == "{key}" ==> Format(keyFmt, key) == Ok(PhysicalKey(key, key, Version)) by {
        AsWrittenSubstitutes(key);
      }
      Format(keyFmt, key)
    }

    /**
     * `_get`: looks the filled-in key up in the backend. A template error
     * raises before the backend is called.
     */
    method Get(key: string, fault: Option<Fault>) returns (r: Result<Option<Bytes>, Raised>)
      requires Valid()
      modifies backend`client
      ensures Valid()
      ensures GetKey(key).Err? ==> r == Err(BadTemplate(GetKey(key).error)) && backend.client == old(backend.client)
      ensures GetKey(key).Ok? ==>
        var physical := GetKey(key).value;
        && (r.Err? <==> old(backend.Enabled()) && fault.Some? && fault.value.OtherFault?)
        && (r.Err? ==> r.error == FromBackend(Uncaught(fault.value.exception)))
        && ((r.Ok? && r.value.Some?) <==> old(backend.Enabled()) && fault.None? && physical in backend.bucket.objects)
        && (r.Ok? && r.value.Some? ==> r.value.value == backend.bucket.objects[physical])
        && (backend.Enabled() <==> && old(backend.Enabled())
                                   && (fault.None? || fault.value == ClientFault(NoSuchKey) || fault.value.OtherFault?))
    {
      var physical := GetKey(key);
      if physical.Err? {
        return Err(BadTemplate(physical.error));
      }
      var got := backend.Get(physical.value, fault);
      match got
      case Ok(data) => r := Ok(data);
      case Err(e) => r := Err(FromBackend(e));
    }

    /**
     * `_put`: stores `value` under the filled-in key, if nothing is stored
     * there yet. A template error raises before the backend is called.
     */
    method Put(key: string, value: Bytes, fault: Option<Fault>) returns (r: Result<(), Raised>)
      requires Valid()
      modifies backend`client, backend.bucket
      ensures Valid()
      ensures GetKey(key).Err? ==> && r == Err(BadTemplate(GetKey(key).error))
                                   && backend.client == old(backend.client)
                                   && backend.bucket.objects == old(backend.bucket.objects)
      ensures GetKey(key).Ok? ==>
        var physical := GetKey(key).value;
        && (r.Err? <==> old(backend.Enabled()) && fault.Some? && fault.value.OtherFault?)
        && (r.Err? ==> r.error == FromBackend(Uncaught(fault.value.exception)))
        && (backend.bucket.objects ==
              if old(backend.Enabled()) && fault.None? && physical !in old(backend.bucket.objects)
              then old(backend.bucket.objects)[physical := value]
              else old(backend.bucket.objects))
        && (backend.Enabled() <==> && old(backend.Enabled())
                                   && (fault.None? || fault.value == ClientFault(PreconditionFailed) || fault.value.OtherFault?))
    {
      var physical := GetKey(key);
      if physical.Err? {
        return Err(BadTemplate(physical.error));
      }
      var put := backend.Put(physical.value, value, fault);
      match put
      case Ok(_) => r := Ok(());
      case Err(e) => r := Err(FromBackend(e));
    }
  }
}
