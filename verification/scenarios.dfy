/**
 * Whole-cache behaviours, derived only from the contracts of the façade and
 * the backend. Each assumes a namespace without braces, as PyTorch's are.
 */
module Scenarios {
  import opened Wrappers
  import opened KeyScheme
  import opened S3Backend
  import opened S3Cache

  /**
   * Write-once: after a successful put of v1, a put of v2 under the same
   * key is a no-op and a later get returns v1.
   */
  method WriteOnce(cache: S3RemoteCache, key: string, v1: Bytes, v2: Bytes) returns (got: Result<Option<Bytes>, Raised>)
    requires cache.Valid() && cache.backend.Enabled() && NoBraces(cache.cacheId)
    requires PhysicalKey(cache.cacheId, key, Version) !in cache.backend.bucket.objects
    modifies cache.backend`client, cache.backend.bucket
    ensures got == Ok(Some(v1))
    ensures cache.backend.Enabled()
  {
    var put1 := cache.Put(key, v1, None);
    var put2 := cache.Put(key, v2, None);
    got := cache.Get(key, None);
  }

  /**
   * Two writers of one namespace sharing a bucket both put under the same
   * key; neither raises nor is disabled, and the first value stays.
   */
  method TwoWriters(a: S3RemoteCache, b: S3RemoteCache, key: string, va: Bytes, vb: Bytes)
    returns (got: Result<Option<Bytes>, Raised>)
    requires a.Valid() && b.Valid() && a.backend != b.backend && NoBraces(a.cacheId)
    requires a.backend.bucket == b.backend.bucket && a.cacheId == b.cacheId
    requires a.backend.Enabled() && b.backend.Enabled()
    requires PhysicalKey(a.cacheId, key, Version) !in a.backend.bucket.objects
    modifies a.backend`client, b.backend`client, a.backend.bucket
    ensures a.backend.Enabled() && b.backend.Enabled()
    ensures got == Ok(Some(va))
  {
    var putA := a.Put(key, va, None);
    var putB := b.Put(key, vb, None);
    got := b.Get(key, None);
  }

  /**
   * Miss-on-disabled: once disabled, a backend misses on every get, ignores
   * every put, raises nothing and stays disabled, whatever S3 would answer.
   */
  method DisabledIsAbsorbing(b: S3RemoteCacheBackend, key: string, value: Bytes,
                             getFault: Option<Fault>, putFault: Option<Fault>)
    returns (put: Result<(), Exception>, got: Result<Option<Bytes>, Exception>)
    requires b.Valid() && !b.Enabled()
    modifies b`client, b.bucket
    ensures put.Ok? && got == Ok(None) && !b.Enabled()
    ensures b.bucket.objects == old(b.bucket.objects)
  {
    put := b.Put(key, value, putFault);
    got := b.Get(key, getFault);
  }

  /**
   * Fail-open at startup: without a region or a bucket name the cache is
   * built (given boto3) without raising, starts disabled, and misses.
   */
  method MissingConfiguration(cacheId: string, env: Environment, s3: Bucket, clientFault: Option<string>,
                              created: S3Response<()>, key: string, fault: Option<Fault>)
    returns (got: Result<Option<Bytes>, Raised>)
    requires env.region.None? || env.bucket.None?
    requires NoBraces(cacheId)
    ensures got == Ok(None)
  {
    var r := S3RemoteCache.New(cacheId, true, env, s3, clientFault, created);
    var cache := r.value;
    assert !cache.backend.Enabled();
    got := cache.Get(key, fault);
  }
}
