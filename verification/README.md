# S3 remote cache: a Dafny model

This project models the S3 remote cache of PyTorch Inductor in `S3_remote_cache.py`. The cache is a write-once store of byte blobs in an S3 bucket. It fails open on S3 `ClientError`s. It has two parts:

- **`S3RemoteCacheBackend`** owns a boto3 client.
  - The backend is *enabled* while the client exists and *disabled* once the client is dropped. Nothing ever re-enables a backend.
  - The constructor reads the region and the bucket name from the environment. If either is missing, the backend starts disabled. If both are present, it makes a client and creates the bucket.
  - A creation `ClientError` of `BucketAlreadyOwnedByYou` leaves the backend enabled, and any other creation `ClientError` disables it.
  - `_get` returns the stored bytes. It treats `NoSuchKey` as a plain miss. Any other `ClientError` disables the backend and misses.
  - `_put` writes with `IfNoneMatch='*'`, so the write only creates. `PreconditionFailed` (the object already exists) is benign. Any other `ClientError` disables the backend.
  - The backend catches `ClientError` and nothing else. Any other exception escapes to the caller and leaves the backend as it was. Examples are an invalid region from `boto3.client`, missing credentials, a connection error and a read timeout.
- **`S3RemoteCache`** is the façade.
  - At construction it builds the template `"pt2:" + cache_id + "::{key}:c" + str(version)`, with the version fixed at 1.
  - `_get_key` fills in the `{key}` field with `str.format`, and `_get`/`_put` hand the result to the backend.
  - For a namespace without braces, the filled-in template is the physical key `"pt2:" + cache_id + "::" + key + ":c1"`.

Files:

- `wrappers.dfy`: `Option` and `Result`.
- `key_scheme.dfy` (module `KeyScheme`, pure): the decimal rendering of the version and the physical key, together with its inverse `LogicalKey`. It also holds the key template and `Format`, which models the part of Python's `str.format` that the template uses: doubled braces, the field `{key}`, and the errors for any other field or a lone brace.
- `s3_backend.dfy` (module `S3Backend`): the bucket as an object (`Bucket`, whose `objects` map is the bucket's contents) and the backend as a class with a mutable `client: Option<Client>`.
- `s3_cache.dfy` (module `S3Cache`): the façade class.
- `scenarios.dfy` (module `Scenarios`): behaviours of the whole cache, proved from the contracts alone. They cover write-once, two writers sharing one bucket, "disabled is absorbing", and fail-open on missing configuration.

How S3 and the environment are modelled:

- Every `get_object` and `put_object` call takes a `fault: Option<Fault>`.
  - `None` means S3 answers from the bucket's contents: the bytes, `NoSuchKey`, success, or `PreconditionFailed`.
  - `Some(ClientFault(code))` means the call raises a `ClientError` with that code.
  - `Some(OtherFault(name))` means the call raises an exception of another class.
- `boto3.client` is given the exception it raises, if any (`clientFault`). The answer to `create_bucket` is passed in whole (`created`), because bucket ownership is not modelled.
- The two environment variables are `Environment(region, bucket)`, each an `Option<string>`.
- Whether boto3 can be imported is the `boto3Available` flag of the static `New` factories.
- A raised exception is an `Err` result. `Boto3Unavailable` stands for the `RuntimeError` of a missing boto3, `Uncaught(name)` for an exception that is not a `ClientError`, and `BadTemplate` for an error of `str.format`.
- The bucket is a real (non-ghost) field, so that `Get` can return the stored bytes. It is a separate object, so that two backends can share one bucket.

Behaviour one might expect of a fail-open, write-once cache with a versioned key format, which the code does not have; the model follows the code:

- A version tag written `:v{version}`: the code writes `:c{version}`.
- Physical keys that differ whenever the namespace differs. The code does not escape `::`, so two namespaces can share a key: namespace `"a"` with key `"::b"` and namespace `"a::"` with key `"b"` give the same physical key (`KeyScheme.NamespacesMayCollide`). Injectivity in the logical key for a fixed namespace and version does hold (`KeyScheme.KeyInjective`). Keys of different versions never collide, whatever the namespaces and logical keys (`KeyScheme.VersionsDisjoint`).
- Every storage or network failure degrading to a miss and disabling the backend. The code does this only for `ClientError`. Other botocore exceptions escape from the constructor, `_get` and `_put`, among them connection errors, read timeouts and missing credentials. Whether the `RemoteCache` base class catches them is not part of this model, so this is not claimed as a defect of the code.

## Model

| member | source | states |
|---|---|---|
| `KeyScheme.DecimalString` | S3_remote_cache.py:95-96 | `str(version)` is a non-empty string of decimal digits, one digit exactly for versions below 10, starting with `0` exactly for version 0 (no leading zeros) |
| `KeyScheme.DecimalRoundTrip` | S3_remote_cache.py:95-96 | reading the rendered version back as a number gives the version |
| `KeyScheme.DecimalInjective` | S3_remote_cache.py:95-96 | distinct versions are rendered as distinct strings |
| `KeyScheme.PhysicalKey` | S3_remote_cache.py:95-99 | the physical key consists of the prefix `pt2:<ns>::`, then exactly the logical key, then the suffix `:c<version>`, and nothing else |
| `KeyScheme.LogicalKeyRoundTrip` | S3_remote_cache.py:96-99 | for a fixed namespace and version, the physical key of `key` decodes back to exactly `key`, and only the physical key of `key` decodes to `key` |
| `KeyScheme.KeyInjective` | S3_remote_cache.py:96-99 | for a fixed namespace and version, equal physical keys imply equal logical keys |
| `KeyScheme.VersionsDisjoint` | S3_remote_cache.py:95-96 | physical keys of different versions differ, for any namespaces and logical keys |
| `KeyScheme.NamespacesMayCollide` | S3_remote_cache.py:96 | namespaces `"a"` and `"a::"` share a physical key, so namespaces are not separated |
| `KeyScheme.IndexOf` | S3_remote_cache.py:99 | finds the first `}` ending a replacement field, or reports that none exists |
| `KeyScheme.Format` | S3_remote_cache.py:99 | `str.format(key=...)`: text without braces is copied (`FormatLiteral`), a doubled brace is one brace (`FormatEscaped`), `{key}` becomes the argument (`FormatField`), a lone `}`, an unterminated `{` or a field other than `{key}` is an error, including fields Python accepts (see `KeyScheme.Format` under Left out) |
| `KeyScheme.AsWrittenTemplate` | S3_remote_cache.py:95-96 | the f-string of line 96; filling it in gives the physical key for a brace-free namespace (`FormatAsWritten`), raises for `"}"` (`AsWrittenRejectsBrace`), and reads `"{key}"` as a field (`AsWrittenSubstitutes`) |
| `KeyScheme.FormatAsWritten` | S3_remote_cache.py:96-99 | for a namespace without braces, filling the f-string template with `key` yields exactly the physical key |
| `KeyScheme.AsWrittenRejectsBrace` | S3_remote_cache.py:96-99 | with namespace `"}"`, filling the f-string template fails with a single-`}` error for every key |
| `KeyScheme.AsWrittenSubstitutes` | S3_remote_cache.py:96-99 | with namespace `"{key}"`, filling the f-string template with any `key` gives the physical key of namespace `key`, without raising |
| `KeyScheme.Escape` | S3_remote_cache.py:96 | doubling the braces of a namespace leaves a brace-free namespace unchanged; `FormatEscaped` proves that `str.format` reads an escaped string back as the original |
| `KeyScheme.KeyTemplate` | S3_remote_cache.py:96 | the template with the namespace escaped equals the f-string template for every brace-free namespace |
| `KeyScheme.FormatKeyTemplate` | S3_remote_cache.py:96-99 | filling the escaped template with `key` yields exactly the physical key, for every namespace |
| `S3Backend.CreateBucketArgs` | S3_remote_cache.py:43-46 | `create_bucket` names the bucket, and carries a `LocationConstraint` equal to the region exactly when the region is not `us-east-1` |
| `S3Backend.Bucket.GetObject` | S3_remote_cache.py:61-63 | with no failure, S3 answers with the stored bytes when the key is present and with `NoSuchKey` when it is absent; otherwise the call raises the injected failure |
| `S3Backend.Bucket.PutObjectIfNoneMatch` | S3_remote_cache.py:80 | a put with `IfNoneMatch='*'` binds the key only when it was absent and nothing was raised; otherwise it answers `PreconditionFailed` or raises the injected failure, and leaves the bucket as it was |
| `S3Backend.S3RemoteCacheBackend.constructor` | S3_remote_cache.py:31-52 | on the paths that return: a missing region or bucket leaves the backend disabled; `create_bucket` is called exactly when both are present; the backend starts enabled exactly when that call succeeds or fails with `BucketAlreadyOwnedByYou` |
| `S3Backend.S3RemoteCacheBackend.New` | S3_remote_cache.py:26-52 | construction raises `RuntimeError` when boto3 is unavailable; with region and bucket set, it also raises what `boto3.client` raises and any exception of `create_bucket` that is not a `ClientError`; otherwise it returns the constructor's state |
| `S3Backend.S3RemoteCacheBackend.Get` | S3_remote_cache.py:55-72 | returns bytes exactly when enabled, nothing is raised and the key is present, and then the stored bytes; raises exactly when enabled and the failure is not a `ClientError`; is disabled afterwards exactly when it was disabled or a `ClientError` other than `NoSuchKey` was raised |
| `S3Backend.S3RemoteCacheBackend.Put` | S3_remote_cache.py:75-87 | binds the key to the data only when enabled, nothing is raised and the key was absent, and otherwise leaves the bucket unchanged; never overwrites an entry; raises exactly when enabled and the failure is not a `ClientError`; is disabled afterwards exactly when it was disabled or a `ClientError` other than `PreconditionFailed` was raised |
| `S3Cache.S3RemoteCache.constructor` | S3_remote_cache.py:91-96 | the façade keeps its namespace and backend, and builds the f-string template of line 96 from the namespace as is |
| `S3Cache.S3RemoteCache.New` | S3_remote_cache.py:91-94 | building the façade raises exactly when building its backend does, with the same exception: `RuntimeError` without boto3, otherwise what `boto3.client` raises, or the exception of `create_bucket` that is not a `ClientError` |
| `S3Cache.S3RemoteCache.GetKey` | S3_remote_cache.py:98-99 | filling the stored template with `key` gives the physical key when the namespace has no braces, raises for namespace `"}"`, and gives the physical key of namespace `key` for namespace `"{key}"` |
| `S3Cache.S3RemoteCache.Get` | S3_remote_cache.py:102-104 | raises the template error, if any, before touching the backend; otherwise the backend's get on the filled-in key, with its exceptions passed through |
| `S3Cache.S3RemoteCache.Put` | S3_remote_cache.py:107-109 | raises the template error, if any, before touching the backend; otherwise the backend's put on the filled-in key, with its exceptions passed through |
| `Scenarios.WriteOnce` | S3_remote_cache.py:79-87 | after a successful put of v1 and a put of v2 under the same key, get returns v1 |
| `Scenarios.TwoWriters` | S3_remote_cache.py:80-84 | two writers of one namespace sharing a bucket both stay enabled, and the first value stays |
| `Scenarios.DisabledIsAbsorbing` | S3_remote_cache.py:54-87 | a disabled backend raises nothing, misses on get, leaves the bucket unchanged on put, and stays disabled, whatever S3 would answer |
| `Scenarios.MissingConfiguration` | S3_remote_cache.py:31-39 | without a region or a bucket name, the cache is built without raising and every get misses |

## Findings

| source | as written | input that shows it | evidently intended | confidence | as-written member | corrected member |
|---|---|---|---|---|---|---|
| S3_remote_cache.py:96-99 | `cache_id` is spliced unescaped into a template that `str.format` later reads, so braces in it act as format syntax | `cache_id = "}"`: every `_get_key` raises `ValueError` (a single `}`), so every get and put raises. `cache_id = "{key}"`: no error, but the key of `K` silently becomes `"pt2:K::K:c1"`, the key of namespace `K` (`KeyScheme.AsWrittenSubstitutes`) | `cache_id` taken literally (braces doubled when the template is built) | low, not executed; the namespaces PyTorch passes contain no braces | `KeyScheme.AsWrittenRejectsBrace` | `KeyScheme.FormatKeyTemplate` |

The façade (`S3Cache.S3RemoteCache`) models the code as written: it stores the f-string template and its `GetKey` returns the `str.format` error. The corrected template is `KeyScheme.KeyTemplate`. For every namespace without braces, it equals the f-string template, so both give the same physical keys.

## Left out

- S3Cache.S3RemoteCache.Get: returns the raw bytes the backend gives. The JSON decoding in the `RemoteCache` base class, and its treatment of undecodable bytes as a miss, are not part of this model, because that class is not in the source modelled here.
- S3Cache.S3RemoteCache.Put: stores the given bytes. The JSON encoding in the `RemoteCacheJsonSerde` base class is not part of this model, for the same reason.
- S3Backend.S3RemoteCacheBackend.constructor: covers only the paths on which `__init__` returns. Its precondition excludes a `create_bucket` exception that is not a `ClientError`; `S3Backend.S3RemoteCacheBackend.New` models those raising paths.
- The boto3 client and the network calls `create_bucket`, `get_object` and `put_object`. These are replaced by the `Bucket` object, the `fault` and `clientFault` parameters, and the `created` answer.
- `stream.read()` is folded into `GetObject`: it returns the body's bytes, and an exception of the read is an `OtherFault` of the call.
- S3Backend.Bucket.PutObjectIfNoneMatch: a raised failure leaves the bucket unchanged. The model does not cover a request that is committed on S3 but reported to the client as an error, such as a timeout after the write.
- The constructor's successful `create_bucket` call does not empty or create the bucket object; the bucket's contents are whatever the `Bucket` passed in holds.
- `os.environ` lookups are the `Environment` values; the import-time `try/except ImportError` is the `boto3Available` flag.
- Logging (`log.warning`) has no effect on state and is left out.
- Concurrency: calls are modelled one after another. The code relies on S3's per-request atomicity and has no concurrency logic of its own.
- S3Cache.S3RemoteCache.GetKey: inherits the limits of `KeyScheme.Format` below; for a namespace with a field such as `{key[0]}`, it returns an error where the code returns a key.
- KeyScheme.Format: Python accepts some replacement fields that the model treats as errors. These are fields with element index or attribute access (`{key[0]}`, `{key.upper}`), a conversion or a format spec (`{key!r}`, `{key:>5}`), and fields with nested braces. For example, Python gives `"a"` for `"{key[0]}"` with key `"abc"`, while the model raises, so for such a namespace the façade's `Get`/`Put` raise `BadTemplate` where the code would use a key. Such fields can only arise from a namespace containing braces.
- The `assert data is None or isinstance(data, bytes)` on line 71 holds by typing: `Get` returns `Option<Bytes>` inside its result.
