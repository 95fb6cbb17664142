# Cache-revalidation worker, modelled in Dafny

The modelled system is a Cloudflare Worker that fronts an S3-style bucket and
serves its objects through the platform cache. On each request the worker:

- rewrites the request URL's host name to the configured bucket;
- for the root path, proxies the request straight through;
- for any other path, looks the URL up in the cache.
  - On a hit it revalidates the entry with a conditional HEAD. A 304 answer
    means the cached response is served unchanged.
  - On a miss, or when the HEAD returns any other status, it does a full GET.
    A 200 reply is stored under one normalised header set and served; any
    other reply is served as it came and never stored.
- writes a telemetry datapoint on misses and on 304 hits.

The project has five modules:

- `Wrappers` (`wrappers.dfy`): an `Option` type.
- `Http` (`http.dfy`): URLs, header dictionaries, bodies, responses and
  origin requests. Header names are kept lower case, as the platform's
  `Headers` keeps them, and `headers.get` folds the name it is asked for.
- `Analytics` (`analytics.dfy`): the objects passed to `writeDataPoint` and
  what the analytics sink keeps of them.
- `Revalidation` (`revalidation.dfy`): the three operations of
  `src/index.js` as pure functions. Each returns a `Step`: the new cache, the
  effects in the order `src/index.js` performs them (cache lookup, origin
  request, cache store, datapoint) and the served response. The properties
  are proved about these functions.
- `Worker` (`worker.dfy`): the class `CacheProxy`. It holds the cache map and
  the effect trace, and has one method per function of `src/index.js`. Each
  method is written step by step as the worker does it, including the
  conditional header inserts of `BuildHeaders`. Each is proved to change the
  cache and trace exactly as its function in `Revalidation` says.
  `Scenarios` is a small client of the class.

The outside world is passed in as an `Env`. Its `origin` field is a function
from each request the worker can send (method, URL, headers) to the origin's
reply. Its `digest` field stands for the SHA-256 digest of a path. Neither is
interpreted. The results about several requests in a row (`Serve`,
`RevalidationRoundTrip`) keep the same `Env` throughout. So they assume the
origin's content does not change. The single-request results hold for any
`Env`.

The engine takes a `Revision` (`Analytics.Revision`). `AsWritten` is
`src/index.js` exactly: the miss datapoint passes its digest under `index`,
and a missing validator is sent as the text "null". `Corrected` fixes both
faults (see "## Findings"). Every operation, lemma and the class are stated
for both revisions. Where the two differ, the contract says what each one
does.

## Model

| member | source | states |
|---|---|---|
| `Http.HeaderGet` | src/index.js:53-54 | `headers.get(name)` is Some exactly when the lower-cased name is a key, and then that key's value; for a lower-case name, exactly when the name itself is a key |
| `Http.ToLower` | src/index.js:53-54 | the folded name has the same length, is lower case, and is the name itself when that is already lower case |
| `Http.Truthy` | src/index.js:96-104 | the `if (value)` test on a `headers.get` result: true exactly for a present, non-empty value |
| `Http.WithHost` | src/index.js:5-8 | setting the host name changes the host only; scheme, path and query are kept |
| `Http.TextResponse` | src/index.js:10 | `new Response(text, { status })`: the status, the text body and the content type `text/plain;charset=UTF-8` the constructor adds for a string body |
| `Analytics.Accepted` | src/index.js:41-46 | the sink keeps the `blobs`, `doubles` and `indexes` of the object it is given, and drops `index` |
| `Analytics.HitFields` | src/index.js:66-71 | the hit object: blob `cache_hit`, double `1`, the digest under `indexes` |
| `Analytics.MissFieldsAsWritten` | src/index.js:41-46 | the miss object as written: blob `cache-miss`, double `0`, the digest under `index` |
| `Analytics.MissFields` | src/index.js:41-46 | the corrected miss object: blob `cache-miss`, double `0`, the digest under `indexes` |
| `Analytics.MissPointFor` | src/index.js:41-46 | the stored miss point is `["cache-miss"]`/`[0]` in both revisions; its indexes are empty as written and the digest when corrected |
| `Analytics.MissDigestDropped` | src/index.js:41-46 | as written, the miss datapoint passes its digest under `index`, so the stored point has no index, while the hit point keeps it |
| `Analytics.PointsCarryDigest` | src/index.js:41-71 | with `indexes`, both datapoints carry the path digest; a miss is `["cache-miss"]`/`[0]`, a hit `["cache_hit"]`/`[1]`, and the two differ |
| `Revalidation.NormalizedHeaders` | src/index.js:93-106 | the stored header names are a subset of cache-control, etag, last-modified and content-length; cache-control is `public, max-age=14400`; each of the other three is present iff the origin's value is truthy (non-empty), and then equals the origin's value |
| `Revalidation.NormalizedHeadersUnique` | src/index.js:93-106 | those properties determine the header set: any header map satisfying them is the normalised one |
| `Revalidation.ExampleStoredHeaders` | src/index.js:93-106 | a reply with an etag, a last-modified date and an unrelated header, and no length: exactly cache-control, etag and last-modified are stored |
| `Revalidation.ConditionalHeadersAsWritten` | src/index.js:52-59 | as written, the HEAD always carries both `if-none-match` and `if-modified-since`, with the cached values when present |
| `Revalidation.MissingValidatorSentAsNull` | src/index.js:52-59 | as written, a cached entry without an etag makes the HEAD carry `if-none-match: null`; the corrected headers omit it |
| `Revalidation.ConditionalHeaders` | src/index.js:52-59 | the HEAD carries `if-none-match` iff the cached entry has an etag, and then with that value; likewise `if-modified-since` for last-modified; no other header |
| `Revalidation.ConditionalHeadersAgree` | src/index.js:52-59 | when the cached entry has both validators, the corrected and the as-written headers are the same |
| `Revalidation.ValidatorHeaders` | src/index.js:52-59 | in both revisions a present validator is sent with its value and no other name is sent; a missing one is sent as "null" as written and left out when corrected |
| `Revalidation.HeadRequest` | src/index.js:56-60 | the revalidation request is a HEAD of the URL carrying the revision's validator headers |
| `Revalidation.UpdateCachedVersion` | src/index.js:80-117 | the first effect is the GET of the URL. A non-200 reply is served and the cache is equal to before. A 200 is stored under the URL and served, with the stored shape and the origin's body. No key is removed, only the URL may be added, and other keys keep their values |
| `Revalidation.GetLatestVersion` | src/index.js:24-78 | the first effect is the lookup of the URL. Only the URL may be added or changed in the cache, and no key is removed. If the URL's entry is new or changed, it is the served response and has the stored shape |
| `Revalidation.HandleRequest` | src/index.js:1-22 | with no bucket: a 500, no effect, the cache unchanged. A request never removes a key. With a bucket, only the rewritten URL may be added or changed |
| `Revalidation.RouteOf` | src/index.js:5-21 | Misconfigured iff the bucket is unset; Proxy iff it is set and the path is `/`; otherwise Revalidate. The target is the request URL with only the host replaced by the bucket |
| `Revalidation.UpdateSendsOneGet` | src/index.js:80-117 | the update sends exactly one origin request, the unconditional GET of the URL, and writes no datapoint |
| `Revalidation.UpdateKeepsCacheOnFailure` | src/index.js:85-91 | a non-200 GET reply is served as it came; the cache, any earlier entry for the URL included, is unchanged and not touched |
| `Revalidation.UpdateStoresNormalizedOnSuccess` | src/index.js:93-116 | after a 200 GET the URL maps to a 200 response with the origin's body and the normalised headers; the served response is the stored one; every other key is unchanged |
| `Revalidation.UpdateStoresOnlyShaped` | src/index.js:85-116 | whatever the origin replies, every entry the update stores is a 200 with only the allowed header names and the fixed cache-control |
| `Revalidation.MissFetchesOnceAndRecordsMiss` | src/index.js:36-48 | on a miss: a lookup, then exactly one GET, then exactly one `cache-miss` datapoint with doubles `[0]` as the last effect, whatever the GET status. Its indexes are empty as written and the path digest when corrected. Response and cache are the update's |
| `Revalidation.HitSendsCachedValidators` | src/index.js:52-60 | on a hit the second effect is a HEAD of the URL with only the two conditional names. `if-none-match` is the cached etag and `if-modified-since` the cached last-modified when present. A missing one is "null" as written and absent when corrected |
| `Revalidation.NotModifiedServesCache` | src/index.js:63-73 | on a hit answered 304: the cached response is served unchanged, the cache is unchanged, exactly one `cache_hit` datapoint is written and the HEAD is the only origin request |
| `Revalidation.StaleRefetchesSilently` | src/index.js:75-77 | on a hit answered with any other status: the update runs once after the HEAD, its response and cache are the result, and no datapoint is written |
| `Revalidation.MissingBucketIsServerError` | src/index.js:7-11 | with no bucket: a 500 whose body is `S3_BUCKET is not defined`, with no effect at all and the cache unchanged |
| `Revalidation.RootPathBypassesCache` | src/index.js:13-18 | for the path `/`: exactly one direct GET of the rewritten URL, its reply served verbatim, no cache lookup or store and no datapoint |
| `Revalidation.OtherPathsUseRewrittenUrl` | src/index.js:5-21 | for any other path, the engine runs on the rewritten URL. That URL is the key looked up, the only key the request may add, and the target of every origin request; every other existing key keeps its value |
| `Revalidation.HandleRequestKeepsWellFormed` | src/index.js:85-116 | one request keeps every cache entry a 200 with the normalised header shape, whatever the origin answers |
| `Revalidation.HandleRequestKeepsConsistent` | src/index.js:85-116 | against an unchanged origin, one request keeps every entry equal to the normalised 200 GET reply for its URL |
| `Revalidation.Serve` | src/index.js:119-126 | handling a sequence of requests one after another never removes a cache key |
| `Revalidation.ServeKeepsConsistent` | src/index.js:119-126 | handling any sequence of requests one after another keeps the cache consistent with an unchanged origin |
| `Revalidation.ServeKeepsWellFormed` | src/index.js:119-126 | handling any sequence of requests keeps the cache well formed |
| `Revalidation.RevalidationRoundTrip` | src/index.js:52-73 | whatever the cache held, a stale entry included: against an origin whose 200 reply has an etag and that answers 304 to it, the request after a served one is a hit. It returns the same response, leaves the cache unchanged, sends only the HEAD and writes one `cache_hit` datapoint |
| `Worker.BuildHeaders` | src/index.js:93-106 | the step-by-step conditional inserts build exactly the normalised header set |
| `Worker.CacheProxy.constructor` | src/index.js:25 | a worker starts with the given revision, bucket setting and platform cache, and an empty trace |
| `Worker.CacheProxy.Match` | src/index.js:26 | `cache.match` returns the entry for the URL or nothing, and only records a lookup |
| `Worker.CacheProxy.Fetch` | src/index.js:60 | a fetch returns the origin's reply to the request and only records the request |
| `Worker.CacheProxy.Put` | src/index.js:113 | `cache.put` maps the URL to the entry, leaves every other key, and records the store |
| `Worker.CacheProxy.WriteDataPoint` | src/index.js:41-46 | writing a datapoint records what the sink accepts and leaves the cache alone |
| `Worker.CacheProxy.UpdateCachedVersion` | src/index.js:80-117 | the method changes cache and trace, and returns the response, exactly as `Revalidation.UpdateCachedVersion` |
| `Worker.CacheProxy.GetLatestVersion` | src/index.js:24-78 | the method changes cache and trace, and returns the response, exactly as `Revalidation.GetLatestVersion` for the worker's revision; `AsWritten` is the code as written |
| `Worker.CacheProxy.HandleRequest` | src/index.js:1-22 | the method changes cache and trace, and returns the response, exactly as `Revalidation.HandleRequest` for the worker's revision; a well-formed cache stays well formed |

## Findings

| source | as written | input that shows it | evidently intended | confidence | as-written member | corrected member |
|---|---|---|---|---|---|---|
| src/index.js:53-59 | the HEAD headers are built from `headers.get` results that may be null; the `Headers` initialiser converts null to the string "null" | a cached entry without an etag: the HEAD carries `if-none-match: null` | send a validator only when the cached entry has it | medium, not executed | `Revalidation.MissingValidatorSentAsNull` | `Revalidation.ConditionalHeaders` |
| src/index.js:41-46 | the miss datapoint passes the digest under `index`; the field the sink reads, and the one the hit datapoint uses, is `indexes` | any cache miss: the stored datapoint has no index | the miss datapoint is indexed by the path digest, like the hit | medium, not executed | `Analytics.MissDigestDropped` | `Analytics.PointsCarryDigest` |

Both halves are used by the engine. `Revision.AsWritten` selects
`ConditionalHeadersAsWritten` and `MissFieldsAsWritten`.
`Revision.Corrected` selects `ConditionalHeaders` and `MissFields`
(`Revalidation.ValidatorHeaders`, `Analytics.MissPointFor`).

## Left out

- Network transport: DNS failures, refused connections and timeouts are not modelled. The origin always answers, as a function of the request.
- The SHA-256 digest is not modelled; it is the `digest` function of the `Env`, and its 32-byte length is not stated.
- Streams: bodies are immutable values, so `clone()` is equality and the stored copy and the served copy are the same value.
- URL parsing and serialisation: a URL is a record of scheme, host, path and query. The URL host-name setter's silent refusal of an invalid host is not modelled; any bucket string becomes the host.
- The status text: the rebuilt 200 response gets the `Response` constructor's default status text. Only status, headers and body are modelled.
- `console.log` and `console.error` output is not modelled.
- The `fetch` event listener and its try/catch are not modelled. The catch cannot see a rejection of the returned promise. The model has no error response for failures inside `handleRequest`.
- Cache eviction and the meaning of `max-age` belong to the platform cache. The model's cache keeps every entry until it is overwritten.
- Concurrent requests racing on one key are not modelled. `Serve` handles requests one after another.
- A changing origin across several requests: `Serve` and `RevalidationRoundTrip` keep one `Env`. The single-request lemmas hold for any `Env`, and `HandleRequestKeepsWellFormed` holds for a different origin at each request.
- Telemetry failures are not modelled. A datapoint write always succeeds.
- Header names: only ASCII letters are folded to lower case, as the platform folds them. A header with several values is one string, as `headers.get` returns it.
