/**
 * The worker as src/index.js runs it: a `CacheProxy` object holding the
 * platform cache (`caches.default`) and the trace of everything it has done,
 * with one method per function of src/index.js. Each method changes the cache
 * and the trace exactly as the corresponding function of `Revalidation`
 * says, so every property proved there holds of the running worker.
 */
module Worker {
  import opened Wrappers
  import opened Http
  import opened Analytics
  import opened Revalidation

  /**
   * The header set of a stored entry, built the way the worker builds it:
   * start from the cache-control directive, then insert each validator and
   * the length when the origin's value is truthy.
   */
  method BuildHeaders(origin: Headers) returns (headers: Headers)
    ensures headers == NormalizedHeaders(origin)
  {
    headers := map[CacheControl := CacheControlValue];
    var etag := HeaderGet(origin, Etag);
    if Truthy(etag) {
      headers := headers[Etag := etag.value];
    }
    var modifiedSince := HeaderGet(origin, LastModified);
    if Truthy(modifiedSince) {
      headers := headers[LastModified := modifiedSince.value];
    }
    var contentLength := HeaderGet(origin, ContentLength);
    if Truthy(contentLength) {
      headers := headers[ContentLength := contentLength.value];
    }
  }

  class CacheProxy {
    /** The `S3_BUCKET` setting; None when the binding is not defined. */
    const bucket: Option<string>
    /** Whether the worker behaves as src/index.js is written or with its two faults corrected. */
    const revision: Revision
    /** The platform cache, keyed by URL. */
    var cache: map<Url, Response>
    /** Every cache access, origin request and datapoint, in order. */
    var trace: seq<Effect>

    /** Every cached entry has the shape the update gives it. */
    ghost predicate Valid()
      reads this
    {
      WellFormedCache(cache)
    }

    constructor (revision: Revision, bucket: Option<string>, cache: map<Url, Response>)
      ensures this.revision == revision && this.bucket == bucket && this.cache == cache && trace == []
    {
      this.revision := revision;
      this.bucket := bucket;
      this.cache := cache;
      trace := [];
    }

    /** `cache.match(url)`. */
    method Match(url: Url) returns (hit: Option<Response>)
      modifies this
      ensures hit == (if url in old(cache) then Some(old(cache)[url]) else None)
      ensures cache == old(cache) && trace == old(trace) + [Lookup(url)]
    {
      hit := if url in cache then Some(cache[url]) else None;
      trace := trace + [Lookup(url)];
    }

    /** `fetch(request)`: the origin's answer. */
    method Fetch(env: Env, request: OriginRequest) returns (reply: Response)
      modifies this
      ensures reply == env.origin(request)
      ensures cache == old(cache) && trace == old(trace) + [Send(request)]
    {
      reply := env.origin(request);
      trace := trace + [Send(request)];
    }

    /** `cache.put(url, entry)`. */
    method Put(url: Url, entry: Response)
      modifies this
      ensures cache == old(cache)[url := entry]
      ensures trace == old(trace) + [Store(url, entry)]
    {
      cache := cache[url := entry];
      trace := trace + [Store(url, entry)];
    }

    /** `REQUESTS_V2.writeDataPoint(fields)`: the sink keeps what it accepts. */
    method WriteDataPoint(fields: PointFields)
      modifies this
      ensures cache == old(cache) && trace == old(trace) + [Record(Accepted(fields))]
    {
      trace := trace + [Record(Accepted(fields))];
    }

    /** `_updateCachedVersion(url)`. */
    method UpdateCachedVersion(env: Env, url: Url) returns (response: Response)
      modifies this
      ensures var s := Revalidation.UpdateCachedVersion(old(cache), env, url);
        cache == s.cache && trace == old(trace) + s.effects && response == s.response
    {
      var reply := Fetch(env, GetRequest(url));
      if reply.status != Ok {
        return reply;
      }
      var headers := BuildHeaders(reply.headers);
      var updated := Response(Ok, headers, reply.body);
      Put(url, updated);
      response := updated;
    }

    /** `getLatestVersion(url)`. */
    method GetLatestVersion(env: Env, url: Url) returns (response: Response)
      modifies this
      ensures var s := Revalidation.GetLatestVersion(revision, old(cache), env, url);
        cache == s.cache && trace == old(trace) + s.effects && response == s.response
    {
      var cached := Match(url);
      var hash := env.digest(url.path);
      if cached.None? {
        response := UpdateCachedVersion(env, url);
        WriteDataPoint(if revision == AsWritten then MissFieldsAsWritten(hash) else MissFields(hash));
        return;
      }
      var head := HeadRequest(revision, url, cached.value);
      var headReply := Fetch(env, head);
      if headReply.status == NotModified {
        WriteDataPoint(HitFields(hash));
        return cached.value;
      }
      response := UpdateCachedVersion(env, url);
    }

    /** `handleRequest(event)` for a request to `url`; the cache stays well formed. */
    method HandleRequest(env: Env, url: Url) returns (response: Response)
      modifies this
      ensures var s := Revalidation.HandleRequest(revision, bucket, old(cache), env, url);
        cache == s.cache && trace == old(trace) + s.effects && response == s.response
      ensures old(Valid()) ==> Valid()
    {
      ghost var before := cache;
      if bucket.None? {
        return MissingBucketResponse();
      }
      var target := WithHost(url, bucket.value);
      if target.path == "/" {
        response := Fetch(env, GetRequest(target));
      } else {
        response := GetLatestVersion(env, target);
      }
      if WellFormedCache(before) {
        HandleRequestKeepsWellFormed(revision, bucket, before, env, url);
      }
    }
  }
}

/**
 * A client of the class: a cached URL whose HEAD now answers 200 and whose
 * GET answers 404. The 404 is served and the old entry stays in the cache.
 */
module Scenarios {
  import opened Wrappers
  import opened Http
  import opened Analytics
  import opened Revalidation
  import opened Worker

  method StaleThenNotFound(previous: Response)
  {
    var url := Url("https", "bucket.example", "/images/logo.png", "");
    var origin := (req: OriginRequest) =>
      if req.verb == HEAD then Response(200, map[], Bytes([])) else Response(404, map[], Bytes([]));
    var env := Env(origin, (p: string) => []);
    var w := new CacheProxy(AsWritten, Some("bucket.example"), map[url := previous]);
    var r := w.HandleRequest(env, url);
    assert r.status == 404;
    assert w.cache == map[url := previous];
  }
}
