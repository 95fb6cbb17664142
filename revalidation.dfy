/**
 * The worker's decision procedure as functions of the cache, the origin and
 * the request: routing, conditional revalidation, and the cache update.
 * Each function returns the new cache, the effects in the order src/index.js
 * performs them, and the response served. The class in module `Worker`
 * implements these step by step and is proved equal to them.
 */
module Revalidation {
  import opened Wrappers
  import opened Http
  import opened Analytics

  const CacheControl: HeaderName := "cache-control"
  const Etag: HeaderName := "etag"
  const LastModified: HeaderName := "last-modified"
  const ContentLength: HeaderName := "content-length"
  const IfNoneMatch: HeaderName := "if-none-match"
  const IfModifiedSince: HeaderName := "if-modified-since"

  const CacheControlValue := "public, max-age=14400"
  const MissingBucketMessage := "S3_BUCKET is not defined"
  const NotModified := 304
  const Ok := 200

  /** The only header names a stored entry can carry. */
  const StoredHeaderNames: set<HeaderName> := {CacheControl, Etag, LastModified, ContentLength}

  /** What one request does to the outside world, in order. */
  datatype Effect =
    | Lookup(key: Url)                  // cache.match
    | Send(request: OriginRequest)      // fetch to the origin
    | Store(key: Url, entry: Response)  // cache.put
    | Record(point: DataPoint)          // writeDataPoint

  /**
   * The world one request sees: the origin's answer to each request it can
   * be sent, and the path digest used to index datapoints.
   */
  datatype Env = Env(origin: OriginRequest -> Response, digest: string -> Digest)

  /** The outcome of one operation: the new cache, its effects and the response served. */
  datatype Step = Step(cache: map<Url, Response>, effects: seq<Effect>, response: Response)

  /* ---------------- Header normalisation ---------------- */

  /** Stored header `name` is exactly the origin's value when that is truthy, and absent otherwise. */
  predicate CopiedExactly(origin: Headers, h: Headers, name: HeaderName) {
    && (name in h <==> Truthy(HeaderGet(origin, name)))
    && (name in h ==> HeaderGet(origin, name) == Some(h[name]))
  }

  /** One conditional insert: copy header `name` when the origin gave a truthy value. */
  function CopyIfTruthy(into: Headers, from: Headers, name: HeaderName): Headers {
    var v := HeaderGet(from, name);
    if Truthy(v) then into[name := v.value] else into
  }

  /** The header set of a stored entry, built from the origin reply's headers. */
  function NormalizedHeaders(origin: Headers): (h: Headers)
    ensures h.Keys <= StoredHeaderNames
    ensures CacheControl in h && h[CacheControl] == CacheControlValue
    ensures CopiedExactly(origin, h, Etag)
    ensures CopiedExactly(origin, h, LastModified)
    ensures CopiedExactly(origin, h, ContentLength)
  {
    var h0 := map[CacheControl := CacheControlValue];
    var h1 := CopyIfTruthy(h0, origin, Etag);
    var h2 := CopyIfTruthy(h1, origin, LastModified);
    CopyIfTruthy(h2, origin, ContentLength)
  }

  /** The three properties above fix the header set: nothing else satisfies them. */
  lemma NormalizedHeadersUnique(origin: Headers, h: Headers)
    requires h.Keys <= StoredHeaderNames
    requires CacheControl in h && h[CacheControl] == CacheControlValue
    requires CopiedExactly(origin, h, Etag)
    requires CopiedExactly(origin, h, LastModified)
    requires CopiedExactly(origin, h, ContentLength)
    ensures h == NormalizedHeaders(origin)
  {
  }

  /** The rebuilt 200 response: the origin's body under the normalised header set. */
  function Normalized(reply: Response): Response {
    Response(Ok, NormalizedHeaders(reply.headers), reply.body)
  }

  /** What every stored entry looks like. */
  predicate StoredShape(r: Response) {
    && r.status == Ok
    && r.headers.Keys <= StoredHeaderNames
    && CacheControl in r.headers && r.headers[CacheControl] == CacheControlValue
  }


  /* ---------------- Conditional HEAD ---------------- */

  /**
   * The text a header value given in a `Headers` initialiser becomes: a
   * `null` from `headers.get` turns into the four characters "null".
   */
  function HeaderInitValue(v: Option<string>): string {
    v.GetOr("null")
  }

  /** The conditional headers as src/index.js builds them: both names, always. */
  function ConditionalHeadersAsWritten(stored: Headers): (h: Headers)
    ensures h.Keys == {IfNoneMatch, IfModifiedSince}
    ensures Etag in stored ==> h[IfNoneMatch] == stored[Etag]
    ensures LastModified in stored ==> h[IfModifiedSince] == stored[LastModified]
  {
    map[IfNoneMatch := HeaderInitValue(HeaderGet(stored, Etag)),
        IfModifiedSince := HeaderInitValue(HeaderGet(stored, LastModified))]
  }

  /** As written, a cached entry without an etag makes the worker send `if-none-match: null`. */
  lemma MissingValidatorSentAsNull(stored: Headers)
    requires Etag !in stored
    ensures ConditionalHeadersAsWritten(stored)[IfNoneMatch] == "null"
    ensures IfNoneMatch !in ConditionalHeaders(stored)
  {
  }

  /** The conditional headers carrying only the validators the cached entry has. */
  function ConditionalHeaders(stored: Headers): (h: Headers)
    ensures h.Keys <= {IfNoneMatch, IfModifiedSince}
    ensures IfNoneMatch in h <==> Etag in stored
    ensures IfNoneMatch in h ==> h[IfNoneMatch] == stored[Etag]
    ensures IfModifiedSince in h <==> LastModified in stored
    ensures IfModifiedSince in h ==> h[IfModifiedSince] == stored[LastModified]
  {
    var h0: Headers := map[];
    var h1 := if Etag in stored then h0[IfNoneMatch := stored[Etag]] else h0;
    if LastModified in stored then h1[IfModifiedSince := stored[LastModified]] else h1
  }

  /** When the cached entry has both validators, the two header sets agree. */
  lemma ConditionalHeadersAgree(stored: Headers)
    requires Etag in stored && LastModified in stored
    ensures ConditionalHeaders(stored) == ConditionalHeadersAsWritten(stored)
  {
  }

  /** The conditional headers each revision sends: a present validator always goes with its value. */
  function ValidatorHeaders(rev: Revision, stored: Headers): (h: Headers)
    ensures h.Keys <= {IfNoneMatch, IfModifiedSince}
    ensures rev == AsWritten ==> h.Keys == {IfNoneMatch, IfModifiedSince}
    ensures Etag in stored ==> IfNoneMatch in h && h[IfNoneMatch] == stored[Etag]
    ensures LastModified in stored ==> IfModifiedSince in h && h[IfModifiedSince] == stored[LastModified]
    ensures Etag !in stored ==> if rev == AsWritten then h[IfNoneMatch] == "null" else IfNoneMatch !in h
    ensures LastModified !in stored ==> if rev == AsWritten then h[IfModifiedSince] == "null" else IfModifiedSince !in h
  {
    if rev == AsWritten then ConditionalHeadersAsWritten(stored) else ConditionalHeaders(stored)
  }

  /** The HEAD request that revalidates a cached response. */
  function HeadRequest(rev: Revision, u: Url, cached: Response): (r: OriginRequest)
    ensures r.verb == HEAD && r.url == u
    ensures r.headers.Keys <= {IfNoneMatch, IfModifiedSince}
    ensures Etag in cached.headers ==> HeaderGet(r.headers, IfNoneMatch) == Some(cached.headers[Etag])
    ensures LastModified in cached.headers ==> HeaderGet(r.headers, IfModifiedSince) == Some(cached.headers[LastModified])
  {
    OriginRequest(HEAD, u, ValidatorHeaders(rev, cached.headers))
  }

  /* ---------------- The three operations ---------------- */

  /** `_updateCachedVersion`: unconditional GET; store and return the normalised reply only on 200. */
  function UpdateCachedVersion(cache: map<Url, Response>, env: Env, url: Url): (s: Step)
    ensures s.effects != [] && s.effects[0] == Send(GetRequest(url))
    ensures s.response.status != Ok ==> s.response == env.origin(GetRequest(url)) && s.cache == cache
    ensures s.response.status == Ok ==>
      && url in s.cache && s.cache[url] == s.response && StoredShape(s.response)
      && s.response.body == env.origin(GetRequest(url)).body
    ensures s.cache.Keys <= cache.Keys + {url} && cache.Keys <= s.cache.Keys
    ensures forall k :: k in cache && k != url ==> s.cache[k] == cache[k]
  {
    var get := GetRequest(url);
    var reply := env.origin(get);
    if reply.status != Ok then
      Step(cache, [Send(get)], reply)
    else
      var updated := Normalized(reply);
      Step(cache[url := updated], [Send(get), Store(url, updated)], updated)
  }

  /** `getLatestVersion`: look up, revalidate a hit with a conditional HEAD, refetch otherwise. */
  function GetLatestVersion(rev: Revision, cache: map<Url, Response>, env: Env, url: Url): (s: Step)
    ensures s.effects != [] && s.effects[0] == Lookup(url)
    ensures s.cache.Keys <= cache.Keys + {url} && cache.Keys <= s.cache.Keys
    ensures forall k :: k in cache && k != url ==> s.cache[k] == cache[k]
    ensures url in s.cache && (url !in cache || s.cache[url] != cache[url]) ==>
      s.response == s.cache[url] && StoredShape(s.response)
  {
    var hash := env.digest(url.path);
    if url !in cache then
      var u := UpdateCachedVersion(cache, env, url);
      Step(u.cache, [Lookup(url)] + u.effects + [Record(MissPointFor(rev, hash))], u.response)
    else
      var cached := cache[url];
      var head := HeadRequest(rev, url, cached);
      if env.origin(head).status == NotModified then
        Step(cache, [Lookup(url), Send(head), Record(HitPoint(hash))], cached)
      else
        var u := UpdateCachedVersion(cache, env, url);
        Step(u.cache, [Lookup(url), Send(head)] + u.effects, u.response)
  }

  /** Where `handleRequest` sends a request. */
  datatype Route = Misconfigured | Proxy(target: Url) | Revalidate(target: Url)

  /** The routing decision of `handleRequest`, from the bucket setting and the request URL. */
  function RouteOf(bucket: Option<string>, url: Url): (r: Route)
    ensures r.Misconfigured? <==> bucket.None?
    ensures r.Proxy? <==> bucket.Some? && url.path == "/"
    ensures !r.Misconfigured? ==> r.target == WithHost(url, bucket.value)
    ensures !r.Misconfigured? ==> r.target.path == url.path && r.target.query == url.query && r.target.scheme == url.scheme
  {
    match bucket
    case None => Misconfigured
    case Some(host) =>
      var target := WithHost(url, host);
      if target.path == "/" then Proxy(target) else Revalidate(target)
  }

  function MissingBucketResponse(): Response {
    TextResponse(500, MissingBucketMessage)
  }

  /** `handleRequest`: configuration check, root-path bypass, else the revalidation engine. */
  function HandleRequest(rev: Revision, bucket: Option<string>, cache: map<Url, Response>, env: Env, url: Url): (s: Step)
    ensures bucket.None? ==> s.response.status == 500 && s.effects == [] && s.cache == cache
    ensures cache.Keys <= s.cache.Keys
    ensures bucket.Some? ==> s.cache.Keys <= cache.Keys + {WithHost(url, bucket.value)}
    ensures bucket.Some? ==> forall k :: k in cache && k != WithHost(url, bucket.value) ==> s.cache[k] == cache[k]
  {
    match RouteOf(bucket, url)
    case Misconfigured => Step(cache, [], MissingBucketResponse())
    case Proxy(target) => Step(cache, [Send(GetRequest(target))], env.origin(GetRequest(target)))
    case Revalidate(target) => GetLatestVersion(rev, cache, env, target)
  }

  /* ---------------- Views of an effect sequence ---------------- */

  /** The requests sent to the origin, in order. */
  function Requests(effects: seq<Effect>): seq<OriginRequest> {
    if effects == [] then []
    else (if effects[0].Send? then [effects[0].request] else []) + Requests(effects[1..])
  }

  /** The datapoints written, in order. */
  function Points(effects: seq<Effect>): seq<DataPoint> {
    if effects == [] then []
    else (if effects[0].Record? then [effects[0].point] else []) + Points(effects[1..])
  }

  /** Whether the effects read or write the cache. */
  predicate TouchesCache(effects: seq<Effect>) {
    exists i :: 0 <= i < |effects| && (effects[i].Lookup? || effects[i].Store?)
  }

  lemma {:induction false} RequestsAppend(a: seq<Effect>, b: seq<Effect>)
    ensures Requests(a + b) == Requests(a) + Requests(b)
  {
    if a == [] {
      assert a + b == b;
    } else {
      assert (a + b)[1..] == a[1..] + b;
      RequestsAppend(a[1..], b);
    }
  }

  lemma {:induction false} PointsAppend(a: seq<Effect>, b: seq<Effect>)
    ensures Points(a + b) == Points(a) + Points(b)
  {
    if a == [] {
      assert a + b == b;
    } else {
      var first := if a[0].Record? then [a[0].point] else [];
      assert (a + b)[0] == a[0];
      assert (a + b)[1..] == a[1..] + b;
      assert Points(a + b) == first + Points(a[1..] + b);
      PointsAppend(a[1..], b);
      assert Points(a) == first + Points(a[1..]);
    }
  }

  /** The views of a single effect. */
  lemma EffectViews(e: Effect)
    ensures Requests([e]) == (if e.Send? then [e.request] else [])
    ensures Points([e]) == (if e.Record? then [e.point] else [])
  {
  }

  /** The views of three effects in a row, effect by effect. */
  lemma ThreeViews(a: Effect, b: Effect, c: Effect)
    ensures Requests([a, b, c]) == Requests([a]) + Requests([b]) + Requests([c])
    ensures Points([a, b, c]) == Points([a]) + Points([b]) + Points([c])
  {
    assert [a, b, c] == [a] + [b] + [c];
    RequestsAppend([a] + [b], [c]);
    RequestsAppend([a], [b]);
    PointsAppend([a] + [b], [c]);
    PointsAppend([a], [b]);
  }

  /* ---------------- Properties of the cache update ---------------- */

  /** A non-200 GET reply is served as it came, and the cache, old entry for the URL included, is untouched. */
  lemma UpdateKeepsCacheOnFailure(cache: map<Url, Response>, env: Env, url: Url)
    requires env.origin(GetRequest(url)).status != Ok
    ensures var s := UpdateCachedVersion(cache, env, url);
      && s.response == env.origin(GetRequest(url))
      && s.cache == cache
      && Requests(s.effects) == [GetRequest(url)]
      && !TouchesCache(s.effects)
  {
  }

  /** A 200 GET reply is stored under the URL in normalised form, the same response is served, and no other key changes. */
  lemma UpdateStoresNormalizedOnSuccess(cache: map<Url, Response>, env: Env, url: Url)
    requires env.origin(GetRequest(url)).status == Ok
    ensures var reply := env.origin(GetRequest(url));
            var s := UpdateCachedVersion(cache, env, url);
      && s.response.status == Ok
      && s.response.body == reply.body
      && s.response.headers == NormalizedHeaders(reply.headers)
      && url in s.cache && s.cache[url] == s.response
      && s.cache.Keys == cache.Keys + {url}
      && (forall k :: k in cache && k != url ==> s.cache[k] == cache[k])
      && s.effects == [Send(GetRequest(url)), Store(url, s.response)]
  {
  }

  /** Every entry the update stores has the stored shape, whatever the origin replied. */
  lemma UpdateStoresOnlyShaped(cache: map<Url, Response>, env: Env, url: Url)
    ensures var s := UpdateCachedVersion(cache, env, url);
      forall i :: 0 <= i < |s.effects| && s.effects[i].Store? ==> StoredShape(s.effects[i].entry)
  {
  }

  /** The update sends exactly one request, the unconditional GET, and writes no datapoint. */
  lemma UpdateSendsOneGet(cache: map<Url, Response>, env: Env, url: Url)
    ensures var s := UpdateCachedVersion(cache, env, url);
      Requests(s.effects) == [GetRequest(url)] && Points(s.effects) == []
  {
    var s := UpdateCachedVersion(cache, env, url);
    EffectViews(Send(GetRequest(url)));
    if s.effects != [Send(GetRequest(url))] {
      var e := s.effects;
      assert e == [Send(GetRequest(url))] + [e[1]];
      RequestsAppend([Send(GetRequest(url))], [e[1]]);
      PointsAppend([Send(GetRequest(url))], [e[1]]);
      EffectViews(e[1]);
    }
  }

  /* ---------------- Properties of the revalidation engine ---------------- */

  /**
   * A miss: one unconditional GET, then exactly one `cache-miss` datapoint,
   * whatever the GET status. As written the sink stores it without the path
   * digest; corrected, it is indexed by the digest.
   */
  lemma MissFetchesOnceAndRecordsMiss(rev: Revision, cache: map<Url, Response>, env: Env, url: Url)
    requires url !in cache
    ensures var s := GetLatestVersion(rev, cache, env, url);
            var u := UpdateCachedVersion(cache, env, url);
            var hash := env.digest(url.path);
      && s.effects[0] == Lookup(url)
      && Requests(s.effects) == [GetRequest(url)]
      && Points(s.effects) == [MissPointFor(rev, hash)]
      && s.effects[|s.effects| - 1] == Record(MissPointFor(rev, hash))
      && Points(s.effects)[0].blobs == ["cache-miss"] && Points(s.effects)[0].doubles == [0.0]
      && Points(s.effects)[0].indexes == (if rev == AsWritten then [] else [hash])
      && s.response == u.response && s.cache == u.cache
  {
    var u := UpdateCachedVersion(cache, env, url);
    var hash := env.digest(url.path);
    UpdateSendsOneGet(cache, env, url);
    EffectViews(Lookup(url));
    EffectViews(Record(MissPointFor(rev, hash)));
    RequestsAppend([Lookup(url)], u.effects);
    RequestsAppend([Lookup(url)] + u.effects, [Record(MissPointFor(rev, hash))]);
    PointsAppend([Lookup(url)], u.effects);
    PointsAppend([Lookup(url)] + u.effects, [Record(MissPointFor(rev, hash))]);
  }

  /**
   * A hit: the HEAD carries the cached etag as `if-none-match` and the cached
   * last-modified as `if-modified-since`. A missing validator is sent as
   * "null" as written, and left out when corrected.
   */
  lemma HitSendsCachedValidators(rev: Revision, cache: map<Url, Response>, env: Env, url: Url)
    requires url in cache
    ensures var s := GetLatestVersion(rev, cache, env, url);
            var head := s.effects[1].request;
            var stored := cache[url].headers;
      && s.effects[0] == Lookup(url)
      && s.effects[1].Send? && head.verb == HEAD && head.url == url
      && head.headers.Keys <= {IfNoneMatch, IfModifiedSince}
      && (Etag in stored ==> IfNoneMatch in head.headers && head.headers[IfNoneMatch] == stored[Etag])
      && (LastModified in stored ==> IfModifiedSince in head.headers && head.headers[IfModifiedSince] == stored[LastModified])
      && (Etag !in stored ==> if rev == AsWritten then head.headers[IfNoneMatch] == "null" else IfNoneMatch !in head.headers)
      && (LastModified !in stored ==> if rev == AsWritten then head.headers[IfModifiedSince] == "null" else IfModifiedSince !in head.headers)
  {
  }

  /** A hit answered 304: the cached response unchanged, the cache unchanged, one `cache_hit` datapoint, no GET. */
  lemma NotModifiedServesCache(rev: Revision, cache: map<Url, Response>, env: Env, url: Url)
    requires url in cache
    requires env.origin(HeadRequest(rev, url, cache[url])).status == NotModified
    ensures var s := GetLatestVersion(rev, cache, env, url);
      && s.response == cache[url]
      && s.cache == cache
      && Points(s.effects) == [HitPoint(env.digest(url.path))]
      && Requests(s.effects) == [HeadRequest(rev, url, cache[url])]
  {
    var head := HeadRequest(rev, url, cache[url]);
    var hash := env.digest(url.path);
    ThreeViews(Lookup(url), Send(head), Record(HitPoint(hash)));
    EffectViews(Lookup(url));
    EffectViews(Send(head));
    EffectViews(Record(HitPoint(hash)));
  }

  /** A hit answered with any other status: the update runs once after the HEAD, and no datapoint is written. */
  lemma StaleRefetchesSilently(rev: Revision, cache: map<Url, Response>, env: Env, url: Url)
    requires url in cache
    requires env.origin(HeadRequest(rev, url, cache[url])).status != NotModified
    ensures var s := GetLatestVersion(rev, cache, env, url);
            var u := UpdateCachedVersion(cache, env, url);
      && s.response == u.response && s.cache == u.cache
      && Requests(s.effects) == [HeadRequest(rev, url, cache[url]), GetRequest(url)]
      && Points(s.effects) == []
  {
    var u := UpdateCachedVersion(cache, env, url);
    var head := HeadRequest(rev, url, cache[url]);
    UpdateSendsOneGet(cache, env, url);
    EffectViews(Lookup(url));
    EffectViews(Send(head));
    assert [Lookup(url), Send(head)] == [Lookup(url)] + [Send(head)];
    RequestsAppend([Lookup(url)], [Send(head)]);
    PointsAppend([Lookup(url)], [Send(head)]);
    RequestsAppend([Lookup(url), Send(head)], u.effects);
    PointsAppend([Lookup(url), Send(head)], u.effects);
  }

  /* ---------------- Properties of routing ---------------- */

  /** No bucket: a 500 carrying the diagnostic text, with neither the cache nor the origin touched. */
  lemma MissingBucketIsServerError(rev: Revision, cache: map<Url, Response>, env: Env, url: Url)
    ensures var s := HandleRequest(rev, None, cache, env, url);
      && s.response.status == 500
      && s.response.body == Text("S3_BUCKET is not defined")
      && s.cache == cache && s.effects == []
  {
  }

  /** The root path: one direct GET of the rewritten URL, its reply served verbatim; no cache access, no datapoint. */
  lemma RootPathBypassesCache(rev: Revision, bucket: string, cache: map<Url, Response>, env: Env, url: Url)
    requires url.path == "/"
    ensures var target := WithHost(url, bucket);
            var s := HandleRequest(rev, Some(bucket), cache, env, url);
      && s.effects == [Send(GetRequest(target))]
      && s.response == env.origin(GetRequest(target))
      && s.cache == cache
      && !TouchesCache(s.effects) && Points(s.effects) == []
  {
  }

  /**
   * Any other path: the rewritten URL is the cache key looked up, the only
   * key the request may add or change, and the target of every origin request.
   */
  lemma OtherPathsUseRewrittenUrl(rev: Revision, bucket: string, cache: map<Url, Response>, env: Env, url: Url)
    requires url.path != "/"
    ensures var target := WithHost(url, bucket);
            var s := HandleRequest(rev, Some(bucket), cache, env, url);
      && s == GetLatestVersion(rev, cache, env, target)
      && s.effects[0] == Lookup(target)
      && (forall i :: 0 <= i < |Requests(s.effects)| ==> Requests(s.effects)[i].url == target)
      && s.cache.Keys <= cache.Keys + {target}
      && (forall k :: k in cache && k != target ==> k in s.cache && s.cache[k] == cache[k])
  {
    var target := WithHost(url, bucket);
    if target !in cache {
      MissFetchesOnceAndRecordsMiss(rev, cache, env, target);
    } else if env.origin(HeadRequest(rev, target, cache[target])).status != NotModified {
      StaleRefetchesSilently(rev, cache, env, target);
    } else {
      NotModifiedServesCache(rev, cache, env, target);
    }
  }

  /* ---------------- Cache invariants over time ---------------- */

  /** Every entry has the shape only the update produces. */
  predicate WellFormedCache(cache: map<Url, Response>) {
    forall u :: u in cache ==> StoredShape(cache[u])
  }

  /** Every entry is the normalised form of the origin's current 200 reply for its URL. */
  predicate Consistent(origin: OriginRequest -> Response, cache: map<Url, Response>) {
    forall u :: u in cache ==>
      origin(GetRequest(u)).status == Ok && cache[u] == Normalized(origin(GetRequest(u)))
  }

  /** One request keeps the cache well formed, whatever the origin answers. */
  lemma HandleRequestKeepsWellFormed(rev: Revision, bucket: Option<string>, cache: map<Url, Response>, env: Env, url: Url)
    requires WellFormedCache(cache)
    ensures WellFormedCache(HandleRequest(rev, bucket, cache, env, url).cache)
  {
  }

  /** One request against an unchanged origin keeps the cache consistent with it. */
  lemma HandleRequestKeepsConsistent(rev: Revision, bucket: Option<string>, cache: map<Url, Response>, env: Env, url: Url)
    requires Consistent(env.origin, cache)
    ensures Consistent(env.origin, HandleRequest(rev, bucket, cache, env, url).cache)
  {
    if bucket.Some? && url.path != "/" {
      var target := WithHost(url, bucket.value);
      assert HandleRequest(rev, bucket, cache, env, url) == GetLatestVersion(rev, cache, env, target);
      if env.origin(GetRequest(target)).status == Ok {
        UpdateStoresNormalizedOnSuccess(cache, env, target);
      } else {
        UpdateKeepsCacheOnFailure(cache, env, target);
      }
    }
  }

  /** The cache after the worker handles `urls` one after another; no entry is ever dropped. */
  function Serve(rev: Revision, bucket: Option<string>, cache: map<Url, Response>, env: Env, urls: seq<Url>): (c: map<Url, Response>)
    ensures cache.Keys <= c.Keys
    decreases |urls|
  {
    if urls == [] then cache
    else Serve(rev, bucket, HandleRequest(rev, bucket, cache, env, urls[0]).cache, env, urls[1..])
  }

  /** Any sequence of requests against an unchanged origin keeps the cache consistent. */
  lemma {:induction false} ServeKeepsConsistent(rev: Revision, bucket: Option<string>, cache: map<Url, Response>, env: Env, urls: seq<Url>)
    requires Consistent(env.origin, cache)
    ensures Consistent(env.origin, Serve(rev, bucket, cache, env, urls))
    decreases |urls|
  {
    if urls != [] {
      var next := HandleRequest(rev, bucket, cache, env, urls[0]).cache;
      HandleRequestKeepsConsistent(rev, bucket, cache, env, urls[0]);
      ServeKeepsConsistent(rev, bucket, next, env, urls[1..]);
    }
  }

  /** Any sequence of requests keeps the cache well formed. */
  lemma {:induction false} ServeKeepsWellFormed(rev: Revision, bucket: Option<string>, cache: map<Url, Response>, env: Env, urls: seq<Url>)
    requires WellFormedCache(cache)
    ensures WellFormedCache(Serve(rev, bucket, cache, env, urls))
    decreases |urls|
  {
    if urls != [] {
      HandleRequestKeepsWellFormed(rev, bucket, cache, env, urls[0]);
      ServeKeepsWellFormed(rev, bucket, HandleRequest(rev, bucket, cache, env, urls[0]).cache, env, urls[1..]);
    }
  }

  /** The origin answers 304 to a HEAD whose `if-none-match` is the etag of its current GET reply. */
  ghost predicate HonoursEtag(origin: OriginRequest -> Response, u: Url) {
    var current := origin(GetRequest(u)).headers;
    forall h: Headers {:trigger origin(OriginRequest(HEAD, u, h))} ::
      Etag in current && IfNoneMatch in h && h[IfNoneMatch] == current[Etag] ==>
        origin(OriginRequest(HEAD, u, h)).status == NotModified
  }

  /**
   * Revalidation round trip: once a request for a URL has been served
   * against an origin whose reply carries an etag and that honours it, the
   * next request for the URL is a hit: the same response, the cache
   * unchanged, one HEAD and no GET, one `cache_hit` datapoint. This holds
   * whatever the cache held before, a stale entry for the URL included.
   */
  lemma RevalidationRoundTrip(rev: Revision, bucket: string, cache: map<Url, Response>, env: Env, url: Url)
    requires url.path != "/"
    requires var reply := env.origin(GetRequest(WithHost(url, bucket)));
      reply.status == Ok && Truthy(HeaderGet(reply.headers, Etag))
    requires HonoursEtag(env.origin, WithHost(url, bucket))
    ensures var target := WithHost(url, bucket);
            var first := HandleRequest(rev, Some(bucket), cache, env, url);
            var second := HandleRequest(rev, Some(bucket), first.cache, env, url);
      && target in first.cache
      && second.response == first.cache[target]
      && second.cache == first.cache
      && Requests(second.effects) == [HeadRequest(rev, target, first.cache[target])]
      && Points(second.effects) == [HitPoint(env.digest(target.path))]
  {
    var target := WithHost(url, bucket);
    var reply := env.origin(GetRequest(target));
    var first := HandleRequest(rev, Some(bucket), cache, env, url);
    if target in cache && env.origin(HeadRequest(rev, target, cache[target])).status == NotModified {
      NotModifiedServesCache(rev, cache, env, target);
      assert first.cache == cache;
    } else {
      UpdateStoresNormalizedOnSuccess(cache, env, target);
      var stored := first.cache[target];
      assert stored == Normalized(reply);
      assert CopiedExactly(reply.headers, stored.headers, Etag);
      var head := HeadRequest(rev, target, stored);
      assert head.headers[IfNoneMatch] == reply.headers[Etag];
      assert env.origin(OriginRequest(HEAD, target, head.headers)).status == NotModified;
    }
    NotModifiedServesCache(rev, first.cache, env, target);
  }

  /** A concrete 200 reply with an etag and a last-modified date but no length: the stored headers are exactly these three. */
  lemma ExampleStoredHeaders()
    ensures NormalizedHeaders(map["etag" := "\"abc\"", "last-modified" := "Tue", "server" := "s3"])
         == map["cache-control" := "public, max-age=14400", "etag" := "\"abc\"", "last-modified" := "Tue"]
  {
  }
}
