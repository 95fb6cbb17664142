/**
 * The HTTP values the worker handles: URLs, header dictionaries, responses
 * and the requests it sends to the bucket origin. Parsing and serialising
 * URLs and streaming bodies are not modelled; a body is an immutable value.
 */
module Http {
  import opened Wrappers

  newtype byte = x: int | 0 <= x < 256

  /** A URL as the worker sees it: scheme, host name, path name and query. */
  datatype Url = Url(scheme: string, host: string, path: string, query: string)

  /** No upper-case ASCII letter: the form in which `Headers` keeps a header name. */
  predicate LowerCase(s: string) {
    forall i :: 0 <= i < |s| ==> !('A' <= s[i] <= 'Z')
  }

  /** `s` with its ASCII upper-case letters lowered, as `Headers` folds a header name. */
  function ToLower(s: string): (r: string)
    ensures |r| == |s| && LowerCase(r)
    ensures LowerCase(s) ==> r == s
  {
    seq(|s|, i requires 0 <= i < |s| => if 'A' <= s[i] <= 'Z' then (s[i] as int + 32) as char else s[i])
  }

  /** A header name as `Headers` stores it. */
  type HeaderName = s: string | LowerCase(s) witness ""

  /**
   * Header dictionaries. The platform's `Headers` lower-cases every name it
   * stores, so every key is lower case.
   */
  type Headers = map<HeaderName, string>

  /** A response body: origin bytes, or a string handed to the `Response` constructor. */
  datatype Body = Bytes(data: seq<byte>) | Text(text: string)

  datatype Response = Response(status: int, headers: Headers, body: Body)

  datatype Method = GET | HEAD

  datatype OriginRequest = OriginRequest(verb: Method, url: Url, headers: Headers)

  /**
   * `headers.get(name)`: the value stored under the name in any letter case,
   * or `null` (None) when there is none.
   */
  function HeaderGet(h: Headers, name: string): (v: Option<string>)
    ensures v.Some? <==> ToLower(name) in h
    ensures v.Some? ==> v.value == h[ToLower(name)]
    ensures LowerCase(name) ==> (v.Some? <==> name in h) && (v.Some? ==> v.value == h[name])
  {
    var key: HeaderName := ToLower(name);
    if key in h then Some(h[key]) else None
  }

  /** JavaScript truthiness of a `headers.get` result: not null and not the empty string. */
  predicate Truthy(v: Option<string>)
    ensures v == None ==> !Truthy(v)
    ensures v == Some("") ==> !Truthy(v)
    ensures v.Some? && v.value != "" ==> Truthy(v)
  {
    v.Some? && v.value != ""
  }

  /** `url.hostname = host`: only the host name changes. */
  function WithHost(u: Url, host: string): (r: Url)
    ensures r.host == host
    ensures r.scheme == u.scheme && r.path == u.path && r.query == u.query
  {
    u.(host := host)
  }

  /** `fetch(url.toString())`: a plain GET with no request headers. */
  function GetRequest(u: Url): OriginRequest {
    OriginRequest(GET, u, map[])
  }

  /**
   * `new Response(text, { status })`: a string body makes the constructor add
   * the content type `text/plain;charset=UTF-8`.
   */
  function TextResponse(status: int, text: string): (r: Response)
    ensures r.status == status && r.body == Text(text)
    ensures HeaderGet(r.headers, "content-type") == Some("text/plain;charset=UTF-8")
    ensures r.headers.Keys == {"content-type"}
  {
    Response(status, map["content-type" := "text/plain;charset=UTF-8"], Text(text))
  }
}
