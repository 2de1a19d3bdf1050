/** The parts of the transport's world the cache touches: header maps,
  * responses, request options and the cache key. */
module Http {
  import opened Wrappers

  /** A header container; names are kept in lower case, as `Headers` does. */
  type HeaderMap = map<string, string>

  /** `headers.get(name)` used as a JavaScript condition: a header that is
    * missing and one whose value is the empty string are both "not there". */
  function HeaderValue(h: HeaderMap, name: string): (r: Option<string>) {
    if name in h && h[name] != "" then Some(h[name]) else None
  }

  /** `response.ok`: a 2xx status. */
  predicate IsOk(status: int) {
    200 <= status <= 299
  }

  /** What the transport answers to one request. */
  datatype Reply = Reply(status: int, headers: HeaderMap, body: string)

  /** A response object; the cache hands out references to it and refreshes
    * its `Age` header in place. */
  class Response {
    const status: int
    const body: string
    var headers: HeaderMap

    constructor (reply: Reply)
      ensures status == reply.status && body == reply.body && headers == reply.headers
    {
      status := reply.status;
      body := reply.body;
      headers := reply.headers;
    }

    predicate Ok() {
      IsOk(status)
    }
  }

  /** The `options_` argument of a request: absent, or present with an
    * optional header container and its other settings (method, body, ...). */
  datatype RequestOptions =
    | NoOptions
    | Options(headers: Option<HeaderMap>, settings: map<string, string>)

  /** The request headers options carry; none when they carry no container. */
  function RequestHeaders(o: RequestOptions): HeaderMap {
    if o.Options? && o.headers.Some? then o.headers.value else map[]
  }

  /** The non-header settings options carry. */
  function Settings(o: RequestOptions): map<string, string> {
    if o.Options? then o.settings else map[]
  }

  /** The cache key: a serialisation of the URL together with the options. */
  datatype CacheKey = CacheKey(url: string, options: RequestOptions)

  /** `getCacheKey`: the key determines the URL and the options it was made
    * from, so two different requests never share an entry. */
  function GetCacheKey(url: string, options: RequestOptions): (k: CacheKey)
    ensures k.url == url && k.options == options
  {
    CacheKey(url, options)
  }
}
