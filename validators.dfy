/** Turning a response's validators into the conditional headers of the
  * request that will revalidate it (RFC 7232, section 3.2 If-None-Match and
  * section 3.3 If-Modified-Since). */
module Validators {
  import opened Wrappers
  import opened Http

  /** `initHeaders`: options certain to carry a header container, keeping
    * everything the old options carried. */
  function InitHeaders(o: RequestOptions): (r: RequestOptions)
    ensures r.Options? && r.headers.Some?
    ensures RequestHeaders(r) == RequestHeaders(o) && Settings(r) == Settings(o)
    ensures o.Options? && o.headers.Some? ==> r == o
  {
    match o
    case NoOptions => Options(Some(map[]), map[])
    case Options(None, settings) => Options(Some(map[]), settings)
    case Options(Some(_), _) => o
  }

  /** `initHeaders` followed by `options_.headers.set(name, value)`. */
  function WithRequestHeader(o: RequestOptions, name: string, value: string): (r: RequestOptions)
    ensures r.Options? && r.headers.Some?
    ensures RequestHeaders(r) == RequestHeaders(o)[name := value]
    ensures Settings(r) == Settings(o)
  {
    var o' := InitHeaders(o);
    o'.(headers := Some(o'.headers.value[name := value]))
  }

  /** The response carries a validator: a non-empty `ETag` or `Last-Modified`. */
  predicate CanBeRevalidated(h: HeaderMap) {
    HeaderValue(h, "etag").Some? || HeaderValue(h, "last-modified").Some?
  }

  /** The options of future revalidation requests, as `setRevalidationHeaders`
    * (index.js:50-71) leaves them: `If-None-Match` from the ETag when there is
    * one, else `If-Modified-Since` from `Last-Modified`, else unchanged. */
  function ConditionalOptions(h: HeaderMap, o: RequestOptions): (r: RequestOptions)
    ensures HeaderValue(h, "etag").Some? ==>
      && RequestHeaders(r) == RequestHeaders(o)["if-none-match" := h["etag"]]
      && Settings(r) == Settings(o)
    ensures HeaderValue(h, "etag").None? && HeaderValue(h, "last-modified").Some? ==>
      && RequestHeaders(r) == RequestHeaders(o)["if-modified-since" := h["last-modified"]]
      && Settings(r) == Settings(o)
    ensures !CanBeRevalidated(h) ==> r == o
  {
    match HeaderValue(h, "etag")
    case Some(etag) => WithRequestHeader(o, "if-none-match", etag)
    case None =>
      match HeaderValue(h, "last-modified")
      case Some(lastModified) => WithRequestHeader(o, "if-modified-since", lastModified)
      case None => o
  }

  /** index.js:45, 55 and 64 write the conditional headers into the caller's
    * own options object. When that object had no `headers`, the options it
    * holds afterwards, `ConditionalOptions(h, o)`, make a different key from
    * the one its response was stored under, so the caller's next `fetch` with
    * the same object misses. */
  lemma AliasedOptionsChangeKey(url: string, h: HeaderMap, o: RequestOptions)
    requires o.Options? && o.headers.None? && CanBeRevalidated(h)
    ensures GetCacheKey(url, ConditionalOptions(h, o)) != GetCacheKey(url, o)
  {
  }
}
