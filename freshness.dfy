/** The cacheability decision of `storeInCacheIfCacheable` (index.js:73-184):
  * whether a response is stored and, if so, what its entry records. */
module Freshness {
  import opened Wrappers
  import opened Decimal
  import opened Http
  import opened CacheControl
  import opened Validators

  /** What a stored entry records about its lifetime. */
  datatype Policy = Policy(
    purgeSeconds: nat,             // secondsBeforePurgingFromCache
    allowedStale: Option<nat>,     // secondsOfAllowedStaleCache
    staleWhileError: Option<nat>,  // secondsOfServingStaleWhileError
    mustRevalidateBeforeUse: bool)

  /** The `stale-while-revalidate` seconds, 0 when the directive is missing. */
  function StaleWhileRevalidate(d: Directives): nat {
    d.staleWhileRevalidate.GetOr(0)
  }

  /** The `stale-while-error` seconds, kept only when positive. */
  function StaleWhileError(d: Directives): (r: Option<nat>) {
    if d.staleWhileError.Some? && d.staleWhileError.value > 0 then d.staleWhileError else None
  }

  /** The seconds of allowed caching (index.js:99-127): s-maxage is read
    * first, as a shared cache does; max-age only when s-maxage is missing;
    * zero when neither is there.  None when the one that is read is zero. */
  function AllowedCaching(d: Directives): (r: Option<nat>)
    ensures r.Some? && d.sMaxAge.Some? ==> r == d.sMaxAge
    ensures r.Some? && d.sMaxAge.None? && d.maxAge.Some? ==> r == d.maxAge
    ensures r.Some? && d.sMaxAge.None? && d.maxAge.None? ==> r == Some(0)
    ensures r.None? <==> d.sMaxAge == Some(0) || (d.sMaxAge.None? && d.maxAge == Some(0))
  {
    match d.sMaxAge
    case Some(s) => if s > 0 then Some(s) else None
    case None =>
      match d.maxAge
      case Some(m) => if m > 0 then Some(m) else None
      case None => Some(0)
  }

  /** The conditions under which nothing is stored, listed one by one. */
  predicate Refused(d: Directives, canRevalidate: bool) {
    || d.forbidsStoring
    || d.sMaxAge == Some(0)
    || (d.sMaxAge.None? && d.maxAge == Some(0))
    || (StaleWhileRevalidate(d) == 0 && d.demandsRevalidation && !canRevalidate)
  }

  /** The decision over parsed directives, given whether the response carries a
    * validator.  A positive stale-while-revalidate takes precedence over
    * must-revalidate, proxy-revalidate and no-cache. */
  function FromDirectives(d: Directives, canRevalidate: bool): (r: Option<Policy>)
    ensures r.None? <==> Refused(d, canRevalidate)
    ensures r.Some? ==> var allowed := AllowedCaching(d).value;
      && r.value.purgeSeconds == allowed + StaleWhileRevalidate(d)
      && r.value.allowedStale == (if StaleWhileRevalidate(d) > 0 then Some(allowed) else None)
      && r.value.staleWhileError == StaleWhileError(d)
      && (r.value.mustRevalidateBeforeUse <==> StaleWhileRevalidate(d) == 0 && d.demandsRevalidation)
    ensures r.Some? && r.value.mustRevalidateBeforeUse ==> canRevalidate
  {
    if d.forbidsStoring then None
    else
      match AllowedCaching(d)
      case None => None
      case Some(allowed) =>
        var swr := StaleWhileRevalidate(d);
        var swe := StaleWhileError(d);
        if swr > 0 then Some(Policy(allowed + swr, Some(allowed), swe, false))
        else if d.demandsRevalidation then
          if canRevalidate then Some(Policy(allowed, None, swe, true)) else None
        else Some(Policy(allowed, None, swe, false))
  }

  /** The decision on a response with status-ok flag `ok` and headers `h`. */
  function Decide(ok: bool, h: HeaderMap): (r: Option<Policy>)
    ensures !ok ==> r.None?
    ensures HeaderValue(h, "cache-control").None? ==> r.None?
    ensures "cache-control" in h && ForbidsStoring(h["cache-control"]) ==> r.None?
    ensures r.Some? && r.value.mustRevalidateBeforeUse ==> CanBeRevalidated(h)
  {
    if !ok then None
    else
      match HeaderValue(h, "cache-control")
      case None => None
      case Some(cc) => FromDirectives(Parse(cc), CanBeRevalidated(h))
  }

  /** The decisions of `storeInCacheIfCacheable` (index.js:73-181), branch by
    * branch and in the same order, on the status flag and headers of a
    * response: None where the source returns without storing, otherwise the
    * lifetime the new entry records. */
  method DecideStorage(ok: bool, headers: HeaderMap) returns (p: Option<Policy>)
    ensures p == Decide(ok, headers)
  {
    if !ok {
      return None;
    }
    var cacheControl := HeaderValue(headers, "cache-control");
    if cacheControl.None? {
      return None;
    }
    var header := cacheControl.value;
    ghost var d := Parse(header);
    ghost var decision := FromDirectives(d, CanBeRevalidated(headers));
    assert Decide(ok, headers) == decision;
    if ForbidsStoring(header) {
      assert decision.None?;
      return None;
    }
    var secondsOfAllowedCaching: nat := 0;
    var sMaxAge := Argument(header, "s-maxage=");
    if sMaxAge.Some? {
      if sMaxAge.value > 0 {
        secondsOfAllowedCaching := sMaxAge.value;
      } else {
        assert decision.None?;
        return None;
      }
    }
    if secondsOfAllowedCaching < 1 {
      var maxAge := Argument(header, "max-age=");
      if maxAge.Some? {
        if maxAge.value > 0 {
          secondsOfAllowedCaching := maxAge.value;
        } else {
          assert decision.None?;
          return None;
        }
      }
    }
    assert AllowedCaching(d) == Some(secondsOfAllowedCaching);
    var canRevalidate := CanBeRevalidated(headers);

    var secondsOfStaleWhileRevalidate: nat := 0;
    var staleWhileRevalidate := Argument(header, "stale-while-revalidate=");
    if staleWhileRevalidate.Some? {
      secondsOfStaleWhileRevalidate := staleWhileRevalidate.value;
    }
    assert secondsOfStaleWhileRevalidate == StaleWhileRevalidate(d);
    var secondsOfServingStaleWhileError: Option<nat> := None;
    var staleWhileError := Argument(header, "stale-while-error=");
    if staleWhileError.Some? && staleWhileError.value > 0 {
      secondsOfServingStaleWhileError := staleWhileError;
    }
    assert secondsOfServingStaleWhileError == StaleWhileError(d);

    var secondsBeforePurgingFromCache := secondsOfAllowedCaching;
    var secondsOfAllowedStaleCache: Option<nat> := None;
    var mustRevalidateBeforeUse := false;
    if secondsOfStaleWhileRevalidate > 0 {
      secondsOfAllowedStaleCache := Some(secondsOfAllowedCaching);
      secondsBeforePurgingFromCache := secondsBeforePurgingFromCache + secondsOfStaleWhileRevalidate;
    } else if DemandsRevalidation(header) {
      if canRevalidate {
        mustRevalidateBeforeUse := true;
      } else {
        assert decision.None?;
        return None;
      }
    }
    assert !Refused(d, canRevalidate);
    assert decision.Some?;
    assert decision.value.purgeSeconds == secondsBeforePurgingFromCache;
    assert decision.value.allowedStale == secondsOfAllowedStaleCache;
    assert decision.value.staleWhileError == secondsOfServingStaleWhileError;
    assert decision.value.mustRevalidateBeforeUse == mustRevalidateBeforeUse;
    return Some(Policy(secondsBeforePurgingFromCache, secondsOfAllowedStaleCache,
                       secondsOfServingStaleWhileError, mustRevalidateBeforeUse));
  }

  /** A `private` or `no-store` word anywhere in `Cache-Control`, in any
    * letter case and between word boundaries, keeps the response out of the
    * cache, whatever else the header says (index.js:84-89). */
  lemma ForbiddingWordRefuses(ok: bool, h: HeaderMap, w: string, i: nat)
    requires w == "private" || w == "no-store"
    requires "cache-control" in h && WordAt(h["cache-control"], w, i)
    ensures Decide(ok, h).None?
  {
    FindWordFinds(h["cache-control"], w, 0);
  }

  /** A missing or empty `Cache-Control` header keeps the response out of the
    * cache (index.js:77-83). */
  lemma MissingCacheControlRefuses(ok: bool, h: HeaderMap)
    requires "cache-control" !in h || h["cache-control"] == ""
    ensures Decide(ok, h).None?
  {
  }

  /** The stale-while-error seconds a stored policy records, read from the
    * header text: the digits after the leftmost `stale-while-error=`, kept
    * only when they read a positive number (index.js:139-148). */
  lemma StaleWhileErrorFromHeader(ok: bool, h: HeaderMap, i: nat)
    requires Decide(ok, h).Some?
    requires "cache-control" in h && ArgumentAt(h["cache-control"], "stale-while-error=", i)
    requires forall j | 0 <= j < i :: !ArgumentAt(h["cache-control"], "stale-while-error=", j)
    ensures AllDigits(Captured(h["cache-control"], "stale-while-error=", i))
    ensures var v := Value(Captured(h["cache-control"], "stale-while-error=", i));
      Decide(ok, h).value.staleWhileError == if v > 0 then Some(v) else None
  {
    ArgumentIsLeftmost(h["cache-control"], "stale-while-error=", i);
  }

  /** Without any `stale-while-error=` followed by a digit, a stored policy
    * records no stale-while-error seconds. */
  lemma NoStaleWhileErrorWithoutDirective(ok: bool, h: HeaderMap)
    requires Decide(ok, h).Some?
    requires "cache-control" in h
    requires forall j :: !ArgumentAt(h["cache-control"], "stale-while-error=", j)
    ensures Decide(ok, h).value.staleWhileError.None?
  {
    ArgumentFound(h["cache-control"], "stale-while-error=");
  }

  /** Once s-maxage is there, max-age has no say in the decision. */
  lemma SMaxAgeOverridesMaxAge(d: Directives, canRevalidate: bool, maxAge: Option<nat>)
    requires d.sMaxAge.Some?
    ensures FromDirectives(d.(maxAge := maxAge), canRevalidate) == FromDirectives(d, canRevalidate)
  {
  }

  /** With a positive stale-while-revalidate, neither the revalidation
    * directives nor the presence of a validator change the decision. */
  lemma StaleWhileRevalidateOverridesRevalidation(d: Directives, canRevalidate: bool, demands: bool)
    requires StaleWhileRevalidate(d) > 0
    ensures FromDirectives(d.(demandsRevalidation := demands), canRevalidate) == FromDirectives(d, false)
  {
  }
}
