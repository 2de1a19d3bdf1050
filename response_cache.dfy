/** The cache itself (index.js:34-309): a map from cache key to entry
  * objects that are updated in place, one purge timer per entry object, the
  * revalidation state machine and the `fetch` entry point.  Time is an
  * integer clock in milliseconds; a `setTimeout` purge is a stored deadline. */
module ResponseCache {
  import opened Wrappers
  import opened Decimal
  import opened Http
  import opened CacheControl
  import opened Validators
  import opened Freshness

  /** `secondsDelayBeforeNextRevalidationAttempt`, and the same delay after an
    * error (index.js:26-27). */
  const RevalidationBackoffSeconds: nat := 10

  /** `timeRevalidationCanStart`: never set, a time in milliseconds, or the
    * invalid `Date` that `resetTimeWhereRevalidationCanStart` makes for an
    * entry without seconds of allowed stale cache. */
  datatype Deadline = Unset | At(ms: int) | Invalid

  /** Whether `startRevalidateResponseIfNeeded` goes on at time `now`: not for
    * an unset deadline, not while the deadline is later than now, and always
    * for an invalid `Date`, which compares false with every time. */
  predicate Due(d: Deadline, now: int) {
    match d
    case Unset => false
    case At(t) => !(t > now)
    case Invalid => true
  }

  /** `resetTimeWhereRevalidationCanStart` (index.js:36-40) at time `now`:
    * revalidation becomes due once the allowed stale seconds have passed, and
    * is due straight away when the entry has none recorded. */
  function RevalidationStart(allowedStale: Option<nat>, now: int): (d: Deadline)
    ensures d != Unset
    ensures forall t :: Due(d, t) <==> allowedStale.None? || now + allowedStale.value * 1000 <= t
  {
    match allowedStale
    case Some(seconds) => At(now + seconds * 1000)
    case None => Invalid
  }

  /** `Math.round(ms / 1000)` for a whole number of milliseconds: the nearest
    * whole second, halves rounded up. */
  function AgeSeconds(ms: int): (a: int)
    ensures a * 1000 - 500 <= ms < a * 1000 + 500
  {
    (ms + 500) / 1000
  }

  /** The `Age` header value `setAge` writes. */
  function AgeHeader(now: int, cachedTime: int): string {
    FormatInt(AgeSeconds(now - cachedTime))
  }

  /** Between two reads with no revalidation in between the `Age` a reader
    * sees does not go down. */
  lemma AgeNeverDecreases(cachedTime: int, t1: int, t2: int)
    requires t1 <= t2
    ensures AgeSeconds(t1 - cachedTime) <= AgeSeconds(t2 - cachedTime)
  {
    var a1, a2 := AgeSeconds(t1 - cachedTime), AgeSeconds(t2 - cachedTime);
    assert a1 * 1000 - 500 < a2 * 1000 + 500;
  }

  /** A cache record (the `cacheObject` of index.js:92-98 and the fields the
    * cache sets on it later). */
  class CacheObject {
    const cacheKey: CacheKey
    const response: Response
    const url: string
    var options: RequestOptions
    var cachedTime: int
    var canBeRevalidated: bool
    var mustRevalidateBeforeUse: bool
    var timeRevalidationCanStart: Deadline
    var purgeFromCacheTimeoutID: Option<nat>
    var secondsBeforePurgingFromCache: nat
    var secondsOfAllowedStaleCache: Option<nat>
    var secondsOfServingStaleWhileError: Option<nat>

    /** The record as first built, at time `now`, before any decision is recorded on it. */
    constructor (cacheKey: CacheKey, response: Response, url: string, options: RequestOptions, now: int)
      ensures this.cacheKey == cacheKey && this.response == response && this.url == url
      ensures this.options == options && cachedTime == now
      ensures !canBeRevalidated && !mustRevalidateBeforeUse
      ensures timeRevalidationCanStart == Unset && purgeFromCacheTimeoutID == None
      ensures secondsBeforePurgingFromCache == 0
      ensures secondsOfAllowedStaleCache == None && secondsOfServingStaleWhileError == None
    {
      this.cacheKey := cacheKey;
      this.response := response;
      this.url := url;
      this.options := options;
      cachedTime := now;
      canBeRevalidated := false;
      mustRevalidateBeforeUse := false;
      timeRevalidationCanStart := Unset;
      purgeFromCacheTimeoutID := None;
      secondsBeforePurgingFromCache := 0;
      secondsOfAllowedStaleCache := None;
      secondsOfServingStaleWhileError := None;
    }

    /** The record as `storeInCacheIfCacheable` fills it in for policy `p`
      * at time `now`, before arming its purge timer. */
    ghost predicate Records(p: Policy, key: CacheKey, response: Response, url: string,
                            options: RequestOptions, canRevalidate: bool, now: int)
      reads this
    {
      && cacheKey == key && this.response == response && this.url == url
      && this.options == options
      && cachedTime == now
      && canBeRevalidated == canRevalidate
      && mustRevalidateBeforeUse == p.mustRevalidateBeforeUse
      && secondsBeforePurgingFromCache == p.purgeSeconds
      && secondsOfAllowedStaleCache == p.allowedStale
      && secondsOfServingStaleWhileError == p.staleWhileError
      && timeRevalidationCanStart == (if p.allowedStale.Some? then RevalidationStart(p.allowedStale, now) else Unset)
    }

    /** What revalidation never changes on a record: its request and its lifetime settings. */
    twostate predicate SettingsKept()
      reads this
    {
      && options == old(options)
      && canBeRevalidated == old(canBeRevalidated)
      && mustRevalidateBeforeUse == old(mustRevalidateBeforeUse)
      && secondsBeforePurgingFromCache == old(secondsBeforePurgingFromCache)
      && secondsOfAllowedStaleCache == old(secondsOfAllowedStaleCache)
      && secondsOfServingStaleWhileError == old(secondsOfServingStaleWhileError)
    }

    /** `setRevalidationHeaders` (index.js:50-71). */
    method SetRevalidationHeaders()
      modifies this`options, this`canBeRevalidated
      ensures options == ConditionalOptions(response.headers, old(options))
      ensures canBeRevalidated == (old(canBeRevalidated) || CanBeRevalidated(response.headers))
    {
      var etag := HeaderValue(response.headers, "etag");
      if etag.Some? {
        options := InitHeaders(options);
        options := options.(headers := Some(options.headers.value["if-none-match" := etag.value]));
        canBeRevalidated := true;
      } else {
        var lastModified := HeaderValue(response.headers, "last-modified");
        if lastModified.Some? {
          options := InitHeaders(options);
          options := options.(headers := Some(options.headers.value["if-modified-since" := lastModified.value]));
          canBeRevalidated := true;
        }
      }
    }

    /** `resetTimeWhereRevalidationCanStart` (index.js:36-40). */
    method ResetTimeWhereRevalidationCanStart(now: int)
      modifies this`timeRevalidationCanStart
      ensures timeRevalidationCanStart == RevalidationStart(secondsOfAllowedStaleCache, now)
    {
      match secondsOfAllowedStaleCache
      case Some(seconds) => timeRevalidationCanStart := At(now + seconds * 1000);
      case None => timeRevalidationCanStart := Invalid;
    }

    /** `setAge` (index.js:277-285): the `Age` header of the shared response
      * object becomes the rounded seconds since `cachedTime`. */
    method SetAge(now: int)
      modifies response`headers
      ensures response.headers == old(response.headers)["age" := AgeHeader(now, cachedTime)]
    {
      var age := AgeSeconds(now - cachedTime);
      response.headers := response.headers["age" := FormatInt(age)];
    }

    /** `startRevalidateResponseIfNeeded` (index.js:207-226) at time `now`:
      * when the deadline is due it moves on by the back-off delay, so no
      * other request starts a revalidation during the next ten seconds, and
      * the caller schedules one. */
    method StartRevalidateIfNeeded(now: int) returns (triggered: bool)
      modifies this`timeRevalidationCanStart
      ensures triggered == Due(old(timeRevalidationCanStart), now)
      ensures !triggered ==> timeRevalidationCanStart == old(timeRevalidationCanStart)
      ensures triggered ==> timeRevalidationCanStart == At(now + RevalidationBackoffSeconds * 1000)
      ensures triggered ==> forall t :: Due(timeRevalidationCanStart, t) <==> now + RevalidationBackoffSeconds * 1000 <= t
    {
      var deadline := timeRevalidationCanStart;
      if deadline.Unset? {
        return false;
      }
      if deadline.At? && deadline.ms > now {
        return false;
      }
      timeRevalidationCanStart := At(now + RevalidationBackoffSeconds * 1000);
      return true;
    }
  }

  /** The record `storeInCacheIfCacheable` fills in for policy `p` at time
    * `now` (index.js:92-98, 128, 143, 153-154, 165 and 181), before it is stored and
    * its purge timer armed. */
  method NewRecord(p: Policy, response: Response, key: CacheKey, url: string, options: RequestOptions, now: int)
    returns (obj: CacheObject)
    ensures fresh(obj)
    ensures obj.Records(p, key, response, url, ConditionalOptions(response.headers, options),
                        CanBeRevalidated(response.headers), now)
    ensures obj.purgeFromCacheTimeoutID == None
  {
    obj := new CacheObject(key, response, url, options, now);
    obj.SetRevalidationHeaders();
    obj.secondsOfServingStaleWhileError := p.staleWhileError;
    if p.allowedStale.Some? {
      obj.secondsOfAllowedStaleCache := p.allowedStale;
      obj.ResetTimeWhereRevalidationCanStart(now);
    }
    obj.mustRevalidateBeforeUse := p.mustRevalidateBeforeUse;
    obj.secondsBeforePurgingFromCache := p.purgeSeconds;
  }

  /** A pending `setTimeout` purge: at `deadline` it deletes the key of its owner. */
  datatype Timer = Timer(owner: CacheObject, deadline: int)

  /** The timers left once the one with the given id, if any, is cancelled (`clearTimeout`). */
  function Cancelled(timers: map<nat, Timer>, id: Option<nat>): map<nat, Timer> {
    if id.Some? then timers - {id.value} else timers
  }

  /** The keys the timers due by time `t` delete. */
  function Evicted(timers: map<nat, Timer>, t: int): set<CacheKey> {
    set id | id in timers && timers[id].deadline <= t :: timers[id].owner.cacheKey
  }

  /** The largest delay Node's `setTimeout` honours: 2^31 - 1 milliseconds. */
  const MaxTimerDelay: int := 0x7FFF_FFFF

  /** The delay after which Node runs a `setTimeout(callback, ms)` callback:
    * a delay outside 1 .. 2^31 - 1 milliseconds is replaced by 1. */
  function NodeTimerDelay(ms: int): int {
    if 1 <= ms <= MaxTimerDelay then ms else 1
  }

  /** As written, the purge timers of index.js:195 and 202 pass the lifetime
    * in milliseconds straight to `setTimeout`: a lifetime longer than about
    * 24.8 days, such as the year of `max-age=31536000`, fires after 1 ms and
    * the entry is purged at once instead of after its lifetime. */
  lemma LongLifetimePurgedAtOnce(seconds: nat)
    requires seconds * 1000 > MaxTimerDelay
    ensures NodeTimerDelay(seconds * 1000) == 1 < seconds * 1000
  {
  }

  /** The cache (index.js:34) with the pending purge timers of the runtime and the clock. */
  class Cache {
    var entries: map<CacheKey, CacheObject>
    var timers: map<nat, Timer>
    var nextTimerId: nat
    var now: int

    ghost function Owners(): set<CacheObject>
      reads this
    {
      set id | id in timers :: timers[id].owner
    }

    /** The objects a lookup under `key` may touch: the entry and its response. */
    ghost function Footprint(key: CacheKey): set<object>
      reads this
    {
      if key in entries then {entries[key], entries[key].response} else {}
    }

    /** Every entry sits under its own key; an entry that must be revalidated
      * before each use can be; timer ids are positive and fresh ids lie above
      * them all; and a pending timer is the one its owner has recorded, so an
      * object owns at most one pending timer. */
    ghost predicate Valid()
      reads this, entries.Values, Owners()
    {
      && (forall k | k in entries :: entries[k].cacheKey == k)
      && (forall k | k in entries :: entries[k].mustRevalidateBeforeUse ==> entries[k].canBeRevalidated)
      && 0 < nextTimerId
      && (forall id | id in timers :: 0 < id < nextTimerId)
      && (forall id | id in timers :: timers[id].owner.purgeFromCacheTimeoutID == Some(id))
    }

    constructor (start: int)
      ensures Valid()
      ensures entries == map[] && timers == map[] && now == start
    {
      entries := map[];
      timers := map[];
      nextTimerId := 1;
      now := start;
    }

    /** An object that owns two pending timers does not exist. */
    lemma AtMostOneTimerPerObject(id1: nat, id2: nat)
      requires Valid()
      requires id1 in timers && id2 in timers && timers[id1].owner == timers[id2].owner
      ensures id1 == id2
    {
      assert timers[id1].owner.purgeFromCacheTimeoutID == Some(id1);
    }

    /** The clock moves on to `t`; every purge timer due by then fires and
      * deletes its owner's key, whichever object is stored under it now. */
    method AdvanceClock(t: int)
      requires Valid() && now <= t
      modifies this
      ensures Valid()
      ensures now == t && nextTimerId == old(nextTimerId)
      ensures timers == map id | id in old(timers) && old(timers)[id].deadline > t :: old(timers)[id]
      ensures entries == old(entries) - Evicted(old(timers), t)
    {
      entries := entries - Evicted(timers, t);
      timers := map id | id in timers && timers[id].deadline > t :: timers[id];
      now := t;
    }

    /** `clearPurge` (index.js:186-191): cancel the timer recorded on `obj`. */
    method ClearPurge(obj: CacheObject)
      requires Valid()
      modifies this`timers
      ensures Valid()
      ensures timers == Cancelled(old(timers), obj.purgeFromCacheTimeoutID)
    {
      if obj.purgeFromCacheTimeoutID.Some? {
        timers := timers - {obj.purgeFromCacheTimeoutID.value};
      }
    }

    /** The common body of `resetPurgeFromCache` and
      * `resetPurgeFromCacheBecauseOfError`: cancel the old timer of `obj` and
      * arm a new one `seconds` from now. */
    method RearmPurge(obj: CacheObject, seconds: nat)
      requires Valid()
      modifies this`timers, this`nextTimerId, obj`purgeFromCacheTimeoutID
      ensures Valid()
      ensures timers == Cancelled(old(timers), old(obj.purgeFromCacheTimeoutID))[old(nextTimerId) := Timer(obj, now + seconds * 1000)]
      ensures nextTimerId == old(nextTimerId) + 1
      ensures obj.purgeFromCacheTimeoutID == Some(old(nextTimerId))
    {
      ClearPurge(obj);
      var id := nextTimerId;
      nextTimerId := nextTimerId + 1;
      timers := timers[id := Timer(obj, now + seconds * 1000)];
      obj.purgeFromCacheTimeoutID := Some(id);
    }

    /** `resetPurgeFromCache` (index.js:193-198). */
    method ResetPurgeFromCache(obj: CacheObject)
      requires Valid()
      modifies this`timers, this`nextTimerId, obj`purgeFromCacheTimeoutID
      ensures Valid()
      ensures timers == Cancelled(old(timers), old(obj.purgeFromCacheTimeoutID))[old(nextTimerId) := Timer(obj, now + obj.secondsBeforePurgingFromCache * 1000)]
      ensures nextTimerId == old(nextTimerId) + 1
      ensures obj.purgeFromCacheTimeoutID == Some(old(nextTimerId))
    {
      RearmPurge(obj, obj.secondsBeforePurgingFromCache);
    }

    /** `resetPurgeFromCacheBecauseOfError` (index.js:200-205). */
    method ResetPurgeFromCacheBecauseOfError(obj: CacheObject)
      requires Valid()
      modifies this`timers, this`nextTimerId, obj`purgeFromCacheTimeoutID
      ensures Valid()
      ensures timers == Cancelled(old(timers), old(obj.purgeFromCacheTimeoutID))[old(nextTimerId) := Timer(obj, now + obj.secondsOfServingStaleWhileError.GetOr(0) * 1000)]
      ensures nextTimerId == old(nextTimerId) + 1
      ensures obj.purgeFromCacheTimeoutID == Some(old(nextTimerId))
    {
      RearmPurge(obj, obj.secondsOfServingStaleWhileError.GetOr(0));
    }

    /** The record `storeInCacheIfCacheable` builds once it has decided on
      * policy `p` (index.js:92-98, 128, 143, 153-154, 165 and 181-183): a fresh
      * entry under `key`, replacing any entry there, with its conditional
      * request options, and one new purge timer for it.  The timers of a
      * replaced entry stay pending. */
    method Store(p: Policy, response: Response, key: CacheKey, url: string, options: RequestOptions)
      requires Valid()
      requires p.mustRevalidateBeforeUse ==> CanBeRevalidated(response.headers)
      modifies this
      ensures Valid()
      ensures now == old(now)
      ensures key in entries && fresh(entries[key]) && entries == old(entries)[key := entries[key]]
      ensures entries[key].Records(p, key, response, url, ConditionalOptions(response.headers, options),
                                   CanBeRevalidated(response.headers), now)
      ensures entries[key].purgeFromCacheTimeoutID == Some(old(nextTimerId))
      ensures timers == old(timers)[old(nextTimerId) := Timer(entries[key], now + p.purgeSeconds * 1000)]
      ensures nextTimerId == old(nextTimerId) + 1
    {
      var obj := NewRecord(p, response, key, url, options, now);
      entries := entries[key := obj];
      ResetPurgeFromCache(obj);
    }

    /** What `storeInCacheIfCacheable(response, key, url, options)` leaves
      * behind: nothing when `Decide` refuses the response; otherwise a fresh
      * record under `key`, replacing any entry there, and one new purge timer
      * for it.  The timers of a replaced entry stay pending. */
    twostate predicate StoredIfCacheable(new response: Response, key: CacheKey, url: string, options: RequestOptions)
      reads this, entries.Values, response
    {
      && now == old(now)
      && match Decide(response.Ok(), response.headers)
         case None =>
           entries == old(entries) && timers == old(timers) && nextTimerId == old(nextTimerId)
         case Some(p) =>
           && key in entries && fresh(entries[key]) && entries == old(entries)[key := entries[key]]
           && entries[key].Records(p, key, response, url, ConditionalOptions(response.headers, options),
                                   CanBeRevalidated(response.headers), now)
           && entries[key].purgeFromCacheTimeoutID == Some(old(nextTimerId))
           && timers == old(timers)[old(nextTimerId) := Timer(entries[key], now + p.purgeSeconds * 1000)]
           && nextTimerId == old(nextTimerId) + 1
    }

    /** `storeInCacheIfCacheable` (index.js:73-184). */
    method StoreIfCacheable(response: Response, key: CacheKey, url: string, options: RequestOptions)
      requires Valid()
      modifies this
      ensures Valid()
      ensures StoredIfCacheable(response, key, url, options)
    {
      var decision := DecideStorage(response.Ok(), response.headers);
      if decision.Some? {
        Store(decision.value, response, key, url, options);
      }
    }

    /** The renewal after a 304 Not Modified (index.js:235-246): the purge
      * timer is re-armed for the full lifetime, the revalidation deadline
      * restarts and the entry's age goes back to zero. */
    twostate predicate Renewed(obj: CacheObject)
      reads this, obj
    {
      && now == old(now)
      && entries == old(entries)
      && obj.cachedTime == now
      && obj.timeRevalidationCanStart == RevalidationStart(obj.secondsOfAllowedStaleCache, now)
      && obj.purgeFromCacheTimeoutID == Some(old(nextTimerId))
      && timers == Cancelled(old(timers), old(obj.purgeFromCacheTimeoutID))[old(nextTimerId) :=
                     Timer(obj, now + obj.secondsBeforePurgingFromCache * 1000)]
      && nextTimerId == old(nextTimerId) + 1
    }

    /** The 304 branch of `revalidate` (index.js:235-246). */
    method RenewAfterNotModified(obj: CacheObject)
      requires Valid()
      modifies this`timers, this`nextTimerId, obj`purgeFromCacheTimeoutID,
               obj`timeRevalidationCanStart, obj`cachedTime
      ensures Valid()
      ensures Renewed(obj)
    {
      ResetPurgeFromCache(obj);
      obj.ResetTimeWhereRevalidationCanStart(now);
      obj.cachedTime := now;
    }

    /** Serving stale while error (index.js:256-265): the purge timer is
      * re-armed for the stale-while-error seconds, the next revalidation
      * waits for the back-off delay and the `Age` header is refreshed. */
    twostate predicate KeptStale(obj: CacheObject)
      reads this, obj, obj.response
    {
      && now == old(now)
      && entries == old(entries)
      && obj.cachedTime == old(obj.cachedTime)
      && obj.timeRevalidationCanStart == At(now + RevalidationBackoffSeconds * 1000)
      && obj.purgeFromCacheTimeoutID == Some(old(nextTimerId))
      && timers == Cancelled(old(timers), old(obj.purgeFromCacheTimeoutID))[old(nextTimerId) :=
                     Timer(obj, now + obj.secondsOfServingStaleWhileError.GetOr(0) * 1000)]
      && nextTimerId == old(nextTimerId) + 1
      && obj.response.headers == old(obj.response.headers)["age" := AgeHeader(now, obj.cachedTime)]
    }

    /** The stale-while-error branch of `revalidate` (index.js:256-265). */
    method KeepStaleAfterError(obj: CacheObject)
      requires Valid()
      modifies this`timers, this`nextTimerId, obj`purgeFromCacheTimeoutID,
               obj`timeRevalidationCanStart, obj.response`headers
      ensures Valid()
      ensures KeptStale(obj)
    {
      ResetPurgeFromCacheBecauseOfError(obj);
      obj.timeRevalidationCanStart := At(now + RevalidationBackoffSeconds * 1000);
      obj.SetAge(now);
    }

    /** What `revalidate(obj)` leaves behind when the transport answers
      * `reply` and the call returns `r`. */
    twostate predicate Revalidated(obj: CacheObject, reply: Reply, new r: Response)
      reads this, entries.Values, obj, obj.response, r
    {
      && obj.SettingsKept()
      && if reply.status == 304 then
           // Not modified: the entry is renewed in place and its response reused.
           r == obj.response && Renewed(obj) && obj.response.headers == old(obj.response.headers)
         else if IsOk(reply.status) then
           // Changed: the new response is returned and stored the ordinary way.
           && fresh(r) && r.status == reply.status && r.headers == reply.headers && r.body == reply.body
           && StoredIfCacheable(r, obj.cacheKey, obj.url, obj.options)
           && unchanged(obj, obj.response)
         else if obj.secondsOfServingStaleWhileError.GetOr(0) == 0 then
           // Failed without stale-while-error: the failure is returned.
           && fresh(r) && r.status == reply.status && r.headers == reply.headers && r.body == reply.body
           && now == old(now) && entries == old(entries) && timers == old(timers) && nextTimerId == old(nextTimerId)
           && unchanged(obj, obj.response)
         else
           // Failed with stale-while-error: the stale response is served and kept longer.
           r == obj.response && KeptStale(obj)
    }

    /** `revalidate` (index.js:228-268): the conditional request for `obj` has
      * been answered with `reply`. */
    method Revalidate(obj: CacheObject, reply: Reply) returns (r: Response)
      requires Valid()
      modifies this, obj, obj.response
      ensures Valid()
      ensures Revalidated(obj, reply, r)
    {
      var fetchResponse := new Response(reply);
      if fetchResponse.status == 304 {
        RenewAfterNotModified(obj);
        return obj.response;
      }
      if fetchResponse.Ok() {
        StoreIfCacheable(fetchResponse, obj.cacheKey, obj.url, obj.options);
        return fetchResponse;
      }
      if obj.secondsOfServingStaleWhileError.GetOr(0) == 0 {
        return fetchResponse;
      }
      KeepStaleAfterError(obj);
      return obj.response;
    }

    /** A hit on an entry that need not be revalidated first
      * (index.js:298-300): the stored response object is handed out with a
      * fresh `Age`, and a background revalidation is scheduled, as
      * `background`, exactly when the revalidation deadline was due; nothing
      * else about the cache changes. */
    twostate predicate Served(obj: CacheObject, new r: Response, new background: Option<CacheObject>)
      reads this, obj, obj.response
    {
      && now == old(now) && entries == old(entries) && timers == old(timers) && nextTimerId == old(nextTimerId)
      && r == obj.response
      && obj.response.headers == old(obj.response.headers)["age" := AgeHeader(now, obj.cachedTime)]
      && (background.Some? <==> Due(old(obj.timeRevalidationCanStart), now))
      && (background.Some? ==> background.value == obj)
      && obj.timeRevalidationCanStart ==
           (if background.Some? then At(now + RevalidationBackoffSeconds * 1000) else old(obj.timeRevalidationCanStart))
      && obj.SettingsKept()
      && obj.cachedTime == old(obj.cachedTime)
      && obj.purgeFromCacheTimeoutID == old(obj.purgeFromCacheTimeoutID)
    }

    /** `fetch(url, options)` (index.js:287-309), where `reply` is what the
      * transport answers if a request is made.  A miss answers with a new
      * response and offers it for storing; an entry that must be revalidated
      * before use is revalidated; any other hit is served from the cache.
      * `background` is the entry whose revalidation was scheduled, if any. */
    method Fetch(url: string, options: RequestOptions, reply: Reply) returns (r: Response, background: Option<CacheObject>)
      requires Valid()
      modifies this, Footprint(GetCacheKey(url, options))
      ensures Valid()
      ensures var key := GetCacheKey(url, options);
        key !in old(entries) ==>
          && fresh(r) && r.status == reply.status && r.headers == reply.headers && r.body == reply.body
          && StoredIfCacheable(r, key, url, options)
          && background.None?
      ensures var key := GetCacheKey(url, options);
        key in old(entries) && old(entries[key].mustRevalidateBeforeUse) ==>
          Revalidated(old(entries[key]), reply, r) && background.None?
      ensures var key := GetCacheKey(url, options);
        key in old(entries) && !old(entries[key].mustRevalidateBeforeUse) ==>
          Served(old(entries[key]), r, background)
    {
      var key := GetCacheKey(url, options);
      if key in entries {
        var obj := entries[key];
        if obj.mustRevalidateBeforeUse {
          r := Revalidate(obj, reply);
          return r, None;
        }
        var triggered := obj.StartRevalidateIfNeeded(now);
        background := if triggered then Some(obj) else None;
        obj.SetAge(now);
        return obj.response, background;
      }
      var fetchResponse := new Response(reply);
      StoreIfCacheable(fetchResponse, key, url, options);
      return fetchResponse, None;
    }
  }
}
