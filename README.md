# node-caching-fetch, modelled in Dafny

`node-caching-fetch` wraps a `fetch` function in an in-process HTTP
response cache that behaves like a shared cache (a reverse proxy or CDN).
This project models the cache engine in `index.js` and proves properties of
that model:

- **What the cache reads from `Cache-Control`** (`CacheControl`). It reads six
  regular expressions applied to the raw header string. Words such as
  `private` are matched between word boundaries, ignoring ASCII case.
  Arguments such as `max-age=` take the leftmost match and read the greedy
  run of digits with `parseInt`.
- **The cacheability decision of `storeInCacheIfCacheable`** (`Freshness`).
  This covers:
  - the refusals;
  - s-maxage taking precedence over max-age;
  - stale-while-revalidate and stale-while-error;
  - the must-revalidate / proxy-revalidate / no-cache branch and the
    validator it needs.

  `Decide` is the specification. `DecideStorage` follows the source branch
  by branch and is proved equal to it.
- **Validator negotiation** (`Validators`). An `ETag` becomes
  `If-None-Match`; otherwise `Last-Modified` becomes `If-Modified-Since`.
  These are the conditional requests of RFC 7232, section 3.2 and section 3.3.
- **The cache itself** (`ResponseCache`).
  - `Cache` is a class holding the `cache` map, the pending purge timers, an
    integer clock in milliseconds and the next timer id.
  - `CacheObject` is a class whose fields are updated in place, as the
    source's cache objects are.
  - A `setTimeout` purge is a stored `Timer(owner, deadline)`. When the clock
    passes the deadline, the timer deletes its owner's key
    (`Cache.AdvanceClock`). That key may by then hold a newer record; the
    timer of a replaced record still evicts it.
  - The methods cover storing, re-arming and cancelling purge timers, the
    revalidation state machine (304, changed, failed, failed with
    stale-while-error), the 10-second back-off, the `Age` refresh on hits,
    and `fetch`.
  - `Cache.Valid()` is the invariant every method keeps:
    - each entry sits under its own key;
    - `mustRevalidateBeforeUse` implies `canBeRevalidated`;
    - each pending timer is the one its owner records, so an object owns at
      most one live timer.

## Modelling choices

- **Time.** Time is the integer `now` (milliseconds) of the cache;
  `AdvanceClock` moves it on.
- **Invalid dates.** `new Date()` plus `undefined * 1000` milliseconds is an
  invalid `Date`, and an invalid `Date` compares false with every time. It is
  modelled as `Deadline.Invalid`, which is always due.
- **Transport.** The transport is an input: `Fetch` and `Revalidate` take the
  `Reply` the transport gives and allocate a new `Response` object from it.
- **Background revalidation.** A background revalidation scheduled by a hit
  is returned as `background`. The driver later calls `Revalidate` on it with
  the transport's reply. `Fetch` takes a `reply` on every call and ignores it
  on a hit that needs no request.
- **Header names.** Header maps are assumed to hold lower-case names, as
  `Headers` normalises them; every lookup uses a lower-case name. Nothing in
  the model checks this of a `Reply`. `headers.get(name)` used as a condition
  treats a missing header and an empty one alike (`HeaderValue`).
- **Cache key.** The cache key is the pair of URL and options
  (`GetCacheKey`), a stand-in for `JSON.stringify` (see "## Left out" for
  where the two differ).
- **`Math.round`.** `Math.round(ms / 1000)` on a whole number of
  milliseconds is `(ms + 500) / 1000` in floor division.

## Behaviour worth knowing

- **Incoming `Age` header.** An `Age` header on an incoming response is never
  read. `cachedTime` is the time of storing (index.js:97) or of the last 304
  (index.js:241); it is never back-dated by an incoming `Age`.
- **No "expired on arrival" rejection.** A header with neither s-maxage nor
  max-age is not refused for lacking a lifetime: the allowed seconds are 0
  (index.js:99), so without a positive stale-while-revalidate the purge delay
  is 0 (index.js:150, 156, 181). The other refusals still apply: `private` or
  `no-store` (index.js:84), and a revalidation word without a validator
  (index.js:160-174).
- **Precedence.** A positive stale-while-revalidate takes precedence over
  must-revalidate / proxy-revalidate / no-cache (index.js:150-159).
- **No special case for no-cache.** no-cache is handled exactly like
  must-revalidate and proxy-revalidate (index.js:160).
- **Revalidating before use.** An entry with `mustRevalidateBeforeUse` is
  revalidated on every hit, not only once a deadline has passed
  (index.js:292-297).
- **A changed but uncacheable response.** When revalidation gets back a
  changed response that is not cacheable, the old entry is not dropped. It
  stays, with its old timer (index.js:248-252, 73-184).
- **Replaced entries' timers.** When revalidation stores a new record under a
  key, the old record's purge timer is not cancelled and still deletes the
  key when it fires (index.js:186-198, 251).

## Model

| member | source | states |
|---|---|---|
| `Decimal.Format` | index.js:282-283 | The written number has at least one character, all of them digits, and begins with `0` only when the number is 0, which is then written `"0"`. |
| `Decimal.ValueOfFormat` | index.js:282-283 | Reading back the digits written for n gives n. |
| `Decimal.FormatInt` | index.js:282-283 | A non-negative `Age` is written as digits that read back as the age, with no leading zero unless the age is 0. 0 is written `"0"`. A negative one is written as a minus sign followed by digits that read back as its magnitude and do not start with `0`. This is the shortest form, as `String(n)` writes it. |
| `CacheControl.FindWord` | index.js:84 | Definition: the left-to-right scan a global `/\bw\b/gi` makes; its meaning is proved in `FindWordFinds`. |
| `CacheControl.ForbidsStoring` | index.js:84 | Definition: `/\b(?:private\|no-store)\b/gi` matches. |
| `CacheControl.DemandsRevalidation` | index.js:160 | Definition: `/\b(?:must-revalidate\|proxy-revalidate\|no-cache)\b/gi` matches. |
| `CacheControl.FindWordFinds` | index.js:84 | The scan of a global, case-insensitive `/\bw\b/` finds `w` exactly when some occurrence at or after the start has word boundaries on both sides and matches ignoring ASCII case. |
| `CacheControl.FirstArgument` | index.js:101 | The match position found lies inside the string, with room for the name and one more character. |
| `CacheControl.FirstArgumentIsLeftmost` | index.js:101 | The position found is a match of `name` followed by a digit. No earlier position matches, and when nothing is found no position matches. |
| `CacheControl.DigitsEnd` | index.js:103 | The end of the digit run lies between its start and the end of the string. |
| `CacheControl.DigitsEndIsMaximal` | index.js:101-103 | The greedy `\d+` run is all digits and is followed by the end of the string or a non-digit. |
| `CacheControl.CapturedIsDigits` | index.js:101-103 | The captured group of a match is a non-empty run of digits. |
| `CacheControl.Argument` | index.js:101-103 | Definition: `s.match(/name(\d+)/)` then `parseInt` of the group; its meaning is proved in `ArgumentFound` and `ArgumentIsLeftmost`. |
| `CacheControl.ArgumentFound` | index.js:101-102 | `s.match(/name(\d+)/)` succeeds exactly when `name` followed by a digit occurs somewhere in the header. |
| `CacheControl.ArgumentIsLeftmost` | index.js:101-103 | The number read is `parseInt` of the digits after the leftmost match; later occurrences of the directive are ignored. |
| `Http.HeaderValue` | index.js:77-78 | Definition: `headers.get(name)` used as a condition, so a missing header and an empty one both count as absent. |
| `Http.IsOk` | index.js:74 | Definition of `response.ok`: a status from 200 to 299. |
| `Http.Response.Ok` | index.js:248 | Definition: `response.ok` of a response object, from its status. |
| `Http.GetCacheKey` | index.js:271-275 | The key determines the URL and the options it was made from, so two different requests never share an entry. |
| `CacheControl.Parse` | index.js:84-160 | Definition: each of the six regular expressions is applied to the whole header on its own, so no directive's match depends on another's; `ParseReadsHeader` states what each field means. |
| `CacheControl.ParseReadsHeader` | index.js:84-160 | A word field holds exactly when one of its words occurs between word boundaries, ignoring case. An argument field is present exactly when its name followed by a digit occurs in the header. |
| `Validators.CanBeRevalidated` | index.js:52-65 | Definition: a non-empty `ETag` or `Last-Modified` header. |
| `Validators.InitHeaders` | index.js:42-48 | The options end up with a header container, keep their headers and other settings, and are untouched when they already had a container. |
| `Validators.WithRequestHeader` | index.js:54-55 | The request headers gain exactly the one header set, and the other settings are kept. |
| `Validators.ConditionalOptions` | index.js:50-71 | With an `ETag`, `If-None-Match` is set to it. Otherwise, with `Last-Modified`, `If-Modified-Since` is set to it. Otherwise the options are unchanged. The other settings are always kept. |
| `Validators.AliasedOptionsChangeKey` | index.js:45-64 | Options without `headers`, once the conditional headers are written into them, give a different cache key than the one their response was stored under. |
| `Freshness.StaleWhileErrorFromHeader` | index.js:139-148 | In a stored policy, the stale-while-error seconds are `Some(v)` exactly when the digits after the leftmost `stale-while-error=` read a `v` > 0, and `None` when they read 0. |
| `Freshness.NoStaleWhileErrorWithoutDirective` | index.js:139-148 | Without `stale-while-error=` followed by a digit, a stored policy records no stale-while-error seconds. |
| `Freshness.AllowedCaching` | index.js:99-127 | s-maxage, when present, gives the allowed seconds. Otherwise max-age gives them, and otherwise they are 0. Nothing is stored exactly when the directive that is read is 0. |
| `Freshness.FromDirectives` | index.js:84-176 | Nothing is stored exactly when one of the refusals holds. When something is stored, the stored values are fixed: purge = allowed + stale-while-revalidate; the stale window is recorded exactly when stale-while-revalidate > 0; stale-while-error is recorded exactly when it is present and positive, with its value; revalidate-before-use holds exactly when there is no stale-while-revalidate and a revalidation word is present, and then a validator exists. |
| `Freshness.Decide` | index.js:73-184 | A response that is not ok, has no or an empty `Cache-Control`, or whose header forbids storing is not stored. An entry that must be revalidated before use has a validator. |
| `Freshness.DecideStorage` | index.js:73-176 | The source's early returns and accumulated locals compute exactly `Decide` of the response. |
| `Freshness.MissingCacheControlRefuses` | index.js:77-83 | A response with no `Cache-Control` header, or an empty one, is not stored. |
| `Freshness.ForbiddingWordRefuses` | index.js:84-89 | A `private` or `no-store` word anywhere in `Cache-Control`, in any letter case, means nothing is stored. |
| `Freshness.SMaxAgeOverridesMaxAge` | index.js:99-114 | Once s-maxage is present, max-age has no influence on the decision. |
| `Freshness.StaleWhileRevalidateOverridesRevalidation` | index.js:150-176 | With a positive stale-while-revalidate, neither the revalidation words nor the presence of a validator change the decision. |
| `ResponseCache.Due` | index.js:209-215 | Definition: an unset deadline is never due, a time is due once it is not later than now, an invalid `Date` is always due. |
| `ResponseCache.LongLifetimePurgedAtOnce` | index.js:193-205 | A lifetime above 2^31 - 1 ms, passed to `setTimeout` as written, fires after 1 ms. |
| `ResponseCache.RevalidationStart` | index.js:36-40 | Revalidation becomes due once the allowed stale seconds have passed. Without them it is due at once (an invalid `Date`). |
| `ResponseCache.AgeSeconds` | index.js:281-282 | The age is the nearest whole second to the elapsed milliseconds, halves rounded up. |
| `ResponseCache.AgeNeverDecreases` | index.js:277-285 | Between two reads with no revalidation in between, the `Age` a reader sees does not go down. |
| `ResponseCache.CacheObject.constructor` | index.js:92-98 | A new record holds its key, response, URL, options and the time of storing, and has no decisions recorded yet. |
| `ResponseCache.CacheObject.SetRevalidationHeaders` | index.js:50-71 | The record's options become the conditional options of its response. It becomes revalidatable when the response carries a validator, and the flag is never cleared. |
| `ResponseCache.CacheObject.ResetTimeWhereRevalidationCanStart` | index.js:36-40 | The revalidation deadline becomes now plus the allowed stale seconds. |
| `ResponseCache.CacheObject.SetAge` | index.js:277-285 | The shared response's `Age` header becomes the rounded seconds since `cachedTime`; its other headers stay. |
| `ResponseCache.CacheObject.StartRevalidateIfNeeded` | index.js:207-226 | A revalidation is triggered exactly when the deadline is due: set, not later than now, or invalid. A trigger moves the deadline to now + 10 s, so no second trigger happens within that window. |
| `ResponseCache.NewRecord` | index.js:92-176 | The fresh record holds everything the decided policy says, the conditional options and the revalidation deadline, and has no timer yet. |
| `ResponseCache.Cache.constructor` | index.js:34 | The cache starts empty, with no timers. |
| `ResponseCache.Cache.AtMostOneTimerPerObject` | index.js:186-198 | No object owns two pending purge timers. |
| `ResponseCache.Cache.AdvanceClock` | index.js:195-197 | Every timer due by the new time fires and removes its owner's key, whichever record is stored under that key by then; the others stay pending. With `Cache.Store`, which leaves a replaced record's timer pending, this means an old timer evicts the newer record early. |
| `ResponseCache.Cache.ClearPurge` | index.js:186-191 | Only the timer recorded on the given object is cancelled. |
| `ResponseCache.Cache.RearmPurge` | index.js:186-205 | The object's old timer is cancelled and exactly one new timer, `seconds` from now, is recorded on it. |
| `ResponseCache.Cache.ResetPurgeFromCache` | index.js:193-198 | The timer is re-armed for `secondsBeforePurgingFromCache`. |
| `ResponseCache.Cache.ResetPurgeFromCacheBecauseOfError` | index.js:200-205 | The timer is re-armed for the stale-while-error seconds. |
| `ResponseCache.Cache.Store` | index.js:177-183 | The record for the policy replaces any entry under its key. One timer for the purge seconds is armed, and the timers of a replaced entry stay pending. |
| `ResponseCache.Cache.StoreIfCacheable` | index.js:73-184 | Nothing changes when `Decide` refuses the response. Otherwise a fresh record recording `Decide`'s policy replaces the entry under the key, with its purge timer. |
| `ResponseCache.Cache.RenewAfterNotModified` | index.js:235-246 | After a 304: the timer is re-armed for the full lifetime, the revalidation deadline restarts, and `cachedTime` becomes now. |
| `ResponseCache.Cache.KeepStaleAfterError` | index.js:256-265 | After a failure with stale-while-error: the timer is re-armed for the error seconds, the next revalidation waits 10 s, and `Age` is refreshed. |
| `ResponseCache.Cache.Revalidate` | index.js:228-268 | Four outcomes. 304: the cached response is returned, renewed. Changed (ok): the new response is returned and offered for storing under the same key. Failed without stale-while-error: the failure is returned and nothing changes. Failed with it: the stale response is returned and kept longer. A record's settings never change. |
| `ResponseCache.Cache.Fetch` | index.js:287-309 | A miss returns the transport's response whether or not it is stored. A must-revalidate entry is revalidated on every hit. Any other hit returns the same stored response object, with a fresh `Age`, and schedules a background revalidation exactly when the deadline was due. |

## Left out

- **The `node-fetch` transport** (index.js:233, 304) and the library re-exports (index.js:1-8). The transport's answer is a `Reply` parameter; its internals are not part of this model.
- **Thrown transport errors** propagate out of `fetch` and `revalidate` without changing any entry, so they are not modelled separately. On the background path (index.js:223-225) nothing catches the rejection of `await revalidate(cachedObject)`; in Node 15 and later such an unhandled rejection ends the process by default.
- **Real timers and `Date`.** `setTimeout`/`clearTimeout` are stored deadlines on an integer clock.
- **The 10 ms delay before a background revalidation** (index.js:223-225) is left to the driver, which calls `Revalidate` on the returned `background` record.
- **The concurrency of the asynchronous `revalidate`.** The interleaving with other requests while the transport is awaited is out of scope; each `Revalidate` is one atomic step.
- **Node's clamping of timer delays.** The model's purge deadlines use the lifetime as written (see "## Findings"); `NodeTimerDelay` states Node's clamp but the cache does not use it.
- **`parseInt` rounding.** `parseInt` rounds a number above 2^53 to the nearest double. The model reads the exact integer.
- **Aliasing of the caller's `options_` object.** `initHeaders` and `headers.set` mutate that object in place (index.js:43-46, 55, 64); the model computes new option values instead, so a caller's options keep their key (see "## Findings").
- **`JSON.stringify` as a key.** Stringifying `Headers` objects loses their contents, so in the source two requests that differ only in header objects share a key; the model's key keeps the headers. `JSON.stringify` also depends on property order, so two option objects that differ only in the order of their properties are two entries in the source and one entry in the model, whose `settings` is a map.
- `Validators.InitHeaders`, `ResponseCache.Cache.Fetch`: request headers given as a plain object (`{headers: {authorization: ...}}`) are not modelled. `initHeaders` keeps such a value (index.js:45), so `options_.headers.set(...)` (index.js:55, 64) throws a TypeError whenever the response carries an `ETag` or `Last-Modified`. `storeInCacheIfCacheable` calls it (index.js:128) and so throws before it stores anything (index.js:182): the miss path of `fetch` and the ok branch of `revalidate` reject instead of returning the response. The model's request headers are always a header container, so `Cache.Fetch`'s miss clause does not cover these callers.
- **Header names in a `Reply`** are not checked to be lower case; the model relies on the transport's `Headers` normalisation.
- **The `response.headers` undefined branch of `setAge`** (index.js:278). A response from the transport always has headers, so `SetAge` always writes `Age`.
- **Debug logging** (`enableDebugLogging`, every `console.log`, index.js:28-32).
- **`example.mjs`**, a demo driver with no logic.

## Findings

| source | as written | input that shows it | evidently intended | confidence | as-written member | corrected member |
|---|---|---|---|---|---|---|
| index.js:193-205 | The purge timer is `setTimeout(purge, seconds * 1000)`, and Node runs a delay above 2^31 - 1 ms (about 24.8 days) after 1 ms. | `Cache-Control: max-age=31536000`, a delay of 31 536 000 000 ms: the entry is purged about 1 ms after it is stored. | The entry stays until its lifetime has passed. | not executed | `ResponseCache.LongLifetimePurgedAtOnce` | `ResponseCache.Cache.RearmPurge` |
| index.js:45-64 | `initHeaders` and `headers.set` write `headers` and `If-None-Match` / `If-Modified-Since` into the caller's own options object, which is also the input of the cache key. | `fetch(u, o)` with `o = {method: 'GET'}`, answered with an `ETag`. The second `fetch(u, o)` serialises `"headers":{}` into its key and misses. Its request now carries `If-None-Match`, so the origin may answer 304. That 304 is returned to the caller, and it is not stored (index.js:304-308). | Repeating a request with the same options object hits the entry stored for it, and the caller's object is left as it was. | not executed | `Validators.AliasedOptionsChangeKey` | `ResponseCache.Cache.Fetch` |
