# NASA picture-of-the-day caching proxy, modelled in Dafny

The backend of this repository is a small Express server that sits in front of
NASA's Astronomy Picture of the Day service. It has four picture routes:
today's picture, the picture of one date, a range of dates, and a random sample.
Every route works the same way:

1. It derives a cache key from the request.
2. It looks the key up in one shared in-memory cache.
3. On a hit it returns the stored body. On a miss it calls the service through
   `fetchFromNasa` and stores a successful answer with the route's lifetime
   (3600 s, or 300 s for random samples).
4. Any thrown error becomes a 500 response `{error: message}`. A failure is
   never stored.

This project models that core:

- `decimal.dfy` (module `Decimal`): how JavaScript writes an integer as decimal
  text, the parser that reads it back, and `slice(0, -k)` on that text.
- `keys.dfy` (module `Keys`): the four key shapes and the count rule of the
  random route, `Math.min(parseInt(count) || 5, 20)`. It also holds the random
  key's time window: the millisecond clock written out with its last five
  digits cut off.
- `outbound.dfy` (module `Outbound`): `fetchFromNasa`. The `URLSearchParams.set`
  loop builds the upstream query string, and a non-ok status turns into the
  thrown message `NASA API error: <status>`.
- `store.dfy` (module `Store`): the cache, a class holding a
  `map<string, Entry>`. Each entry has its own expiry time, and the clock is
  passed in as a millisecond timestamp.
- `proxy.dfy` (module `Proxy`): the dispatcher. `PlanFor` gives each request its
  key, lifetime and upstream parameters. `Serve` is the pure specification of
  one request. It reads the clock twice: once when the key is derived and the
  cache is read, and once when the cache is written after the service has
  answered. `Handle` is the imperative handler that reads and writes the
  shared `Cache` and is proved against `Serve`. The service's answer is a
  parameter (`Reply`): a status with a body, or a thrown exception.
- `routes.dfy` (module `Routes`): Express's first-match routing over the routes
  in registration order.
- `wrappers.dfy` (module `Wrappers`): `Option` and `Result`.

Facts about the code that the model makes explicit:

- The random key's window is 100 000 milliseconds, that is 100 seconds.
- The count has an upper bound of 20 and no lower bound. A negative count is
  sent upstream as it is.
- Cache keys are not collision-free. The date `today` has the same key as the
  today route (`Keys.TodayDateCollision`). A date `range_<s>_<e>` has the same
  key as the range `(s, e)` (`Keys.RangeDateCollision`). Swapping a range's
  start and end can keep its key (`Keys.RangeSwapCollision`). A date
  `random_<count>_<window>` has the same key as that random request
  (`Keys.RandomDateCollision`, for instance the date `random_5_1`). What does hold is
  stated by `Keys.DateKeyInjective`, `Keys.RangeKeyInjective` (for start dates
  without `_`, which includes every `YYYY-MM-DD`), `Keys.RandomKeyIff` and
  `Keys.RouteFamiliesDisjoint`.
- The server has no eviction policy of its own. The bound of 100 entries
  belongs to the cache library (see below).
- The comment above the random route names the path `/api/apod/random`. That
  path actually reaches the date handler with the date `random`
  (`Routes.RandomUnderApodIsADate`). The route is served at `/api/random`.

## Model

| member | source | states |
|---|---|---|
| `Decimal.ParseNatInverse` | backend/server.js:95 | the decimal text of a clock value or count reads back as the same number |
| `Decimal.IntToStringInjective` | backend/server.js:95 | two counts have the same text in a key exactly when they are equal, negative counts included |
| `Decimal.DropLastDigits` | backend/server.js:95 | `slice(0, -k)` on a number's decimal text is the text of the number with its last k digits removed, or "" when no digit is left |
| `Decimal.DropFiveDigits` | backend/server.js:95 | removing five digits is integer division by 100000 |
| `Decimal.NatToString` | backend/server.js:95 | the text `toString()` gives a clock value is non-empty and all digits, one digit exactly below 10, with no leading zero; `ParseNatInverse` reads it back |
| `Decimal.IntToString` | backend/server.js:95 | the text `${count}` gives a count starts with '-' exactly for negative counts and is otherwise digits, so it never holds `_`; `IntToStringInjective` reads it back |
| `Decimal.DropLast` | backend/server.js:95 | `slice(0, -k)` keeps a prefix, k characters shorter, or nothing when the text has no more than k characters |
| `Keys.NormalizeCount` | backend/server.js:94 | the count is never above 20. It is 5 when parseInt gave NaN or 0. Any other value up to 20, negative ones included, is kept. Anything from 20 up becomes 20 |
| `Keys.Window` | backend/server.js:95 | the time part of the random key is the decimal text of `now / 100000` (a 100-second window), and "" before the clock reaches 100000 |
| `Keys.DateKey` | backend/server.js:77 | the date key is `apod_` followed by the date exactly as given |
| `Keys.RangeKey` | backend/server.js:42 | the range key is `apod_range_`, the start, `_`, the end, both exactly as given |
| `Keys.RandomKey` | backend/server.js:95 | the random key is `apod_random_`, the count's text, `_`, the window's text |
| `Keys.DateKeyInjective` | backend/server.js:77 | two dates share a key exactly when they are the same date |
| `Keys.TodayDateCollision` | backend/server.js:59 | the date `today` shares its key with the today route |
| `Keys.RangeDateCollision` | backend/server.js:42 | the range `(s, e)` shares its key with the date `range_<s>_<e>` |
| `Keys.RandomDateCollision` | backend/server.js:95 | the random key of (count, clock) equals the date key of `random_<count>_<window>` |
| `Keys.RandomDateCollisionExample` | backend/server.js:77 | the date `random_5_1` shares its key with five random pictures requested at 100000 ms |
| `Keys.RangeSwapCollision` | backend/server.js:42 | there are distinct start and end texts whose range key does not change when they are swapped |
| `Keys.RangeKeyInjective` | backend/server.js:42 | when neither start date contains `_`, two ranges share a key exactly when their starts and their ends are equal |
| `Keys.RandomKeyIff` | backend/server.js:95 | two random keys are equal exactly when the counts are equal and both clocks fall in the same `now / 100000` window |
| `Keys.RouteFamiliesDisjoint` | backend/server.js:59 | today, range and random keys never coincide |
| `Keys.ClampedCountsShareKey` | backend/server.js:94-95 | `count=999` and `count=20` share a key in a window, and so do a missing, a zero and a `5` count |
| `Outbound.SetParam` | backend/server.js:22-24 | `searchParams.set` makes the name read back as the new value and leaves every other name as it was. Names stay unique, and the name set gains just this name |
| `Outbound.BuildQuery` | backend/server.js:20-25 | the upstream query string has unique names: `api_key` plus exactly the parameters whose value is defined. Each name reads back as the last defined value given for it, and `api_key` otherwise reads as the credential |
| `Outbound.ErrorMessage` | backend/server.js:28-30 | the error message starts with `NASA API error: `; the rest is decimal digits with no leading zero and parses back to the status |
| `Outbound.RateLimitMessage` | backend/server.js:29 | status 429 gives exactly `NASA API error: 429` |
| `Outbound.Fetch` | backend/server.js:27-31 | the client succeeds exactly on a 2xx status and returns the body; a non-ok status throws `NASA API error: <status>`; a thrown error passes through with its message |
| `Store.Stored` | backend/server.js:100 | a stored entry holds the given value and expires exactly `ttl * 1000` ms after it was written, for the positive TTLs the server uses |
| `Store.LiveAfterStore` | backend/server.js:43-47 | a stored value is returned unchanged until its TTL has run out, and never afterwards |
| `Store.StoreLeavesOthers` | backend/server.js:47 | storing one key changes nothing any other key returns |
| `Store.Cache.constructor` | backend/server.js:14 | the cache starts empty |
| `Store.Cache.Get` | backend/server.js:43 | `cache.get` returns what `Live` gives: the stored value only while the entry exists and has not expired |
| `Store.Cache.Set` | backend/server.js:47 | `cache.set` replaces only this key's entry, with expiry `now + ttl * 1000` where `now` is the clock when it runs |
| `Proxy.PlanFor` | backend/server.js:42-100 | a request has no plan exactly when it is a range request without both dates; random entries live 300 s and all others 3600 s. Its keys are stated by `PlanKeys` and `RandomPlanWindow`, its parameters by `ForwardedParameters` |
| `Proxy.PlanKeys` | backend/server.js:42-77 | two date requests share a cache entry exactly when their dates are equal; the date `today` shares the today route's entry; a range request's key is `RangeKey` of its start and end |
| `Proxy.Serve` | backend/server.js:43-53 | a request is answered 400 exactly when it has no plan, and the service is asked exactly when the plan's key misses. Hits, successes and failures are stated by `HitServesStored`, `MissStoresReply`, `FailureNotCached` |
| `Proxy.Handle` | backend/server.js:35-107 | the handler's response and new cache state are those of `Serve`. The service is called exactly when `Serve` forwards; the query string sent has unique names and carries what `Sent` prescribes for the forwarded parameters |
| `Proxy.MissingDatesRejected` | backend/server.js:37-40 | a range request whose start or end is missing or empty gets 400 `start and end dates required`. The cache is unchanged and the service is not called |
| `Proxy.EmptyDateIsMissing` | backend/server.js:38 | an empty `start` or `end` is falsy and gets the same 400 as a missing one |
| `Proxy.HitServesStored` | backend/server.js:43-50 | on a live entry the stored body comes back with 200. The service is not called and the cache is unchanged |
| `Proxy.MissStoresReply` | backend/server.js:45-50 | on a miss with an ok reply the body comes back with 200 and the service got the route's parameters. The body is stored under exactly the request's key, expiring the route's lifetime after the moment it was written, and every other entry is unchanged |
| `Proxy.FailureNotCached` | backend/server.js:51-53 | on a miss with a non-ok status or a thrown error the response is 500 with the thrown message. For a status the message is `NASA API error: <status>`, whose digits give the status back. The cache is unchanged |
| `Proxy.ServeChangesOnlyItsKey` | backend/server.js:43-53 | a request changes no entry but its own key, and changes nothing unless it answers 200 |
| `Proxy.ForwardedParameters` | backend/server.js:46-99 | upstream always receives `api_key`. Today adds nothing, a date adds `date`, a range adds `start_date`/`end_date` and random adds a `count` of at most 20 |
| `Proxy.RandomPlanWindow` | backend/server.js:94-100 | two random requests get the same key, lifetime and parameters exactly when their counts normalise alike and they fall in one 100-second window |
| `Proxy.RepeatServedFromCache` | backend/server.js:60-67 | after a miss that stored an ok reply, the same plan asked again within its lifetime of the write is answered from the cache with the same response and no second upstream call |
| `Proxy.SameDateOneCall` | backend/server.js:78-85 | two requests for one date, the second within an hour of the first one's reply being stored, make one upstream call |
| `Proxy.LargeCountClamped` | backend/server.js:94-99 | `count=999` gets the same plan as `count=20` and sends `count=20` upstream |
| `Routes.FirstMatch` | backend/server.js:34-35 | the chosen route matches the path, and no route registered before it does |
| `Routes.Resolve` | backend/server.js:34-35 | a path gets no handler exactly when no route matches; otherwise it gets the handler of a matching route with no matching route registered before it |
| `Routes.Dispatch` | backend/server.js:57-92 | `/api/apod` gives today and `/api/random` gives random with the parsed count; picture requests come only from `/api/...` paths; the date handler gets the third segment, never `range`; the range handler gets the request's `start` and `end` |
| `Routes.RangeIsNotADate` | backend/server.js:34-35 | `/api/apod/range` reaches the range handler, although the `:date` pattern also matches it |
| `Routes.DateRoute` | backend/server.js:74 | a non-empty segment under `/api/apod/` reaches the date handler exactly when it is not `range` |
| `Routes.OrderMatters` | backend/server.js:34 | with the range route registered after `:date`, `range` would be taken as a date |
| `Routes.RandomUnderApodIsADate` | backend/server.js:91-92 | `/api/apod/random` reaches the date handler with the date `random` |

## Left out

- The cache library's `maxKeys: 100` bound, including what it does when the cache is full. Also its `checkperiod` background purge and the statistics behind `/api/health`. That library is not part of this model. `Store.Cache.Set` always succeeds, and the health route is only routed, not handled.
- Purging an expired entry when it is read. `Store.Cache.Get` leaves expired entries in the map. What any lookup returns is the same either way.
- The exact expiry boundary is an assumption: an entry is served while `now < expiresAt`.
- Store.Stored: a TTL of 0, which the cache library treats as "never expires", is not modelled. `Stored`, `Cache.Set` and `LiveAfterStore` require a positive TTL; the server only passes 3600 and 300.
- The `Date.now()` that forms the random key and the clock `cache.get` reads are one reading (`nowMs`); they run in the same synchronous step. The write after the upstream call has its own reading (`storedMs`), which the model does not require to be later.
- Network I/O, `response.json()`, URL encoding of the query string, the base URL, `dotenv` configuration, CORS and JSON middleware, and `app.listen`. The service's answer is a parameter of `Serve` and `Handle`, and the credential is the `apiKey` parameter.
- Concurrency. Each request is one sequential step. Two concurrent misses on one key may both call the service, and the last write wins; this is not modelled.
- `parseInt`'s string semantics. The caller supplies its result as `Option<int>`, None standing for NaN. Numbers beyond JavaScript's safe-integer range, and the exponent notation `toString()` uses from 1e21 up, are not modelled: integers are unbounded here.
- Payloads that are falsy in JavaScript. A stored body is an opaque non-empty JSON text, so hit or miss depends only on the cache.
- Express details: case-insensitive matching, trailing slashes, percent-decoding of path segments, repeated query parameters (which Express turns into arrays), and HTTP methods other than GET.
- The React front end (`frontend/src/App.jsx`). It only renders what these routes return.
