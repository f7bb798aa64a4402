# weather-alert-service: rate limiter and upstream client, in Dafny

This project models the two stateful parts of the weather-alert-service HTTP
edge service and proves properties about them:

- **The per-key rate limiter** (`rate_limit.py`). It keeps an expiring map
  from client key to a request count, with the window length as its TTL. Each
  `allow_request(key)` reads the live count (0 if the key is absent or
  expired) and writes back count + 1. It admits the request iff the new count
  is at most `RATE_LIMIT_REQUESTS`, and it bumps either the allowed counter or
  the blocked counter. `retry_after_seconds` always returns the window length.
- **The cache-then-fetch upstream client** (`get_weather` in
  `weather_client.py`). It checks the API key first. It then looks up the
  lower-cased location in a cache with a 300-second TTL and at most 100
  entries, counting a hit or a miss. On a miss it makes at most two upstream
  attempts. A response of 500 or more is retried, and so are a timeout and
  any other request exception, but only after the first attempt. Each attempt
  records one latency observation and one labelled request count. A final
  status other than 200 fails. A 200 body is projected into a four-field
  record, stored in the cache and returned.

Files:

- `Wrappers.dfy`: `Option` and `Result`.
- `ExpiringMap.dfy`: the TTL map both components use (cachetools `TTLCache`).
  An entry is a value plus the time of its last write. It is visible while
  `now - written < ttl`, and every write refreshes the write time. A write
  first drops the expired entries. If the key is new and the store is still
  full, it then evicts one live entry. That entry is a parameter of the
  specification (`victim`), and the methods choose one.
- `RateLimit.dfy`: the limiter's state as a value (`Limiter`), one call as a
  function (`Step`), and runs of calls (`Run`). The class `RateLimiter` holds
  the map and the counters as fields and updates them in place.
  `RateLimiter.Allow` is proved to move its state exactly as `Step` does.
- `Upstream.dfy`: the stateless parts of `get_weather`. These are the case
  folding of the cache key, the metric labels (`str(status)`, `"timeout"`,
  `"request_exception"`), the retry loop as a function of the attempt
  outcomes (`RetryLoop`), and the projection of the JSON body.
- `WeatherClient.dfy`: the client's state as a value (`Client`) and one
  `get_weather` call as a function (`Fetch`). The class `WeatherService`
  holds the cache and the metrics as fields. Its `CallUpstream` method runs
  the retry loop, and its `GetWeather` method is proved to move its state
  exactly as `Fetch` does.

Behaviour of the code worth knowing, modelled as written:

- `get_weather` checks the API key before it looks at the cache
  (weather_client.py:58-60). So a missing or empty key fails even for a
  location that is cached, and it changes no counter
  (`WeatherClient.MissingKeyChangesNothing`).
- Every call to `allow_request` rewrites the key's entry, blocked calls
  included, and so restarts its TTL. The window therefore ends `W` seconds
  after the key's last call, not `W` seconds after its first call. A client
  whose calls on a key each come less than `W` seconds after the previous one
  stays blocked once it passes the limit, unless the key's entry is evicted
  from a full store. A call exactly `W` seconds after the previous one finds
  the entry expired and starts again at 1. `RateLimit.Burst` states this for
  bursts of any length.
- A 200 body that is not JSON, or lacks one of the four fields, raises
  Python's own `ValueError`, `KeyError`, `IndexError` or `TypeError`, not
  `WeatherClientError`. The model returns `MalformedPayload` for all of these.
  No cache write happens in that case.

Time is an integer number of seconds. The transport is a sequence of attempt
outcomes: `Status(code, body)`, `Timeout` or `NetErr(detail)`. Attempt i
gets the i-th outcome. `GetWeather` and `Fetch` require at least two
outcomes, because the loop never asks for more than two. The API key is a
parameter of type `Option<string>`.

## Model

| member | source | states |
|---|---|---|
| `ExpiringMap.Get` | rate_limit.py:31 | a key reads as present iff it is stored and was written less than `ttl` seconds ago, and then with its stored value |
| `ExpiringMap.Purge` | rate_limit.py:12 | the purged store keeps exactly the stored entries that are still live, unchanged |
| `ExpiringMap.Put` | rate_limit.py:32 | after a write the key holds the new value stamped `now`; every other entry left was live and is unchanged; without eviction every live entry survives |
| `ExpiringMap.VictimExists` | weather_client.py:144 | a write always has an admissible entry to evict |
| `ExpiringMap.ChooseVictim` | rate_limit.py:12 | when a write of a new key finds the store full, the entry chosen for eviction is a live one |
| `ExpiringMap.PurgeInvisible` | rate_limit.py:12 | dropping expired entries on a write changes nothing that a reader sees, at that time or later |
| `ExpiringMap.PutGet` | weather_client.py:22 | a stored value reads back for `ttl` seconds after the write and is absent from then on |
| `ExpiringMap.PutOthers` | rate_limit.py:32 | writing one key leaves every other key's visible value unchanged, now and later, unless that key was evicted from a full store |
| `ExpiringMap.PutEvictsOnlyVictim` | weather_client.py:22 | the only visible entry a write can remove is the evicted one, and only when the store was full |
| `ExpiringMap.PutBounded` | rate_limit.py:12 | a write keeps the store within `maxsize` |
| `RateLimit.Step` | rate_limit.py:25-39 | a call is admitted iff the key's live count plus one is at most `RATE_LIMIT_REQUESTS`, and exactly one of the allowed and blocked counters goes up by one, the allowed one iff the call is admitted |
| `RateLimit.Run` | rate_limit.py:25-39 | over any run of calls there is one answer per call, allowed + blocked grows by exactly the number of calls, and neither counter decreases |
| `RateLimit.StepStoresCount` | rate_limit.py:31-32 | a call stores the key's previous live count (0 if absent or expired) plus one, stamped with the call's time |
| `RateLimit.StepOtherKeys` | rate_limit.py:31-32 | a call leaves every other key's visible count unchanged, now and later, unless that key was evicted from a full store |
| `RateLimit.ExpiredRestarts` | rate_limit.py:11-12 | a call on an absent key, or on one whose last write is at least a window old, stores count 1 and is admitted iff the limit is at least 1 |
| `RateLimit.StepBounded` | rate_limit.py:12 | the counter store never holds more than 10000 keys |
| `RateLimit.BlockedStaysBlocked` | rate_limit.py:31-39 | a blocked call still raises the count, so the next call on that key within the window is blocked too |
| `RateLimit.Burst` | rate_limit.py:25-39 | in a burst of calls on one key, each less than a window after the previous, starting from live count `start`, the i-th call (from 0) is admitted iff start + i + 1 is at most the limit |
| `RateLimit.FirstAdmittedLastBlocked` | rate_limit.py:31-39 | with a limit N >= 1, the first call on an absent or expired key is admitted and the (N+1)-th consecutive call is blocked |
| `RateLimit.RateLimiter.constructor` | rate_limit.py:8-22 | the limiter starts with an empty counter store, zero counters, and the given limit and window |
| `RateLimit.RateLimiter.Allow` | rate_limit.py:25-39 | the new store, counters and answer are those of `Step` for some admissible eviction; the store stays within capacity; allowed + blocked equals the number of calls |
| `RateLimit.RateLimiter.RetryAfterSeconds` | rate_limit.py:42-47 | returns the window length for every key and changes nothing |
| `Upstream.Lower` | weather_client.py:65 | the cache key has the location's length and folds each character on its own |
| `Upstream.CacheKeyIgnoresCase` | weather_client.py:65 | two locations get the same cache key iff they differ only in the case of their letters |
| `Upstream.LowerIdempotent` | weather_client.py:65 | a cache key folds to itself |
| `Upstream.Digits` | weather_client.py:95-97 | the decimal rendering of a status code is non-empty and all digits |
| `Upstream.Decimal` | weather_client.py:95-97 | `str(code)` is non-empty, starts with `-` iff the code is negative, and is digits after that |
| `Upstream.DigitsRoundTrip` | weather_client.py:95-97 | reading the decimal digits of a number back gives the number |
| `Upstream.DecimalInjective` | weather_client.py:95-97 | different status codes are counted under different labels |
| `Upstream.Label` | weather_client.py:93-122 | an attempt's label is non-empty, and it starts with a digit or a sign iff a response arrived |
| `Upstream.LabelsDistinct` | weather_client.py:93-122 | a response, a timeout and another request exception never share a label |
| `Upstream.Bump` | weather_client.py:95-97 | `labels(status=name).inc()` adds one to that label's count and leaves every other label's count as it was |
| `Upstream.TallyCounts` | weather_client.py:93-122 | after the attempts are counted, each label's count has grown by the number of attempts with that label, and by nothing else |
| `Upstream.TallyAppend` | weather_client.py:95-97 | counting one more attempt adds one under its label on top of the earlier counts |
| `Upstream.RetryLoop` | weather_client.py:80-128 | the loop makes one or two attempts; every attempt but the last was retryable (5xx, timeout or other exception, with an attempt left); the last was not; the loop ends with the last response or with the error of the last exception |
| `Upstream.SecondAttemptOnlyAfterRetry` | weather_client.py:99-104 | a second attempt happens iff the first is retryable, and a first response below 500 ends the loop after one attempt |
| `Upstream.RaisedOnlyOnLastAttempt` | weather_client.py:106-128 | a timeout or request exception is raised only when it happens on the second attempt |
| `Upstream.Project` | weather_client.py:135-142 | a projected record holds exactly the values at `main.temp`, `weather[0].description`, `main.humidity` and `wind.speed` of the body's JSON object |
| `Upstream.ProjectFinds` | weather_client.py:135-142 | any body whose JSON object has those four values, whatever other members it holds, projects to exactly that record |
| `Upstream.ProjectRender` | weather_client.py:135-142 | a body of the documented upstream shape projects back to the record it was built from |
| `WeatherClient.Fetch` | weather_client.py:56-146 | the call fails with the missing-key error iff the API key is absent or empty, and every call with a key counts exactly one cache hit or miss |
| `WeatherClient.MissingKeyChangesNothing` | weather_client.py:58-60 | a missing or empty API key fails, and cache, hit and miss counters and upstream metrics stay unchanged, even for a cached location |
| `WeatherClient.HitServesCache` | weather_client.py:68-70 | a live cache entry is returned, with one more hit, no miss and no upstream attempt |
| `WeatherClient.MissAccounting` | weather_client.py:72-128 | a miss adds one miss and one or two attempts; each attempt adds one latency observation and one count under its own label; two attempts iff the first was retryable |
| `WeatherClient.FailureKeepsCache` | weather_client.py:106-133 | a failed call never writes the cache |
| `WeatherClient.SuccessOnMissIsCached` | weather_client.py:130-146 | a result fetched on a miss comes from a final 200 response whose body projects to it, and it reads back from the cache under the folded location for 300 seconds |
| `WeatherClient.FinalOkIsStored` | weather_client.py:130-146 | on a miss, a final 200 whose body projects to a record returns that record and stores it in the cache under the folded location |
| `WeatherClient.TransportErrorFails` | weather_client.py:106-128 | on a miss, a timeout on the last attempt fails with the timeout error and any other request exception there fails with its detail, with the cache unchanged |
| `WeatherClient.BadStatusFails` | weather_client.py:130-133 | a final status other than 200 fails with that status and the body text |
| `WeatherClient.ServerErrorThenSuccess` | weather_client.py:93-146 | a 503 then a 200 gives two attempts, labels "503" and "200", one cache write and the projected result |
| `WeatherClient.TwoTimeoutsFail` | weather_client.py:106-115 | two timeouts fail with the timeout error after two attempts, both counted as "timeout", with no cache write |
| `WeatherClient.ClientErrorNotRetried` | weather_client.py:99-133 | a first response below 500 other than 200 (a 404, say) fails after one attempt, with no cache write |
| `WeatherClient.CaseVariantHits` | weather_client.py:64-70 | after a location is fetched on a miss, any spelling that differs only in case is served from the cache for 300 seconds |
| `WeatherClient.OtherLocationsUnchanged` | weather_client.py:144 | storing a result leaves every other cache key's visible value unchanged, unless it was evicted from a full cache |
| `WeatherClient.CacheBounded` | weather_client.py:22 | the cache never holds more than 100 entries |
| `WeatherClient.WeatherService.constructor` | weather_client.py:22-49 | the service starts with an empty cache and zero counters |
| `WeatherClient.WeatherService.CallUpstream` | weather_client.py:80-128 | the loop's attempt count and ending are those of `RetryLoop`; the labelled counter grows by one per attempt made, and so does the latency observation count |
| `WeatherClient.WeatherService.GetWeather` | weather_client.py:56-146 | the new cache, counters and result are those of `Fetch` for some eviction choice, and the cache stays within 100 entries |

## Left out

- The HTTP transport (`requests.get`), decoding the body text into JSON, and reading the environment and `.env` are not modelled. The transport is a sequence of outcomes, the decoded document is part of a `Body`, and the API key is a parameter.
- `WEATHER_TIMEOUT_SECONDS`, the query parameters and `BASE_URL` only feed the transport, so they are left out. A malformed timeout value, which would raise `ValueError`, is left out too.
- Latency values, `time.perf_counter` and the histogram buckets are floating-point. Only the number of latency observations is modelled.
- `time.sleep(0.2)` between attempts is a no-op in the model.
- Exception message text is not built. Each error constructor carries the parts its message is made from.
- Exceptions from `requests.get` that are not `requests.RequestException` would propagate unclassified. They are not modelled.
- cachetools picks the least recently used entry to evict. The model lets eviction remove any live entry, and proves its properties for every such choice.
- WeatherClient.Fetch: the cache write is stamped with the time of the lookup, and expired entries are purged and eviction decided at that time. The source writes at weather_client.py:144 only after up to two attempts, each bounded by the request timeout (5 s by default), with a 0.2 s sleep between them. So the stored entry lives until its write time plus 300 s, later than the model's `now + 300`.
- The cache holds the very dict that `get_weather` returns, and a hit returns that same dict (weather_client.py:70 and 144-146). A caller that mutates a returned result changes what later hits return. `Weather` is an immutable value in the model, so this aliasing is not modelled.
- Times are integers. The source uses a floating-point monotonic clock. Each call uses one time, so the tiny gap between `cache_key in cache` and `cache[cache_key]`, in which an entry could expire, is not modelled.
- `Upstream.Lower` folds only ASCII letters. Python's `str.lower` also folds other Unicode letters.
- Concurrency is not modelled. The source's get-then-set on the counter store (rate_limit.py:31-32) is not atomic, and concurrent calls for one key can lose updates. The model runs calls one at a time.
- Prometheus internals are not modelled. The counters are plain numbers, and the labelled counter is a map from label to count.
- Reading `RATE_LIMIT_REQUESTS` and `RATE_LIMIT_WINDOW_SECONDS` from the environment is not modelled. They are constructor parameters; the defaults 30 and 60 are constants.
- `observability.py`, `main.py` and `logging_setup.py` are middleware, routing and logging setup, outside the two components. `main.py` declares no `/weather` route and does no 429 or 502 translation, so that mapping is not modelled.
