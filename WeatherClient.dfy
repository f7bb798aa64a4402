/**
 * `get_weather` (weather_client.py) with the state it changes: the response
 * cache (300 s time-to-live, at most 100 entries), the cache hit and miss
 * counters, the upstream request counter labelled by outcome and the number
 * of upstream latency observations. The transport is a sequence of outcomes,
 * attempt i getting the i-th; the API key is a parameter.
 */
module WeatherClient {
  import opened Wrappers
  import opened ExpiringMap
  import opened Upstream

  /** `TTLCache(maxsize=100, ttl=300)`. */
  const CacheTtl := 300
  const CacheCapacity: nat := 100

  /** Everything `get_weather` reads or changes besides its arguments. */
  datatype Client = Client(
    cache: Store<Weather>,
    hits: nat,
    misses: nat,
    requests: map<string, nat>,  // weather_upstream_requests_total, by label
    latencies: nat               // observations of weather_upstream_latency_seconds
  )

  /** `if not api_key`: an absent or empty key is refused. */
  predicate HasApiKey(apiKey: Option<string>) {
    apiKey.Some? && apiKey.value != ""
  }

  /**
   * `get_weather(location)` at time `now` with the transport answering
   * `outcomes`, evicting `victim` if the cache is full when the result is
   * stored: the new state and the result or the error raised.
   */
  function Fetch(c: Client, apiKey: Option<string>, location: string, now: int, outcomes: seq<Outcome>, victim: string)
    : (r: (Client, Result<Weather, WeatherError>))
    requires MaxAttempts <= |outcomes|
    ensures r.1 == Failure(MissingApiKey) <==> !HasApiKey(apiKey)
    ensures r.0.hits + r.0.misses == c.hits + c.misses + (if HasApiKey(apiKey) then 1 else 0)
  {
    if !HasApiKey(apiKey) then (c, Failure(MissingApiKey))
    else
      var key := Lower(location);
      match Get(c.cache, key, now, CacheTtl)
      case Some(w) => (c.(hits := c.hits + 1), Success(w))
      case None =>
        var (n, end) := RetryLoop(outcomes, 0);
        var c' := c.(misses := c.misses + 1, requests := Tally(c.requests, outcomes[..n]), latencies := c.latencies + n);
        match end
        case Raised(e) => (c', Failure(e))
        case Response(code, body) =>
          if code != 200 then (c', Failure(BadStatus(code, body.text)))
          else match Project(body)
            case None => (c', Failure(MalformedPayload))
            case Some(w) => (c'.(cache := Put(c.cache, key, w, now, CacheTtl, CacheCapacity, victim)), Success(w))
  }

  /** A missing or empty API key fails before the cache is looked at: nothing changes, even for a cached location. */
  lemma MissingKeyChangesNothing(c: Client, apiKey: Option<string>, location: string, now: int, outcomes: seq<Outcome>, victim: string)
    requires MaxAttempts <= |outcomes| && !HasApiKey(apiKey)
    ensures Fetch(c, apiKey, location, now, outcomes, victim) == (c, Failure(MissingApiKey))
  {
  }

  /** A live cache entry is returned with one more hit and no upstream attempt. */
  lemma HitServesCache(c: Client, apiKey: Option<string>, location: string, now: int, outcomes: seq<Outcome>, victim: string, w: Weather)
    requires MaxAttempts <= |outcomes| && HasApiKey(apiKey)
    requires Get(c.cache, Lower(location), now, CacheTtl) == Some(w)
    ensures var (c', r) := Fetch(c, apiKey, location, now, outcomes, victim);
      && r == Success(w)
      && c'.hits == c.hits + 1 && c'.misses == c.misses
      && c'.cache == c.cache && c'.requests == c.requests && c'.latencies == c.latencies
  {
  }

  /**
   * On a miss: one more miss, one or two attempts, each with one latency
   * observation and one increment under its own label, and a retry only after
   * a retried first attempt.
   */
  lemma MissAccounting(c: Client, apiKey: Option<string>, location: string, now: int, outcomes: seq<Outcome>, victim: string, name: string)
    requires MaxAttempts <= |outcomes| && HasApiKey(apiKey)
    requires Get(c.cache, Lower(location), now, CacheTtl) == None
    ensures var (c', r) := Fetch(c, apiKey, location, now, outcomes, victim);
      var n := c'.latencies - c.latencies;
      && 1 <= n <= MaxAttempts
      && c'.misses == c.misses + 1 && c'.hits == c.hits
      && CountOf(c'.requests, name) == CountOf(c.requests, name) + Occurrences(outcomes[..n], name)
      && (n == 2 <==> Retried(outcomes[0], 0))
  {
    var n := RetryLoop(outcomes, 0).0;
    TallyCounts(c.requests, outcomes[..n], name);
  }

  /** A failed call never writes the cache. */
  lemma FailureKeepsCache(c: Client, apiKey: Option<string>, location: string, now: int, outcomes: seq<Outcome>, victim: string)
    requires MaxAttempts <= |outcomes|
    requires Fetch(c, apiKey, location, now, outcomes, victim).1.Failure?
    ensures Fetch(c, apiKey, location, now, outcomes, victim).0.cache == c.cache
  {
  }

  /**
   * A result fetched on a miss came from a final 200 response whose body
   * projects to it, and reads back from the cache under the folded location
   * for the next 300 seconds.
   */
  lemma SuccessOnMissIsCached(c: Client, apiKey: Option<string>, location: string, now: int, outcomes: seq<Outcome>, victim: string, w: Weather, t: int)
    requires MaxAttempts <= |outcomes|
    requires Get(c.cache, Lower(location), now, CacheTtl) == None
    requires Fetch(c, apiKey, location, now, outcomes, victim).1 == Success(w)
    requires now <= t < now + CacheTtl
    ensures var n := RetryLoop(outcomes, 0).0;
      outcomes[n - 1].Status? && outcomes[n - 1].code == 200 && Project(outcomes[n - 1].body) == Some(w)
    ensures Get(Fetch(c, apiKey, location, now, outcomes, victim).0.cache, Lower(location), t, CacheTtl) == Some(w)
  {
  }

  /**
   * On a miss, a final 200 whose body projects to a record returns that record
   * and stores it under the folded location, stamped `now`.
   */
  lemma FinalOkIsStored(c: Client, apiKey: Option<string>, location: string, now: int, outcomes: seq<Outcome>, victim: string, body: Body, w: Weather)
    requires MaxAttempts <= |outcomes| && HasApiKey(apiKey)
    requires Get(c.cache, Lower(location), now, CacheTtl) == None
    requires RetryLoop(outcomes, 0).1 == Response(200, body) && Project(body) == Some(w)
    ensures var (c', r) := Fetch(c, apiKey, location, now, outcomes, victim);
      && r == Success(w)
      && c'.cache == Put(c.cache, Lower(location), w, now, CacheTtl, CacheCapacity, victim)
  {
  }

  /**
   * On a miss, a timeout on the last attempt fails with the timeout error, and
   * any other request exception there fails with its detail; the cache is
   * left as it was.
   */
  lemma TransportErrorFails(c: Client, apiKey: Option<string>, location: string, now: int, outcomes: seq<Outcome>, victim: string)
    requires MaxAttempts <= |outcomes| && HasApiKey(apiKey)
    requires Get(c.cache, Lower(location), now, CacheTtl) == None
    requires var n := RetryLoop(outcomes, 0).0; !outcomes[n - 1].Status?
    ensures var n := RetryLoop(outcomes, 0).0;
      var (c', r) := Fetch(c, apiKey, location, now, outcomes, victim);
      && r == Failure(if outcomes[n - 1].Timeout? then UpstreamTimeout else RequestFailed(outcomes[n - 1].detail))
      && c'.cache == c.cache
  {
  }

  /** A final status other than 200 fails with that status and the body text, after one or two attempts. */
  lemma BadStatusFails(c: Client, apiKey: Option<string>, location: string, now: int, outcomes: seq<Outcome>, victim: string)
    requires MaxAttempts <= |outcomes| && HasApiKey(apiKey)
    requires Get(c.cache, Lower(location), now, CacheTtl) == None
    requires var n := RetryLoop(outcomes, 0).0; outcomes[n - 1].Status? && outcomes[n - 1].code != 200
    ensures var n := RetryLoop(outcomes, 0).0;
      Fetch(c, apiKey, location, now, outcomes, victim).1 == Failure(BadStatus(outcomes[n - 1].code, outcomes[n - 1].body.text))
  {
  }

  /** A 503 and then a 200: two attempts, one cache write, and the projected result. */
  lemma ServerErrorThenSuccess(c: Client, apiKey: Option<string>, location: string, now: int, b1: Body, b2: Body, victim: string, w: Weather)
    requires HasApiKey(apiKey) && Get(c.cache, Lower(location), now, CacheTtl) == None
    requires Project(b2) == Some(w)
    ensures var (c', r) := Fetch(c, apiKey, location, now, [Status(503, b1), Status(200, b2)], victim);
      && r == Success(w)
      && c'.latencies == c.latencies + 2
      && c'.requests == Bump(Bump(c.requests, "503"), "200")
      && c'.cache == Put(c.cache, Lower(location), w, now, CacheTtl, CacheCapacity, victim)
  {
    var outcomes := [Status(503, b1), Status(200, b2)];
    assert RetryLoop(outcomes, 0) == (2, Response(200, b2));
    assert outcomes[..2] == outcomes == [outcomes[0]] + [outcomes[1]] && [outcomes[0]] == [] + [outcomes[0]];
    TallyAppend(c.requests, [], outcomes[0]);
    TallyAppend(c.requests, [outcomes[0]], outcomes[1]);
    Decimal503And200();
  }

  lemma Decimal503And200()
    ensures Decimal(503) == "503" && Decimal(200) == "200"
  {
  }

  /** Two timeouts: failure after exactly two attempts, both counted as "timeout", and no cache write. */
  lemma TwoTimeoutsFail(c: Client, apiKey: Option<string>, location: string, now: int, victim: string)
    requires HasApiKey(apiKey) && Get(c.cache, Lower(location), now, CacheTtl) == None
    ensures var (c', r) := Fetch(c, apiKey, location, now, [Timeout, Timeout], victim);
      && r == Failure(UpstreamTimeout)
      && c'.latencies == c.latencies + 2
      && CountOf(c'.requests, "timeout") == CountOf(c.requests, "timeout") + 2
      && c'.cache == c.cache
  {
    var outcomes := [Timeout, Timeout];
    assert outcomes[..2] == outcomes;
    TallyCounts(c.requests, outcomes, "timeout");
  }

  /** A first response below 500 (a 404, say) is not retried: one attempt, and failure unless it is a 200. */
  lemma ClientErrorNotRetried(c: Client, apiKey: Option<string>, location: string, now: int, outcomes: seq<Outcome>, victim: string, code: int, body: Body)
    requires MaxAttempts <= |outcomes| && HasApiKey(apiKey)
    requires Get(c.cache, Lower(location), now, CacheTtl) == None
    requires outcomes[0] == Status(code, body) && code < 500 && code != 200
    ensures var (c', r) := Fetch(c, apiKey, location, now, outcomes, victim);
      && r == Failure(BadStatus(code, body.text))
      && c'.latencies == c.latencies + 1
      && c'.requests == Bump(c.requests, Decimal(code))
      && c'.cache == c.cache
  {
    assert outcomes[..1] == [] + [outcomes[0]];
    TallyAppend(c.requests, [], outcomes[0]);
  }

  /**
   * After a location was fetched on a miss, any spelling of it that differs
   * only in letter case is served from the cache for the next 300 seconds.
   */
  lemma CaseVariantHits(c: Client, apiKey: Option<string>, a: string, now: int, outcomes: seq<Outcome>, victim: string, w: Weather,
                        apiKey': Option<string>, b: string, later: int, outcomes': seq<Outcome>, victim': string)
    requires MaxAttempts <= |outcomes| && MaxAttempts <= |outcomes'|
    requires Get(c.cache, Lower(a), now, CacheTtl) == None
    requires Fetch(c, apiKey, a, now, outcomes, victim).1 == Success(w)
    requires HasApiKey(apiKey') && SameIgnoringCase(a, b) && now <= later < now + CacheTtl
    ensures var c1 := Fetch(c, apiKey, a, now, outcomes, victim).0;
      Fetch(c1, apiKey', b, later, outcomes', victim') == (c1.(hits := c1.hits + 1), Success(w))
  {
    CacheKeyIgnoresCase(a, b);
    SuccessOnMissIsCached(c, apiKey, a, now, outcomes, victim, w, later);
  }

  /** Storing a result leaves every other cache key as readers see it, unless it was evicted from a full cache. */
  lemma OtherLocationsUnchanged(c: Client, apiKey: Option<string>, location: string, now: int, outcomes: seq<Outcome>, victim: string, other: string, t: int)
    requires MaxAttempts <= |outcomes| && now <= t
    requires other != Lower(location)
    requires !NeedsEviction(c.cache, Lower(location), now, CacheTtl, CacheCapacity) || victim != other
    ensures Get(Fetch(c, apiKey, location, now, outcomes, victim).0.cache, other, t, CacheTtl) == Get(c.cache, other, t, CacheTtl)
  {
  }

  /** The cache never holds more than 100 entries. */
  lemma CacheBounded(c: Client, apiKey: Option<string>, location: string, now: int, outcomes: seq<Outcome>, victim: string)
    requires MaxAttempts <= |outcomes| && |c.cache| <= CacheCapacity
    requires ValidVictim(c.cache, Lower(location), now, CacheTtl, CacheCapacity, victim)
    ensures |Fetch(c, apiKey, location, now, outcomes, victim).0.cache| <= CacheCapacity
  {
    var r := Fetch(c, apiKey, location, now, outcomes, victim);
    if r.1.Success? {
      PutBounded(c.cache, Lower(location), r.1.value, now, CacheTtl, CacheCapacity, victim);
    }
  }

  /** The module-level cache and metrics of weather_client.py, updated in place by `get_weather`. */
  class WeatherService {
    var cache: Store<Weather>
    var hits: nat
    var misses: nat
    var upstreamRequests: map<string, nat>
    var latencyObservations: nat

    ghost predicate Valid()
      reads this
    {
      |cache| <= CacheCapacity
    }

    function State(): Client
      reads this
    {
      Client(cache, hits, misses, upstreamRequests, latencyObservations)
    }

    constructor ()
      ensures Valid() && State() == Client(map[], 0, 0, map[], 0)
    {
      cache := map[];
      hits, misses := 0, 0;
      upstreamRequests := map[];
      latencyObservations := 0;
    }

    /**
     * The retry loop of `get_weather`: attempt i gets `transport[i]`, and each
     * attempt records one latency observation and one labelled request.
     */
    method CallUpstream(transport: seq<Outcome>) returns (made: nat, end: LoopEnd)
      requires MaxAttempts <= |transport|
      modifies this`upstreamRequests, this`latencyObservations
      ensures (made, end) == RetryLoop(transport, 0)
      ensures upstreamRequests == Tally(old(upstreamRequests), transport[..made])
      ensures latencyObservations == old(latencyObservations) + made
    {
      var attempt: nat := 0;
      while attempt < MaxAttempts
        invariant attempt <= MaxAttempts
        invariant forall j :: 0 <= j < attempt ==> Retried(transport[j], j)
        invariant attempt < MaxAttempts ==> RetryLoop(transport, attempt) == RetryLoop(transport, 0)
        invariant upstreamRequests == Tally(old(upstreamRequests), transport[..attempt])
        invariant latencyObservations == old(latencyObservations) + attempt
        decreases MaxAttempts - attempt
      {
        var outcome := transport[attempt];
        latencyObservations := latencyObservations + 1;
        upstreamRequests := Bump(upstreamRequests, Label(outcome));
        TallyAppend(old(upstreamRequests), transport[..attempt], outcome);
        assert transport[..attempt + 1] == transport[..attempt] + [outcome];
        match outcome {
          case Status(code, body) =>
            if code >= 500 && attempt < MaxAttempts - 1 {
              attempt := attempt + 1;
              continue;
            }
            return attempt + 1, Response(code, body);
          case Timeout =>
            if attempt < MaxAttempts - 1 {
              attempt := attempt + 1;
              continue;
            }
            return attempt + 1, Raised(UpstreamTimeout);
          case NetErr(detail) =>
            if attempt < MaxAttempts - 1 {
              attempt := attempt + 1;
              continue;
            }
            return attempt + 1, Raised(RequestFailed(detail));
        }
      }
      assert false;
    }

    /** `get_weather(location)` at time `now`; attempt i of the transport answers `transport[i]`. */
    method GetWeather(apiKey: Option<string>, location: string, now: int, transport: seq<Outcome>)
      returns (r: Result<Weather, WeatherError>)
      requires Valid() && MaxAttempts <= |transport|
      modifies this
      ensures Valid()
      ensures exists victim ::
                && ValidVictim(old(cache), Lower(location), now, CacheTtl, CacheCapacity, victim)
                && (State(), r) == Fetch(old(State()), apiKey, location, now, transport, victim)
    {
      // The eviction choice of every path that does not write the cache.
      VictimExists(cache, Lower(location), now, CacheTtl, CacheCapacity);
      ghost var anyVictim :| ValidVictim(cache, Lower(location), now, CacheTtl, CacheCapacity, anyVictim);

      if !HasApiKey(apiKey) {
        r := Failure(MissingApiKey);
        assert (State(), r) == Fetch(old(State()), apiKey, location, now, transport, anyVictim);
        return;
      }

      var key := Lower(location);
      var cached := Get(cache, key, now, CacheTtl);
      if cached.Some? {
        hits := hits + 1;
        r := Success(cached.value);
        assert (State(), r) == Fetch(old(State()), apiKey, location, now, transport, anyVictim);
        return;
      }
      misses := misses + 1;

      var made, end := CallUpstream(transport);
      if end.Raised? {
        r := Failure(end.error);
        assert (State(), r) == Fetch(old(State()), apiKey, location, now, transport, anyVictim);
        return;
      }
      var code, body := end.code, end.body;

      if code != 200 {
        r := Failure(BadStatus(code, body.text));
        assert (State(), r) == Fetch(old(State()), apiKey, location, now, transport, anyVictim);
        return;
      }

      var projected := Project(body);
      if projected.None? {
        r := Failure(MalformedPayload);
        assert (State(), r) == Fetch(old(State()), apiKey, location, now, transport, anyVictim);
        return;
      }

      var victim := ChooseVictim(cache, key, now, CacheTtl, CacheCapacity);
      PutBounded(cache, key, projected.value, now, CacheTtl, CacheCapacity, victim);
      cache := Put(cache, key, projected.value, now, CacheTtl, CacheCapacity, victim);
      r := Success(projected.value);
      assert (State(), r) == Fetch(old(State()), apiKey, location, now, transport, victim);
    }
  }
}
