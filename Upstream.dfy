/**
 * The stateless parts of `get_weather` (weather_client.py): what one upstream
 * attempt can produce, the metric label each attempt is counted under, the
 * retry policy of the two-attempt loop, the case folding of the cache key and
 * the projection of a successful response body into the result record.
 */
module Upstream {
  import opened Wrappers

  /** `attempts = 2`: one try and one retry. */
  const MaxAttempts: nat := 2

  /** A decoded JSON document, as `response.json()` returns it. */
  datatype Json =
    | JNull
    | JBool(b: bool)
    | JNum(n: real)
    | JStr(s: string)
    | JArr(items: seq<Json>)
    | JObj(fields: map<string, Json>)

  /** A response body: its text and, when the text is valid JSON, the decoded document. */
  datatype Body = Body(text: string, json: Option<Json>)

  /** What one call of the transport produces. */
  datatype Outcome =
    | Status(code: int, body: Body)  // a response arrived
    | Timeout                        // `requests.Timeout` was raised
    | NetErr(detail: string)         // any other `requests.RequestException`

  /** The result record; the values are copied from the body as they are. */
  datatype Weather = Weather(temperature: Json, conditions: Json, humidity: Json, windSpeed: Json)

  /** Why `get_weather` fails. */
  datatype WeatherError =
    | MissingApiKey                   // "Missing WEATHER_API_KEY"
    | UpstreamTimeout                 // "Weather API timeout"
    | RequestFailed(detail: string)   // "Weather API request failed: {e}"
    | BadStatus(code: int, text: string)  // "Weather API returned {code}: {text}"
    | MalformedPayload                // the body is not JSON or lacks a field

  // ---------------------------------------------------------------------------
  // Cache key: `location.lower()`
  // ---------------------------------------------------------------------------

  predicate IsUpper(c: char) { 'A' <= c <= 'Z' }

  function LowerChar(c: char): char {
    if IsUpper(c) then (c as int + 32) as char else c
  }

  /** `s.lower()`: each character folded on its own, the length unchanged. */
  function Lower(s: string): (r: string)
    ensures |r| == |s| && forall i :: 0 <= i < |s| ==> r[i] == LowerChar(s[i])
  {
    if s == [] then [] else [LowerChar(s[0])] + Lower(s[1..])
  }

  /** Two characters that are the same letter up to case, or simply equal. */
  predicate SameLetter(a: char, b: char) {
    || a == b
    || (IsUpper(a) && a as int + 32 == b as int)
    || (IsUpper(b) && b as int + 32 == a as int)
  }

  /** Two strings that differ at most in the case of their letters. */
  predicate SameIgnoringCase(a: string, b: string) {
    |a| == |b| && forall i :: 0 <= i < |a| ==> SameLetter(a[i], b[i])
  }

  /** Two locations share a cache key exactly when they differ only in letter case. */
  lemma CacheKeyIgnoresCase(a: string, b: string)
    ensures Lower(a) == Lower(b) <==> SameIgnoringCase(a, b)
  {
    if Lower(a) == Lower(b) {
      forall i | 0 <= i < |a| ensures SameLetter(a[i], b[i]) {
        assert Lower(a)[i] == Lower(b)[i];
      }
    }
  }

  /** Folding twice is folding once: a cache key is its own cache key. */
  lemma LowerIdempotent(s: string)
    ensures Lower(Lower(s)) == Lower(s)
  {
  }

  // ---------------------------------------------------------------------------
  // Metric labels: `str(status_code)`, "timeout", "request_exception"
  // ---------------------------------------------------------------------------

  function DigitChar(d: nat): char
    requires d < 10
  {
    "0123456789"[d]
  }

  /** The decimal digits of `n`, most significant first. */
  function Digits(n: nat): (s: string)
    ensures |s| >= 1 && forall i :: 0 <= i < |s| ==> '0' <= s[i] <= '9'
    decreases n
  {
    if n < 10 then [DigitChar(n)] else Digits(n / 10) + [DigitChar(n % 10)]
  }

  /** Python's `str(n)` for an integer: non-empty, and signed iff negative. */
  function Decimal(n: int): (r: string)
    ensures |r| >= 1 && (r[0] == '-' <==> n < 0)
    ensures forall i :: 0 < i < |r| ==> '0' <= r[i] <= '9'
  {
    if n < 0 then "-" + Digits(-n) else Digits(n)
  }

  /** The value of a string of decimal digits. */
  function DigitsValue(s: string): int
    decreases |s|
  {
    if s == [] then 0 else DigitsValue(s[..|s| - 1]) * 10 + (s[|s| - 1] as int - '0' as int)
  }

  lemma DigitCharValue(d: nat)
    requires d < 10
    ensures DigitChar(d) as int - '0' as int == d
  {
  }

  lemma {:induction false} DigitsRoundTrip(n: nat)
    ensures DigitsValue(Digits(n)) == n
    decreases n
  {
    var s := Digits(n);
    if n < 10 {
      DigitCharValue(n);
      assert s[..|s| - 1] == [];
    } else {
      var q, d := n / 10, n % 10;
      assert s == Digits(q) + [DigitChar(d)];
      assert s[..|s| - 1] == Digits(q);
      DigitsRoundTrip(q);
      DigitCharValue(d);
      assert DigitsValue(s) == q * 10 + d;
    }
  }

  /** Different status codes are counted under different labels. */
  lemma DigitsInjective(x: nat, y: nat)
    requires Digits(x) == Digits(y)
    ensures x == y
  {
    DigitsRoundTrip(x);
    DigitsRoundTrip(y);
  }

  lemma DecimalInjective(a: int, b: int)
    requires Decimal(a) == Decimal(b)
    ensures a == b
  {
    if a < 0 && b < 0 {
      assert Digits(-a) == Decimal(a)[1..];
      assert Digits(-b) == Decimal(b)[1..];
      DigitsInjective(-a, -b);
    } else if a >= 0 && b >= 0 {
      DigitsInjective(a, b);
    }
  }

  /** The label an attempt is counted under in `weather_upstream_requests_total`. */
  function Label(o: Outcome): (r: string)
    ensures |r| >= 1
    ensures o.Status? <==> r[0] == '-' || '0' <= r[0] <= '9'
  {
    match o
    case Status(code, _) => Decimal(code)
    case Timeout => "timeout"
    case NetErr(_) => "request_exception"
  }

  /** Attempts with different kinds of outcome, or different status codes, get different labels. */
  lemma LabelsDistinct(o: Outcome, o': Outcome)
    requires Label(o) == Label(o')
    ensures o.Status? <==> o'.Status?
    ensures o.Timeout? <==> o'.Timeout?
    ensures o.Status? ==> o.code == o'.code
  {
    if o.Status? && o'.Status? {
      DecimalInjective(o.code, o'.code);
    } else {
      assert Label(o)[0] == Label(o')[0];
    }
  }

  /** `m[name] += 1` on a labelled counter. */
  /** `m[name]`, where an absent label counts 0. */
  function CountOf(m: map<string, nat>, name: string): nat {
    if name in m then m[name] else 0
  }

  /** `m[name] += 1` on a labelled counter. */
  function Bump(m: map<string, nat>, name: string): (r: map<string, nat>)
    ensures CountOf(r, name) == CountOf(m, name) + 1
    ensures forall other :: other != name ==> CountOf(r, other) == CountOf(m, other)
  {
    m[name := CountOf(m, name) + 1]
  }

  /** The labelled counter after one increment per attempt, in order. */
  function Tally(m: map<string, nat>, attempts: seq<Outcome>): map<string, nat>
    decreases |attempts|
  {
    if attempts == [] then m else Tally(Bump(m, Label(attempts[0])), attempts[1..])
  }

  /** How many of the attempts are counted under `name`. */
  function Occurrences(attempts: seq<Outcome>, name: string): nat
    decreases |attempts|
  {
    if attempts == [] then 0
    else (if Label(attempts[0]) == name then 1 else 0) + Occurrences(attempts[1..], name)
  }

  /** Every attempt adds exactly one under its own label and nothing under the others. */
  lemma {:induction false} TallyCounts(m: map<string, nat>, attempts: seq<Outcome>, name: string)
    ensures CountOf(Tally(m, attempts), name) == CountOf(m, name) + Occurrences(attempts, name)
    decreases |attempts|
  {
    if attempts != [] {
      TallyCounts(Bump(m, Label(attempts[0])), attempts[1..], name);
    }
  }

  /** Counting one more attempt is one more increment on top of the earlier ones. */
  lemma {:induction false} TallyAppend(m: map<string, nat>, attempts: seq<Outcome>, o: Outcome)
    ensures Tally(m, attempts + [o]) == Bump(Tally(m, attempts), Label(o))
    decreases |attempts|
  {
    if attempts == [] {
      assert ([] + [o])[1..] == [];
    } else {
      assert (attempts + [o])[1..] == attempts[1..] + [o];
      TallyAppend(Bump(m, Label(attempts[0])), attempts[1..], o);
    }
  }

  // ---------------------------------------------------------------------------
  // The retry loop
  // ---------------------------------------------------------------------------

  /** The policy: an attempt is retried iff attempts remain and it was not a response below 500. */
  predicate Retried(o: Outcome, attempt: nat) {
    attempt < MaxAttempts - 1 && (o.Status? ==> o.code >= 500)
  }

  /** How the loop ends: with the last response, or with an error raised. */
  datatype LoopEnd = Response(code: int, body: Body) | Raised(error: WeatherError)

  /**
   * The loop from attempt `attempt` on, attempt i getting `outcomes[i]`: the
   * number of attempts made in total and how the loop ended.
   */
  function RetryLoop(outcomes: seq<Outcome>, attempt: nat): (r: (nat, LoopEnd))
    requires attempt < MaxAttempts <= |outcomes|
    ensures attempt < r.0 <= MaxAttempts
    ensures forall j :: attempt <= j < r.0 - 1 ==> Retried(outcomes[j], j)
    ensures !Retried(outcomes[r.0 - 1], r.0 - 1)
    ensures r.1.Response? <==> outcomes[r.0 - 1].Status?
    ensures r.1.Response? ==> outcomes[r.0 - 1] == Status(r.1.code, r.1.body)
    ensures r.1.Raised? ==> r.1.error == if outcomes[r.0 - 1].Timeout? then UpstreamTimeout
                                         else RequestFailed(outcomes[r.0 - 1].detail)
    decreases MaxAttempts - attempt
  {
    var last := attempt == MaxAttempts - 1;
    match outcomes[attempt]
    case Status(code, body) =>
      if code >= 500 && !last then RetryLoop(outcomes, attempt + 1) else (attempt + 1, Response(code, body))
    case Timeout =>
      if !last then RetryLoop(outcomes, attempt + 1) else (attempt + 1, Raised(UpstreamTimeout))
    case NetErr(detail) =>
      if !last then RetryLoop(outcomes, attempt + 1) else (attempt + 1, Raised(RequestFailed(detail)))
  }

  /** A second attempt is made iff the first is retried; a response below 500 (a 404, say) ends the loop at once. */
  lemma SecondAttemptOnlyAfterRetry(outcomes: seq<Outcome>)
    requires MaxAttempts <= |outcomes|
    ensures RetryLoop(outcomes, 0).0 == 2 <==> Retried(outcomes[0], 0)
    ensures outcomes[0].Status? && outcomes[0].code < 500 ==>
              RetryLoop(outcomes, 0) == (1, Response(outcomes[0].code, outcomes[0].body))
  {
  }

  /** A timeout or a transport error is raised only when it happens on the last attempt. */
  lemma RaisedOnlyOnLastAttempt(outcomes: seq<Outcome>)
    requires MaxAttempts <= |outcomes|
    ensures RetryLoop(outcomes, 0).1.Raised? ==> RetryLoop(outcomes, 0).0 == MaxAttempts
  {
  }

  // ---------------------------------------------------------------------------
  // The result record
  // ---------------------------------------------------------------------------

  /** `j[name]`: defined only on an object that has the member. */
  function Member(j: Json, name: string): Option<Json> {
    if j.JObj? && name in j.fields then Some(j.fields[name]) else None
  }

  /** `j[0]`: the first item of a non-empty list, or the first character of a non-empty string. */
  function First(j: Json): Option<Json> {
    match j
    case JArr(items) => if |items| > 0 then Some(items[0]) else None
    case JStr(s) => if |s| > 0 then Some(JStr(s[..1])) else None
    case _ => None
  }

  /**
   * The body's JSON document is an object carrying the record's four values at
   * `main.temp`, `weather[0].description`, `main.humidity` and `wind.speed`;
   * other members may be present too.
   */
  predicate Carries(body: Body, w: Weather) {
    && body.json.Some? && body.json.value.JObj?
    && var data := body.json.value.fields;
    && "main" in data && "weather" in data && "wind" in data
    && Member(data["main"], "temp") == Some(w.temperature)
    && Member(data["main"], "humidity") == Some(w.humidity)
    && data["weather"].JArr? && |data["weather"].items| > 0
    && Member(data["weather"].items[0], "description") == Some(w.conditions)
    && Member(data["wind"], "speed") == Some(w.windSpeed)
  }

  /** The result record built from a 200 body, or None where Python raises. */
  function Project(body: Body): (r: Option<Weather>)
    ensures r.Some? ==> Carries(body, r.value)
  {
    var data :- body.json;
    var main :- Member(data, "main");
    var temp :- Member(main, "temp");
    var weather :- Member(data, "weather");
    var item :- First(weather);
    var description :- Member(item, "description");
    var humidity :- Member(main, "humidity");
    var wind :- Member(data, "wind");
    var speed :- Member(wind, "speed");
    Some(Weather(temp, description, humidity, speed))
  }

  /** The body shape the upstream API documents for a result. */
  function Render(w: Weather): Json {
    JObj(map[
      "main" := JObj(map["temp" := w.temperature, "humidity" := w.humidity]),
      "weather" := JArr([JObj(map["description" := w.conditions])]),
      "wind" := JObj(map["speed" := w.windSpeed])
    ])
  }

  /** A body of the documented shape projects back to the record it was built from. */
  lemma ProjectRender(w: Weather, text: string)
    ensures Project(Body(text, Some(Render(w)))) == Some(w)
  {
  }

  /** Any body carrying the four values, whatever else it holds, projects to exactly that record. */
  lemma ProjectFinds(body: Body, w: Weather)
    requires Carries(body, w)
    ensures Project(body) == Some(w)
  {
  }
}
