/**
 * Per-key fixed-window rate limiter (rate_limit.py). Each client key has a
 * counter in an expiring store whose time-to-live is the window length; every
 * call reads the live count (0 when absent or expired), writes back count + 1,
 * and admits the call iff the new count is at most the limit. Two global
 * counters record how many calls were allowed and how many were blocked.
 */
module RateLimit {
  import opened Wrappers
  import opened ExpiringMap

  /** `RATE_LIMIT_REQUESTS` and `RATE_LIMIT_WINDOW_SECONDS` when not configured. */
  const DefaultLimit := 30
  const DefaultWindow := 60
  /** `maxsize` of the counter store. */
  const CounterCapacity: nat := 10000

  /** The limiter's whole state: the counter store and the two global counters. */
  datatype Limiter = Limiter(counters: Store<int>, allowed: nat, blocked: nat)

  /** `_counters.get(key, 0)` at time `now`. */
  function LiveCount(counters: Store<int>, key: string, now: int, window: int): int {
    Get(counters, key, now, window).GetOr(0)
  }

  /**
   * One call of `allow_request(key)` at time `now`, evicting `victim` if the
   * store is full. The call is admitted iff the new count is at most the
   * limit, and exactly one of the two global counters goes up, matching the
   * answer.
   */
  function Step(lim: Limiter, limit: int, window: int, key: string, now: int, victim: string): (r: (Limiter, bool))
    ensures r.1 <==> LiveCount(lim.counters, key, now, window) + 1 <= limit
    ensures r.1 ==> r.0.allowed == lim.allowed + 1 && r.0.blocked == lim.blocked
    ensures !r.1 ==> r.0.blocked == lim.blocked + 1 && r.0.allowed == lim.allowed
  {
    var current := LiveCount(lim.counters, key, now, window) + 1;
    var counters := Put(lim.counters, key, current, now, window, CounterCapacity, victim);
    if current <= limit then (Limiter(counters, lim.allowed + 1, lim.blocked), true)
    else (Limiter(counters, lim.allowed, lim.blocked + 1), false)
  }

  /** A call as seen by the specification: the key, the time, and the entry a full store evicts. */
  datatype Call = Call(key: string, now: int, victim: string)

  /**
   * A sequence of calls from `lim`: the final state and each call's answer.
   * Every call is counted as allowed or as blocked, and neither counter goes
   * down.
   */
  function Run(lim: Limiter, limit: int, window: int, calls: seq<Call>): (r: (Limiter, seq<bool>))
    ensures |r.1| == |calls|
    ensures r.0.allowed + r.0.blocked == lim.allowed + lim.blocked + |calls|
    ensures lim.allowed <= r.0.allowed && lim.blocked <= r.0.blocked
    decreases |calls|
  {
    if calls == [] then (lim, [])
    else
      var (next, ok) := Step(lim, limit, window, calls[0].key, calls[0].now, calls[0].victim);
      var (last, oks) := Run(next, limit, window, calls[1..]);
      (last, [ok] + oks)
  }

  /** Calls on one key, in time order, each less than a window after the one before. */
  ghost predicate Consecutive(calls: seq<Call>, key: string, window: int) {
    && (forall i :: 0 <= i < |calls| ==> calls[i].key == key)
    && (forall i :: 0 < i < |calls| ==> calls[i - 1].now <= calls[i].now < calls[i - 1].now + window)
  }

  /** The call stores the previous live count plus one under its key, stamped `now`. */
  lemma StepStoresCount(lim: Limiter, limit: int, window: int, key: string, now: int, victim: string)
    ensures var next := Step(lim, limit, window, key, now, victim).0;
      && key in next.counters
      && next.counters[key] == Entry(LiveCount(lim.counters, key, now, window) + 1, now)
  {
  }

  /**
   * A call leaves every other key's count as readers see it, now and later,
   * unless the store was full and that key was evicted.
   */
  lemma StepOtherKeys(lim: Limiter, limit: int, window: int, key: string, now: int, victim: string, other: string, t: int)
    requires other != key && now <= t
    requires !NeedsEviction(lim.counters, key, now, window, CounterCapacity) || victim != other
    ensures Get(Step(lim, limit, window, key, now, victim).0.counters, other, t, window) == Get(lim.counters, other, t, window)
  {
  }

  /** A call after the key's entry expired starts a new window: count 1, admitted when the limit is at least 1. */
  lemma ExpiredRestarts(lim: Limiter, limit: int, window: int, key: string, now: int, victim: string)
    requires key !in lim.counters || now - lim.counters[key].written >= window
    ensures var (next, ok) := Step(lim, limit, window, key, now, victim);
      next.counters[key].value == 1 && (ok <==> limit >= 1)
  {
  }

  /** Writes keep the counter store within `maxsize`. */
  lemma StepBounded(lim: Limiter, limit: int, window: int, key: string, now: int, victim: string)
    requires |lim.counters| <= CounterCapacity
    requires ValidVictim(lim.counters, key, now, window, CounterCapacity, victim)
    ensures |Step(lim, limit, window, key, now, victim).0.counters| <= CounterCapacity
  {
    PutBounded(lim.counters, key, LiveCount(lim.counters, key, now, window) + 1, now, window, CounterCapacity, victim);
  }

  /** A blocked call still counts, so the next call on that key within the window is blocked too. */
  lemma BlockedStaysBlocked(lim: Limiter, limit: int, window: int, key: string, now: int, victim: string, later: int, victim': string)
    requires now <= later < now + window
    requires !Step(lim, limit, window, key, now, victim).1
    ensures !Step(Step(lim, limit, window, key, now, victim).0, limit, window, key, later, victim').1
  {
  }

  /**
   * A burst of consecutive calls on one key whose live count is `start` when
   * the burst begins: the i-th call (from 0) sees count start + i + 1 and is
   * admitted iff that is at most the limit.
   */
  lemma {:induction false} Burst(lim: Limiter, limit: int, window: int, calls: seq<Call>, key: string, start: int)
    requires |calls| > 0 && Consecutive(calls, key, window)
    requires LiveCount(lim.counters, key, calls[0].now, window) == start
    ensures var oks := Run(lim, limit, window, calls).1;
      |oks| == |calls| && forall i :: 0 <= i < |calls| ==> (oks[i] <==> start + i + 1 <= limit)
    decreases |calls|
  {
    var c := calls[0];
    var (next, ok) := Step(lim, limit, window, key, c.now, c.victim);
    var rest := Run(next, limit, window, calls[1..]).1;
    assert Run(lim, limit, window, calls).1 == [ok] + rest;
    if |calls| > 1 {
      var tail := calls[1..];
      assert Consecutive(tail, key, window) by {
        forall i | 0 < i < |tail| ensures tail[i - 1].now <= tail[i].now < tail[i - 1].now + window {
          assert tail[i - 1] == calls[i] && tail[i] == calls[i + 1];
        }
      }
      assert c.now <= tail[0].now < c.now + window by { assert tail[0] == calls[1]; }
      PutGet(lim.counters, key, start + 1, c.now, window, CounterCapacity, c.victim, tail[0].now);
      Burst(next, limit, window, tail, key, start + 1);
      forall i | 0 < i < |calls| ensures Run(lim, limit, window, calls).1[i] <==> start + i + 1 <= limit {
        assert Run(lim, limit, window, calls).1[i] == rest[i - 1];
      }
    }
  }

  /**
   * From an absent or expired key with a limit N >= 1, the first call is
   * admitted, and of N + 1 consecutive calls the last is blocked.
   */
  lemma FirstAdmittedLastBlocked(lim: Limiter, limit: int, window: int, calls: seq<Call>, key: string)
    requires limit >= 1 && |calls| == limit + 1 && Consecutive(calls, key, window)
    requires Get(lim.counters, key, calls[0].now, window) == None
    ensures var oks := Run(lim, limit, window, calls).1;
      |oks| == limit + 1 && oks[0] && !oks[limit]
  {
    Burst(lim, limit, window, calls, key, 0);
  }

  /**
   * The limiter of rate_limit.py: the counter store and the two counters are
   * fields updated in place; the limit and the window are fixed when it is
   * created.
   */
  class RateLimiter {
    const limit: int
    const window: int
    var counters: Store<int>
    var allowedTotal: nat
    var blockedTotal: nat
    /** Number of `Allow` calls so far. */
    ghost var calls: nat

    ghost predicate Valid()
      reads this
    {
      |counters| <= CounterCapacity && allowedTotal + blockedTotal == calls
    }

    function State(): Limiter
      reads this
    {
      Limiter(counters, allowedTotal, blockedTotal)
    }

    constructor (limit: int, window: int)
      ensures Valid() && this.limit == limit && this.window == window
      ensures State() == Limiter(map[], 0, 0) && calls == 0
    {
      this.limit := limit;
      this.window := window;
      counters := map[];
      allowedTotal, blockedTotal := 0, 0;
      calls := 0;
    }

    /** `allow_request(key)` at time `now`. */
    method Allow(key: string, now: int) returns (ok: bool)
      requires Valid()
      modifies this
      ensures Valid() && calls == old(calls) + 1
      ensures exists victim ::
                && ValidVictim(old(counters), key, now, window, CounterCapacity, victim)
                && (State(), ok) == Step(old(State()), limit, window, key, now, victim)
    {
      var current := LiveCount(counters, key, now, window) + 1;
      var victim := ChooseVictim(counters, key, now, window, CounterCapacity);
      ghost var before := State();
      StepBounded(before, limit, window, key, now, victim);
      counters := Put(counters, key, current, now, window, CounterCapacity, victim);
      calls := calls + 1;
      if current <= limit {
        allowedTotal := allowedTotal + 1;
        ok := true;
      } else {
        blockedTotal := blockedTotal + 1;
        ok := false;
      }
      assert (State(), ok) == Step(before, limit, window, key, now, victim);
    }

    /** `retry_after_seconds(key)`: always the full window, whatever the key's state. */
    method RetryAfterSeconds(key: string) returns (seconds: int)
      ensures seconds == window
    {
      seconds := window;
    }
  }
}
