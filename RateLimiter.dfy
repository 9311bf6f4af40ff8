/**
 * The fixed-window rate limiter (internal/middleware/rate_limiter.go): a
 * per-key counter in Redis, read with GET, then INCR'd (and given an expiry
 * on the first hit of a window) in one pipeline.  Redis is a map from key to
 * counter; a key whose expiry has come is gone.  Times are whole seconds.
 */
module RateLimiter {
  import opened Wrappers
  import opened Text

  /** A counter with its expiry time, if one was set. */
  datatype Counter = Counter(count: int, expiresAt: Option<int>)

  /** Whether the key still exists at time `now` (Redis drops it once its expiry is reached). */
  predicate Live(c: Counter, now: int)
  {
    c.expiresAt.None? || now < c.expiresAt.value
  }

  /** GET key, as `.Int()` reads it: a missing or expired key reads as redis.Nil, i.e. no count. */
  function Current(store: map<string, Counter>, key: string, now: int): Option<int>
  {
    if key in store && Live(store[key], now) then Some(store[key].count) else None
  }

  /** The count the handler works with: a missing key (redis.Nil) reads as 0. */
  function ReadCount(store: map<string, Counter>, key: string, now: int): int
  {
    if Current(store, key, now).Some? then Current(store, key, now).value else 0
  }

  /** The identifier: the `userID` local when it holds a string, else the client IP. */
  function Identifier(userId: Option<string>, ip: string): string
  {
    if userId.Some? then userId.value else ip
  }

  /** `fmt.Sprintf("ratelimit:%s:%s", path, identifier)`. */
  function RateKey(path: string, id: string): (k: string)
    ensures k == "ratelimit:" + path + ":" + id
    ensures |k| == |path| + |id| + 11
  {
    "ratelimit:" + path + ":" + id
  }

  /** What the handler does with the request. */
  datatype Decision =
    /** `c.Next()`, with the two rate-limit headers when the count was recorded. */
    | Proceed(remaining: Option<int>)
    /** 429 with `{"error": "Rate limit exceeded"}`. */
    | TooManyRequests

  /**
   * The response headers a decision sets: the limit and the remaining
   * allowance, in decimal, exactly when the request was counted.
   */
  function Headers(d: Decision, maxRequests: int): (h: map<string, string>)
    ensures h.Keys == if d.Proceed? && d.remaining.Some? then {"X-RateLimit-Limit", "X-RateLimit-Remaining"} else {}
    ensures d.Proceed? && d.remaining.Some? && Text.MinInt64 <= maxRequests <= Text.MaxInt64 ==>
      Atoi(h["X-RateLimit-Limit"]) == Some(maxRequests)
    ensures d.Proceed? && d.remaining.Some? && Text.MinInt64 <= d.remaining.value <= Text.MaxInt64 ==>
      Atoi(h["X-RateLimit-Remaining"]) == Some(d.remaining.value)
  {
    if d.Proceed? && d.remaining.Some? then
      AtoiDecimalWhenInRange(maxRequests);
      AtoiDecimalWhenInRange(d.remaining.value);
      map["X-RateLimit-Limit" := Decimal(maxRequests), "X-RateLimit-Remaining" := Decimal(d.remaining.value)]
    else map[]
  }

  /** `Atoi` reads back the decimal form of any int64. */
  lemma AtoiDecimalWhenInRange(n: int)
    ensures Text.MinInt64 <= n <= Text.MaxInt64 ==> Atoi(Decimal(n)) == Some(n)
  {
    if Text.MinInt64 <= n <= Text.MaxInt64 {
      AtoiDecimal(n);
    }
  }

  /**
   * How `pipe.Exec` ended.  go-redis's `Pipeline` sends the queued commands
   * as one batch, not as a MULTI/EXEC transaction, so an error it reports
   * may come after some of them took effect: `applied` counts the queued
   * commands (INCR, then EXPIRE on a first hit) that did.
   */
  datatype Exec = ExecOk | ExecFailed(applied: nat)

  /** INCR alone: a live counter goes up by one and keeps its expiry; a missing one starts at 1 with none. */
  function IncrOnly(store: map<string, Counter>, key: string, now: int): Counter
  {
    var expiry := if Current(store, key, now).Some? then store[key].expiresAt else None;
    Counter(ReadCount(store, key, now) + 1, expiry)
  }

  /** INCR, then EXPIRE when the count read was 0: the counter after the pipeline. */
  function Incremented(store: map<string, Counter>, key: string, now: int, window: int): Counter
  {
    var c := IncrOnly(store, key, now);
    if ReadCount(store, key, now) == 0 then c.(expiresAt := Some(now + window)) else c
  }

  /** The counter after the first `applied` queued commands of the pipeline, if any took effect. */
  function Partly(store: map<string, Counter>, key: string, now: int, window: int, applied: nat): map<string, Counter>
  {
    if applied == 0 then store
    else if applied == 1 then store[key := IncrOnly(store, key, now)]
    else store[key := Incremented(store, key, now, window)]
  }

  /**
   * One request under `Limit(maxRequests, window)`: a failing GET lets the
   * request through untouched; a count at or above the maximum is refused
   * without incrementing; a failing pipeline lets the request through
   * without headers, with whatever part of it took effect; otherwise the
   * counter goes up by one and the remaining allowance is reported.
   */
  function Step(store: map<string, Counter>, key: string, now: int, maxRequests: int, window: int,
                getFault: bool, exec: Exec): (r: (Decision, map<string, Counter>))
    ensures getFault ==> r == (Proceed(None), store)
    ensures r.0 == TooManyRequests <==> !getFault && ReadCount(store, key, now) >= maxRequests
    ensures r.0 == TooManyRequests || getFault || exec == ExecFailed(0) ==> r.1 == store
    ensures r.0.Proceed? && r.0.remaining.Some? <==> !getFault && ReadCount(store, key, now) < maxRequests && exec.ExecOk?
    ensures r.0.Proceed? && r.0.remaining.Some? ==> (
      && r.0.remaining.value >= 0
      && key in r.1 && r.1[key].count == ReadCount(store, key, now) + 1
      && r.0.remaining.value == maxRequests - r.1[key].count
      && r.1[key].expiresAt == if ReadCount(store, key, now) == 0 then Some(now + window) else store[key].expiresAt)
    ensures !getFault && r.0.Proceed? && exec.ExecFailed? && exec.applied > 0 ==> (
      && r.0.remaining.None?
      && key in r.1 && r.1[key].count == ReadCount(store, key, now) + 1
      && r.1[key].expiresAt == if ReadCount(store, key, now) == 0 && exec.applied >= 2 then Some(now + window)
                               else if Current(store, key, now).Some? then store[key].expiresAt
                               else None)
    ensures forall k :: k != key ==> (k in r.1 <==> k in store) && (k in store ==> r.1[k] == store[k])
  {
    if getFault then (Proceed(None), store)
    else
      var count := ReadCount(store, key, now);
      if count >= maxRequests then (TooManyRequests, store)
      else
        match exec
        case ExecFailed(applied) => (Proceed(None), Partly(store, key, now, window, applied))
        case ExecOk => (Proceed(Some(maxRequests - count - 1)), store[key := Incremented(store, key, now, window)])
  }

  /**
   * A first hit whose pipeline failed after the INCR leaves a counter with no
   * expiry; once such a counter has reached the maximum, the key is refused
   * at every later time, since nothing ever removes it.
   */
  lemma StuckCounterRefusesForever(store: map<string, Counter>, key: string, maxRequests: int, window: int,
                                   later: int, exec: Exec)
    requires key in store && store[key].expiresAt.None? && store[key].count >= maxRequests
    ensures Step(store, key, later, maxRequests, window, false, exec) == (TooManyRequests, store)
  {
  }

  /** The INCR of a first hit taking effect without its EXPIRE leaves the count at 1 with no expiry. */
  lemma FailedFirstHitHasNoExpiry(store: map<string, Counter>, key: string, now: int, maxRequests: int, window: int)
    requires Current(store, key, now).None? && maxRequests > 0
    ensures Step(store, key, now, maxRequests, window, false, ExecFailed(1))
      == (Proceed(None), store[key := Counter(1, None)])
  {
  }

  /** The first counted request of a window starts the count at 1 and the window at `now`. */
  lemma FirstHitOpensWindow(store: map<string, Counter>, key: string, now: int, maxRequests: int, window: int)
    requires Current(store, key, now).None? && maxRequests > 0
    ensures Step(store, key, now, maxRequests, window, false, ExecOk)
      == (Proceed(Some(maxRequests - 1)), store[key := Counter(1, Some(now + window))])
  {
  }

  /**
   * A sequence of requests for one key at the times `times`, with no store
   * failures: how many were let through, and the store afterwards.
   */
  function Run(store: map<string, Counter>, key: string, times: seq<int>, maxRequests: int, window: int)
    : (r: (nat, map<string, Counter>))
    decreases |times|
  {
    if |times| == 0 then (0, store)
    else
      var (d, next) := Step(store, key, times[0], maxRequests, window, false, ExecOk);
      var (n, last) := Run(next, key, times[1..], maxRequests, window);
      (if d.Proceed? then n + 1 else n, last)
  }

  /** The window invariant of Run: what the store holds for `key` after `allowed` requests got through. */
  predicate WindowState(store: map<string, Counter>, key: string, start: int, window: int, maxRequests: int, allowed: nat)
  {
    if allowed == 0 then key !in store || (store[key].expiresAt.Some? && store[key].expiresAt.value <= start)
    else
      && key in store && store[key].count == allowed <= maxRequests
      && store[key].expiresAt.Some? && store[key].expiresAt.value >= start + window
  }

  lemma {:induction false} RunWithinWindow(store: map<string, Counter>, key: string, times: seq<int>,
                                           maxRequests: int, window: int, start: int, allowed: nat)
    requires WindowState(store, key, start, window, maxRequests, allowed)
    requires forall i :: 0 <= i < |times| ==> start <= times[i] < start + window
    ensures var (n, last) := Run(store, key, times, maxRequests, window);
      allowed + n <= if maxRequests > 0 then maxRequests else 0
    decreases |times|
  {
    if |times| > 0 {
      var t := times[0];
      var (d, next) := Step(store, key, t, maxRequests, window, false, ExecOk);
      var more := if d.Proceed? then allowed + 1 else allowed;
      if allowed == 0 {
        assert Current(store, key, t).None?;
        if d.Proceed? {
          assert next[key] == Counter(1, Some(t + window));
        }
      } else {
        assert Current(store, key, t) == Some(allowed);
      }
      assert WindowState(next, key, start, window, maxRequests, more);
      assert forall i :: 0 <= i < |times[1..]| ==> times[1..][i] == times[i + 1];
      RunWithinWindow(next, key, times[1..], maxRequests, window, start, more);
    }
  }

  /**
   * Within one window, at most `maxRequests` requests for a key get through
   * when they are handled one at a time and the key had no live counter when
   * the window began.
   */
  lemma AtMostMaxPerWindow(store: map<string, Counter>, key: string, times: seq<int>,
                           maxRequests: int, window: int, start: int)
    requires Current(store, key, start).None?
    requires forall i :: 0 <= i < |times| ==> start <= times[i] < start + window
    ensures Run(store, key, times, maxRequests, window).0 <= if maxRequests > 0 then maxRequests else 0
  {
    RunWithinWindow(store, key, times, maxRequests, window, start, 0);
  }

  class RateLimiter {
    var redis: map<string, Counter>

    constructor ()
      ensures redis == map[]
    {
      redis := map[];
    }

    /**
     * The handler `Limit(maxRequests, window)` returns, applied to one
     * request: the decision, and the headers set on the response.
     */
    method Limit(maxRequests: int, window: int, path: string, userId: Option<string>, ip: string, now: int,
                 getFault: bool, exec: Exec) returns (d: Decision, headers: map<string, string>)
      modifies this
      ensures (d, redis) == Step(old(redis), RateKey(path, Identifier(userId, ip)), now, maxRequests, window, getFault, exec)
      ensures headers == Headers(d, maxRequests)
    {
      var identifier := ip;
      if userId.Some? {
        identifier := userId.value;
      }
      var key := RateKey(path, identifier);
      if getFault {
        return Proceed(None), map[];
      }
      var count := 0;
      if key in redis && Live(redis[key], now) {
        count := redis[key].count;
      }
      if count >= maxRequests {
        return TooManyRequests, map[];
      }
      match exec {
        case ExecFailed(applied) =>
          redis := Partly(redis, key, now, window, applied);
          return Proceed(None), map[];
        case ExecOk =>
      }
      redis := redis[key := Incremented(redis, key, now, window)];
      d := Proceed(Some(maxRequests - count - 1));
      headers := map["X-RateLimit-Limit" := Decimal(maxRequests), "X-RateLimit-Remaining" := Decimal(maxRequests - count - 1)];
    }
  }
}
