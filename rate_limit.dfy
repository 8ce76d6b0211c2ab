/**
 * The fixed-window rate limiter of src/lib/rate-limit.ts: one bucket per key in a
 * process-wide map, a count and the time its window ends.  The clock is a parameter.
 */
module RateLimit {
  import opened Wrappers
  import opened Errors

  datatype Bucket = Bucket(count: nat, resetAt: int)

  datatype Options = Options(limit: int, windowMs: int)

  /** The error thrown once a window has seen more calls than the limit. */
  const TooManyAttempts: ApiError :=
    ApiError("Demasiados intentos. Intenta más tarde.", 429, Some("RATE_LIMIT"))

  /** A key with no bucket, or one whose window has ended, starts a new window. */
  predicate Opens(buckets: map<string, Bucket>, key: string, now: int) {
    key !in buckets || buckets[key].resetAt <= now
  }

  /** One call of `rateLimit(key, opts)` at time `now`: the new map and whether the call passes.
      Inside a window the count goes up even on the call that throws. */
  function Step(buckets: map<string, Bucket>, key: string, opts: Options, now: int)
    : (r: (map<string, Bucket>, Outcome<ApiError>))
    ensures key in r.0
    ensures forall k :: k in buckets && k != key ==> k in r.0 && r.0[k] == buckets[k]
    ensures forall k :: k in r.0 ==> k in buckets || k == key
    ensures Opens(buckets, key, now) ==> r.0[key] == Bucket(1, now + opts.windowMs) && r.1 == Pass
    ensures !Opens(buckets, key, now) ==>
              r.0[key] == Bucket(buckets[key].count + 1, buckets[key].resetAt)
              && (r.1 == Pass <==> buckets[key].count + 1 <= opts.limit)
    ensures r.1.Fail? ==> r.1.error == TooManyAttempts
  {
    if Opens(buckets, key, now) then
      (buckets[key := Bucket(1, now + opts.windowMs)], Pass)
    else
      var b := Bucket(buckets[key].count + 1, buckets[key].resetAt);
      (buckets[key := b], if b.count > opts.limit then Fail(TooManyAttempts) else Pass)
  }

  /** Calls at the given times, in order: the final map and whether each call passed. */
  function Run(buckets: map<string, Bucket>, key: string, opts: Options, times: seq<int>)
    : (r: (map<string, Bucket>, seq<bool>))
    ensures |r.1| == |times|
    decreases |times|
  {
    if times == [] then (buckets, [])
    else
      var s := Step(buckets, key, opts, times[0]);
      var rest := Run(s.0, key, opts, times[1..]);
      (rest.0, [s.1 == Pass] + rest.1)
  }

  /** Inside a window that bucket `b` opened, `n` more calls bring the count to `b.count + n`,
      and call `j` passes exactly when its count stays within the limit. */
  lemma {:induction false} RunInsideWindow(buckets: map<string, Bucket>, key: string, opts: Options,
                                           times: seq<int>)
    requires key in buckets
    requires forall j :: 0 <= j < |times| ==> times[j] < buckets[key].resetAt
    ensures var r := Run(buckets, key, opts, times);
            key in r.0 && r.0[key] == Bucket(buckets[key].count + |times|, buckets[key].resetAt)
            && forall j :: 0 <= j < |times| ==> (r.1[j] <==> buckets[key].count + j + 1 <= opts.limit)
    decreases |times|
  {
    if times != [] {
      var s := Step(buckets, key, opts, times[0]);
      RunInsideWindow(s.0, key, opts, times[1..]);
      var rest := Run(s.0, key, opts, times[1..]);
      assert Run(buckets, key, opts, times) == (rest.0, [s.1 == Pass] + rest.1);
      forall j | 1 <= j < |times|
        ensures (Run(buckets, key, opts, times).1[j] <==> buckets[key].count + j + 1 <= opts.limit)
      {
        assert Run(buckets, key, opts, times).1[j] == rest.1[j - 1];
      }
    }
  }

  /** The property the limiter exists for: when the first of a burst of calls opens a window and
      every call falls inside it, the first call passes and call `j` (from 0) passes exactly when
      `j + 1 <= limit`; the bucket ends holding the number of calls. */
  lemma WindowAdmitsLimit(buckets: map<string, Bucket>, key: string, opts: Options, times: seq<int>)
    requires |times| >= 1 && Opens(buckets, key, times[0])
    requires forall j :: 0 <= j < |times| ==> times[j] < times[0] + opts.windowMs
    ensures var r := Run(buckets, key, opts, times);
            key in r.0 && r.0[key].count == |times|
            && r.1[0]
            && forall j :: 1 <= j < |times| ==> (r.1[j] <==> j + 1 <= opts.limit)
  {
    var s := Step(buckets, key, opts, times[0]);
    var tail := times[1..];
    forall j | 0 <= j < |tail| ensures tail[j] < s.0[key].resetAt {
      assert tail[j] == times[j + 1];
    }
    RunInsideWindow(s.0, key, opts, tail);
    var rest := Run(s.0, key, opts, tail);
    assert Run(buckets, key, opts, times) == (rest.0, [true] + rest.1);
    forall j | 1 <= j < |times|
      ensures (Run(buckets, key, opts, times).1[j] <==> j + 1 <= opts.limit)
    {
      assert Run(buckets, key, opts, times).1[j] == rest.1[j - 1];
    }
  }

  /** Once a window has ended the next call passes, whatever the count was. */
  lemma ExpiredWindowPasses(buckets: map<string, Bucket>, key: string, opts: Options, now: int)
    requires key in buckets && buckets[key].resetAt <= now
    ensures Step(buckets, key, opts, now).1 == Pass
    ensures Step(buckets, key, opts, now).0[key].count == 1
  {
  }

  /** Inside a window a rejection is final: every later call in the same window is rejected too. */
  lemma RejectionPersists(buckets: map<string, Bucket>, key: string, opts: Options, now: int, later: int)
    requires !Opens(buckets, key, now) && Step(buckets, key, opts, now).1.Fail?
    requires later < buckets[key].resetAt
    ensures var s := Step(buckets, key, opts, now);
            Step(s.0, key, opts, later).1.Fail?
  {
  }

  /** The process-wide map of buckets, which `rateLimit` updates in place. */
  class RateLimiter {
    var buckets: map<string, Bucket>

    constructor ()
      ensures buckets == map[]
    {
      buckets := map[];
    }

    /** `rateLimit(key, opts)` at time `now`: returns normally or throws `TooManyAttempts`. */
    method Check(key: string, opts: Options, now: int) returns (outcome: Outcome<ApiError>)
      modifies this
      ensures (buckets, outcome) == Step(old(buckets), key, opts, now)
    {
      if key !in buckets || buckets[key].resetAt <= now {
        buckets := buckets[key := Bucket(1, now + opts.windowMs)];
        return Pass;
      }
      var existing := buckets[key];
      var updated := Bucket(existing.count + 1, existing.resetAt);
      buckets := buckets[key := updated];
      if updated.count > opts.limit {
        return Fail(TooManyAttempts);
      }
      return Pass;
    }
  }
}
