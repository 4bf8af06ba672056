/**
 * src/utils/rateLimiter.js: a sliding-window limiter keeping, for each key
 * `${userId}_${actionType}`, the list of timestamps (in ms) of the requests
 * it accepted. Time is the parameter `now`; the five-minute timer that runs
 * `cleanup` is left to the caller.
 */
module RateLimiting {
  import opened Wrappers
  import opened Errors

  /** config.rateLimiting */
  const DefaultWindowMs := 60000
  const DefaultMaxRequests := 5

  /** The longest window any caller passes (image generation and image description). */
  const LongestWindowMs := 300000

  type Limits = map<string, seq<int>>

  function Key(userId: string, actionType: string): string
  {
    userId + "_" + actionType
  }

  /** `this.limits.get(key) || []` */
  function Stored(limits: Limits, key: string): seq<int>
  {
    if key in limits then limits[key] else []
  }

  /** `timestamps.filter(t => t > windowStart)`: order is kept. */
  function InWindow(ts: seq<int>, windowStart: int): (kept: seq<int>)
    ensures forall t :: t in kept <==> t in ts && t > windowStart
    ensures |kept| <= |ts|
  {
    if |ts| == 0 then []
    else (if ts[0] > windowStart then [ts[0]] else []) + InWindow(ts[1..], windowStart)
  }

  /** `Math.ceil(ms / 1000)` on a whole number of milliseconds. */
  function CeilSeconds(ms: int): (s: int)
    ensures 1000 * (s - 1) < ms <= 1000 * s
  {
    -((-ms) / 1000)
  }

  /** The `options` argument; an absent field takes the configured default. */
  datatype Options = Options(windowMs: Option<int>, maxRequests: Option<int>)

  function WindowMs(o: Options): int
  {
    if o.windowMs.Some? then o.windowMs.value else DefaultWindowMs
  }

  function MaxRequests(o: Options): int
  {
    if o.maxRequests.Some? then o.maxRequests.value else DefaultMaxRequests
  }

  /** `Math.ceil((timestamps[0] + windowMs - now) / 1000)`: NaN when the list is empty. */
  function RetryAfter(kept: seq<int>, windowMs: int, now: int): Seconds
  {
    if |kept| == 0 then NaN else Secs(CeilSeconds(kept[0] + windowMs - now))
  }

  /** The outcome of `checkLimit`: its result and the new map. */
  datatype Decision = Decision(result: Result<bool, Error>, limits: Limits)

  function Check(limits: Limits, userId: string, actionType: string, opts: Options, now: int): (d: Decision)
    ensures var kept := InWindow(Stored(limits, Key(userId, actionType)), now - WindowMs(opts));
            d.result.Ok? <==> |kept| < MaxRequests(opts)
    ensures d.result.Ok? ==> d.result.value
    ensures d.result.Err? ==> d.limits == limits && Name(d.result.error) == "RateLimitError"
    ensures forall k :: k != Key(userId, actionType) ==> Stored(d.limits, k) == Stored(limits, k)
    ensures forall k :: k != Key(userId, actionType) ==> (k in d.limits <==> k in limits)
  {
    var key := Key(userId, actionType);
    var windowMs := WindowMs(opts);
    var kept := InWindow(Stored(limits, key), now - windowMs);
    if |kept| >= MaxRequests(opts) then
      Decision(Err(RateLimitError("Rate limit exceeded for " + actionType + ". Please try again later.",
                                  RetryAfter(kept, windowMs, now))),
               limits)
    else
      Decision(Ok(true), limits[key := kept + [now]])
  }

  /** `cleanup` with window `w`: keep `now - t < w`, drop keys left empty. */
  function Pruned(limits: Limits, now: int, w: int): (p: Limits)
    ensures p.Keys <= limits.Keys
  {
    map k | k in limits && |InWindow(limits[k], now - w)| > 0 :: InWindow(limits[k], now - w)
  }

  /** Every stored list is non-empty (`getStatus` needs it). */
  predicate NonEmptyLists(limits: Limits)
  {
    forall k :: k in limits ==> |limits[k]| > 0
  }

  predicate Sorted(ts: seq<int>)
  {
    forall i, j :: 0 <= i < j < |ts| ==> ts[i] <= ts[j]
  }

  /** Every stored list is in time order and none is later than `now`. */
  predicate SortedUpTo(limits: Limits, now: int)
  {
    forall k :: k in limits ==> Sorted(limits[k]) && forall i :: 0 <= i < |limits[k]| ==> limits[k][i] <= now
  }

  function Min(ts: seq<int>): (m: int)
    requires |ts| > 0
    ensures m in ts && forall t :: t in ts ==> m <= t
  {
    if |ts| == 1 then ts[0]
    else
      var r := Min(ts[1..]);
      assert forall t :: t in ts ==> t == ts[0] || t in ts[1..];
      if ts[0] <= r then ts[0] else r
  }

  datatype KeyStatus = KeyStatus(requestCount: nat, oldestRequest: int)

  datatype Status = Status(activeUsers: nat, limits: map<string, KeyStatus>)

  datatype Remaining = Remaining(remaining: int, resetTime: int)

  class RateLimiter {
    var limits: Limits

    constructor ()
      ensures limits == map[]
    {
      limits := map[];
    }

    predicate Valid()
      reads this
    {
      NonEmptyLists(limits)
    }

    /** `checkLimit`: accept and record `now`, or throw a RateLimitError leaving the map alone. */
    method CheckLimit(userId: string, actionType: string, opts: Options, now: int)
      returns (r: Result<bool, Error>)
      modifies this
      ensures Decision(r, limits) == Check(old(limits), userId, actionType, opts, now)
    {
      var windowMs := WindowMs(opts);
      var maxRequests := MaxRequests(opts);
      var key := Key(userId, actionType);
      var windowStart := now - windowMs;
      var timestamps := if key in limits then limits[key] else [];
      timestamps := InWindow(timestamps, windowStart);
      if |timestamps| >= maxRequests {
        var resetSeconds := RetryAfter(timestamps, windowMs, now);
        r := Err(RateLimitError("Rate limit exceeded for " + actionType + ". Please try again later.",
                                resetSeconds));
        return;
      }
      timestamps := timestamps + [now];
      limits := limits[key := timestamps];
      r := Ok(true);
    }

    /** `getRemainingRequests`: reads the map, never changes it. */
    function GetRemainingRequests(userId: string, actionType: string, opts: Options, now: int): (r: Remaining)
      reads this
      ensures var kept := InWindow(Stored(limits, Key(userId, actionType)), now - WindowMs(opts));
              r.remaining == MaxRequests(opts) - |kept| &&
              (|kept| == 0 ==> r.resetTime == 0) &&
              (|kept| > 0 ==> r.resetTime == CeilSeconds(kept[0] + WindowMs(opts) - now))
    {
      var kept := InWindow(Stored(limits, Key(userId, actionType)), now - WindowMs(opts));
      var resetTime := if |kept| > 0 then kept[0] + WindowMs(opts) - now else 0;
      Remaining(MaxRequests(opts) - |kept|, CeilSeconds(resetTime))
    }

    /** `cleanup` as written: every key is pruned with the configured 60 s window. */
    method Cleanup(now: int)
      modifies this
      ensures limits == Pruned(old(limits), now, DefaultWindowMs)
    {
      Prune(now, DefaultWindowMs);
    }

    /** `cleanup` pruning with the longest window any caller uses, so that no later decision changes. */
    method CleanupLongestWindow(now: int)
      modifies this
      ensures limits == Pruned(old(limits), now, LongestWindowMs)
    {
      Prune(now, LongestWindowMs);
    }

    /** The loop of `cleanup`, for a given window. */
    method Prune(now: int, maxWindow: int)
      modifies this
      ensures limits == Pruned(old(limits), now, maxWindow)
    {
      ghost var orig := limits;
      var keys := limits.Keys;
      while keys != {}
        invariant keys <= orig.Keys
        invariant limits.Keys <= orig.Keys
        invariant forall k :: k in keys ==> k in limits && limits[k] == orig[k]
        invariant forall k :: k in orig && k !in keys ==>
                    (k in limits <==> |InWindow(orig[k], now - maxWindow)| > 0)
        invariant forall k :: k in limits && k !in keys ==> limits[k] == InWindow(orig[k], now - maxWindow)
        decreases keys
      {
        var key :| key in keys;
        var validTimestamps := InWindow(limits[key], now - maxWindow);
        if |validTimestamps| == 0 {
          limits := limits - {key};
        } else {
          limits := limits[key := validTimestamps];
        }
        keys := keys - {key};
      }
    }

    /** `resetLimit`: forget one key. */
    method ResetLimit(userId: string, actionType: string)
      modifies this
      ensures limits == old(limits) - {Key(userId, actionType)}
    {
      limits := limits - {Key(userId, actionType)};
    }

    /**
     * `getStatus`: one entry per key with its count and oldest timestamp.
     * `new Date(Math.min())` of an empty list throws a RangeError; a valid
     * limiter has no empty list.
     */
    function GetStatus(): (r: Result<Status, Error>)
      reads this
      ensures Valid() <==> r.Ok?
      ensures r.Ok? ==> r.value.activeUsers == |limits| && r.value.limits.Keys == limits.Keys
      ensures r.Ok? ==> forall k :: k in limits ==>
                r.value.limits[k].requestCount == |limits[k]| &&
                r.value.limits[k].oldestRequest in limits[k] &&
                forall t :: t in limits[k] ==> r.value.limits[k].oldestRequest <= t
    {
      if Valid() then
        Ok(Status(|limits|, map k | k in limits :: KeyStatus(|limits[k]|, Min(limits[k]))))
      else
        Err(External("RangeError", "Invalid time value", None))
    }
  }

  // ---------------------------------------------------------------- properties

  /** On acceptance the key's list is the in-window timestamps followed by `now`. */
  lemma AcceptRecordsNow(limits: Limits, userId: string, actionType: string, opts: Options, now: int)
    requires Check(limits, userId, actionType, opts, now).result.Ok?
    ensures var key := Key(userId, actionType);
            Check(limits, userId, actionType, opts, now).limits ==
              limits[key := InWindow(Stored(limits, key), now - WindowMs(opts)) + [now]]
  {
  }

  /** After an accepted call the key holds at most `maxRequests` timestamps, all in the window. */
  lemma {:induction false} AcceptedWithinMax(limits: Limits, userId: string, actionType: string, opts: Options, now: int)
    requires WindowMs(opts) > 0
    requires Check(limits, userId, actionType, opts, now).result.Ok?
    ensures var after := Stored(Check(limits, userId, actionType, opts, now).limits, Key(userId, actionType));
            |after| <= MaxRequests(opts) &&
            InWindow(after, now - WindowMs(opts)) == after
  {
    var key := Key(userId, actionType);
    var kept := InWindow(Stored(limits, key), now - WindowMs(opts));
    InWindowIdempotent(kept, now - WindowMs(opts));
    InWindowAppend(kept, [now], now - WindowMs(opts));
  }

  /** A rejection reports a retry delay of at least one second. */
  lemma RetryAfterPositive(limits: Limits, userId: string, actionType: string, opts: Options, now: int)
    requires MaxRequests(opts) >= 1
    requires Check(limits, userId, actionType, opts, now).result.Err?
    ensures var e := Check(limits, userId, actionType, opts, now).result.error;
            e.RateLimitError? && e.retryAfter.Secs? && e.retryAfter.n >= 1
  {
    var kept := InWindow(Stored(limits, Key(userId, actionType)), now - WindowMs(opts));
    assert kept[0] in kept;
  }

  /** With no timestamp after `now`, the delay is at most the window, rounded up. */
  lemma RetryAfterAtMostWindow(limits: Limits, userId: string, actionType: string, opts: Options, now: int)
    requires MaxRequests(opts) >= 1
    requires SortedUpTo(limits, now)
    requires Check(limits, userId, actionType, opts, now).result.Err?
    ensures var e := Check(limits, userId, actionType, opts, now).result.error;
            e.RateLimitError? && e.retryAfter.Secs? && e.retryAfter.n <= CeilSeconds(WindowMs(opts))
  {
    var key := Key(userId, actionType);
    var kept := InWindow(Stored(limits, key), now - WindowMs(opts));
    assert kept[0] in kept;
    assert kept[0] in Stored(limits, key);
  }

  lemma {:induction false} InWindowIdempotent(ts: seq<int>, start: int)
    requires forall t :: t in ts ==> t > start
    ensures InWindow(ts, start) == ts
  {
    if |ts| > 0 {
      assert ts[0] in ts;
      assert forall t :: t in ts[1..] ==> t in ts;
      InWindowIdempotent(ts[1..], start);
      assert [ts[0]] + ts[1..] == ts;
    }
  }

  lemma {:induction false} InWindowAppend(a: seq<int>, b: seq<int>, start: int)
    ensures InWindow(a + b, start) == InWindow(a, start) + InWindow(b, start)
  {
    if |a| == 0 {
      assert a + b == b;
    } else {
      assert (a + b)[1..] == a[1..] + b;
      InWindowAppend(a[1..], b, start);
    }
  }

  lemma {:induction false} InWindowSorted(ts: seq<int>, start: int)
    requires Sorted(ts)
    ensures Sorted(InWindow(ts, start))
  {
    if |ts| > 0 {
      InWindowSorted(ts[1..], start);
      var rest := InWindow(ts[1..], start);
      forall t | t in rest ensures ts[0] <= t {
        assert t in ts[1..];
        var j :| 0 <= j < |ts[1..]| && ts[1..][j] == t;
        assert ts[j + 1] == t;
      }
      var head := if ts[0] > start then [ts[0]] else [];
      var r := head + rest;
      forall i, j | 0 <= i < j < |r| ensures r[i] <= r[j] {
        if |head| == 1 && i == 0 {
          assert r[j] == rest[j - 1] && rest[j - 1] in rest;
        } else {
          assert r[i] == rest[i - |head|] && r[j] == rest[j - |head|];
        }
      }
    }
  }

  /** Filtering twice keeps the later window start. */
  lemma {:induction false} InWindowTwice(ts: seq<int>, a: int, b: int)
    requires a <= b
    ensures InWindow(InWindow(ts, a), b) == InWindow(ts, b)
  {
    if |ts| > 0 {
      InWindowTwice(ts[1..], a, b);
      InWindowAppend(if ts[0] > a then [ts[0]] else [], InWindow(ts[1..], a), b);
    }
  }

  /** Calls at nondecreasing times keep every list sorted and not later than the clock. */
  lemma CheckKeepsSorted(limits: Limits, userId: string, actionType: string, opts: Options, now: int, later: int)
    requires SortedUpTo(limits, now)
    requires now <= later
    ensures SortedUpTo(Check(limits, userId, actionType, opts, now).limits, later)
  {
    var key := Key(userId, actionType);
    var d := Check(limits, userId, actionType, opts, now);
    if d.result.Ok? {
      var kept := InWindow(Stored(limits, key), now - WindowMs(opts));
      InWindowSorted(Stored(limits, key), now - WindowMs(opts));
      forall i | 0 <= i < |kept| ensures kept[i] <= now {
        assert kept[i] in kept;
        assert kept[i] in Stored(limits, key);
      }
      assert Sorted(kept + [now]);
    }
  }

  /** No operation leaves an empty list behind. */
  lemma CheckKeepsNonEmpty(limits: Limits, userId: string, actionType: string, opts: Options, now: int)
    requires NonEmptyLists(limits)
    ensures NonEmptyLists(Check(limits, userId, actionType, opts, now).limits)
  {
  }

  lemma PrunedNonEmpty(limits: Limits, now: int, w: int)
    ensures NonEmptyLists(Pruned(limits, now, w))
  {
  }

  /** `getRemainingRequests` predicts `checkLimit`: something remains exactly when the call would pass. */
  lemma RemainingPredictsCheck(rl: RateLimiter, userId: string, actionType: string, opts: Options, now: int)
    ensures rl.GetRemainingRequests(userId, actionType, opts, now).remaining > 0
            <==> Check(rl.limits, userId, actionType, opts, now).result.Ok?
  {
  }

  /** When the call would be refused, the reset time reported is its retry delay. */
  lemma ResetTimeIsRetryAfter(rl: RateLimiter, userId: string, actionType: string, opts: Options, now: int)
    requires MaxRequests(opts) >= 1
    requires Check(rl.limits, userId, actionType, opts, now).result.Err?
    ensures Check(rl.limits, userId, actionType, opts, now).result.error.retryAfter
            == Secs(rl.GetRemainingRequests(userId, actionType, opts, now).resetTime)
  {
  }

  lemma StoredPruned(limits: Limits, now: int, w: int, key: string)
    ensures Stored(Pruned(limits, now, w), key) == InWindow(Stored(limits, key), now - w)
  {
  }

  /**
   * Pruning with a window at least as long as the caller's changes no later
   * decision for any key: the result and the key's new list are the same.
   */
  lemma PruneKeepsDecisions(limits: Limits, now: int, maxWindow: int,
                            userId: string, actionType: string, opts: Options, later: int)
    requires WindowMs(opts) <= maxWindow && now <= later
    ensures var key := Key(userId, actionType);
            var before := Check(limits, userId, actionType, opts, later);
            var after := Check(Pruned(limits, now, maxWindow), userId, actionType, opts, later);
            after.result == before.result &&
            (after.result.Ok? ==> Stored(after.limits, key) == Stored(before.limits, key))
  {
    var key := Key(userId, actionType);
    StoredPruned(limits, now, maxWindow, key);
    InWindowTwice(Stored(limits, key), now - maxWindow, later - WindowMs(opts));
    SameWindowSameDecision(Pruned(limits, now, maxWindow), limits, userId, actionType, opts, later);
  }

  /** A decision depends only on the key's timestamps inside the window. */
  lemma SameWindowSameDecision(l1: Limits, l2: Limits, userId: string, actionType: string, opts: Options, now: int)
    requires InWindow(Stored(l1, Key(userId, actionType)), now - WindowMs(opts))
          == InWindow(Stored(l2, Key(userId, actionType)), now - WindowMs(opts))
    ensures Check(l1, userId, actionType, opts, now).result == Check(l2, userId, actionType, opts, now).result
    ensures Check(l1, userId, actionType, opts, now).result.Ok? ==>
              Stored(Check(l1, userId, actionType, opts, now).limits, Key(userId, actionType))
              == Stored(Check(l2, userId, actionType, opts, now).limits, Key(userId, actionType))
  {
  }

  /** Every window in use is covered by LongestWindowMs. */
  lemma PruneLongestKeepsImageDecisions(limits: Limits, now: int, userId: string, later: int)
    requires now <= later
    ensures var opts := Options(Some(300000), Some(3));
            Check(Pruned(limits, now, LongestWindowMs), userId, "image_generation", opts, later).result
            == Check(limits, userId, "image_generation", opts, later).result
  {
    PruneKeepsDecisions(limits, now, LongestWindowMs, userId, "image_generation", Options(Some(300000), Some(3)), later);
  }

  /**
   * `cleanup` as written forgets image requests still inside their
   * five-minute window: three requests at 0, 1 and 2 s block a fourth at
   * 62.001 s, but not once `cleanup` has run at that instant.
   */
  lemma CleanupForgetsImageRequests()
    ensures var limits := map["u_image_generation" := [0, 1000, 2000]];
            var opts := Options(Some(300000), Some(3));
            Check(limits, "u", "image_generation", opts, 62001).result.Err? &&
            Check(Pruned(limits, 62001, DefaultWindowMs), "u", "image_generation", opts, 62001).result.Ok?
  {
    ThreeImagesBlockAFourth();
    CleanupAtTheFourthForgetsAll();
  }

  lemma ThreeImagesBlockAFourth()
    ensures Check(map["u_image_generation" := [0, 1000, 2000]], "u", "image_generation", Options(Some(300000), Some(3)), 62001).result.Err?
  {
    assert Key("u", "image_generation") == "u_image_generation";
    assert InWindow([0, 1000, 2000], 62001 - 300000) == [0, 1000, 2000];
  }

  lemma CleanupAtTheFourthForgetsAll()
    ensures Pruned(map["u_image_generation" := [0, 1000, 2000]], 62001, DefaultWindowMs) == map[]
    ensures Check(map[], "u", "image_generation", Options(Some(300000), Some(3)), 62001).result.Ok?
  {
    assert InWindow([0, 1000, 2000], 62001 - 60000) == [];
  }
}
