/**
 * Admission control: a fixed-window request limiter kept in a per-process
 * map from key to bucket, and a per-session daily job quota kept in the
 * `session_usage` table.
 */
module RateLimit {
  import opened Wrappers

  /** A live window: how many calls it has admitted and when it ends, in milliseconds. */
  datatype Bucket = Bucket(count: int, resetAt: int)

  /** The answer to one call of `enforceRateLimit`. */
  datatype Decision = Decision(allowed: bool, remaining: int, resetAt: int)

  /** The bucket for `key` has run out, or there is none: the call opens a new window. */
  predicate OpensWindow(buckets: map<string, Bucket>, key: string, now: int) {
    key !in buckets || buckets[key].resetAt <= now
  }

  /** What `enforceRateLimit` answers. */
  function Decide(buckets: map<string, Bucket>, key: string, limit: int, windowMs: int, now: int): (d: Decision)
    ensures d.remaining >= 0
    ensures OpensWindow(buckets, key, now) ==> d == Decision(true, MaxInt(0, limit - 1), now + windowMs)
    ensures !OpensWindow(buckets, key, now) ==> d.resetAt == buckets[key].resetAt
    ensures !OpensWindow(buckets, key, now) ==> (d.allowed <==> buckets[key].count < limit)
    ensures !OpensWindow(buckets, key, now) && buckets[key].count >= limit ==> d.remaining == 0
    ensures !OpensWindow(buckets, key, now) && buckets[key].count < limit
            ==> d.remaining == MaxInt(0, limit - (buckets[key].count + 1))
  {
    if OpensWindow(buckets, key, now) then Decision(true, MaxInt(0, limit - 1), now + windowMs)
    else if buckets[key].count >= limit then Decision(false, 0, buckets[key].resetAt)
    else Decision(true, MaxInt(0, limit - (buckets[key].count + 1)), buckets[key].resetAt)
  }

  /** The bucket map after the call. */
  function After(buckets: map<string, Bucket>, key: string, limit: int, windowMs: int, now: int): (b: map<string, Bucket>)
    ensures key in b
    ensures OpensWindow(buckets, key, now) ==> b[key] == Bucket(1, now + windowMs)
    ensures !OpensWindow(buckets, key, now) && buckets[key].count >= limit ==> b == buckets
    ensures !OpensWindow(buckets, key, now) && buckets[key].count < limit
            ==> b[key] == Bucket(buckets[key].count + 1, buckets[key].resetAt)
    ensures forall k :: k != key ==> (k in b <==> k in buckets) && (k in b ==> b[k] == buckets[k])
  {
    if OpensWindow(buckets, key, now) then buckets[key := Bucket(1, now + windowMs)]
    else if buckets[key].count >= limit then buckets
    else buckets[key := Bucket(buckets[key].count + 1, buckets[key].resetAt)]
  }

  /** The module-level `requestBuckets` map and `enforceRateLimit`; the clock reading is a parameter. */
  class RateLimiter {
    var buckets: map<string, Bucket>

    constructor()
      ensures buckets == map[]
    {
      buckets := map[];
    }

    method Enforce(key: string, limit: int, windowMs: int, now: int) returns (d: Decision)
      modifies this
      ensures d == Decide(old(buckets), key, limit, windowMs, now)
      ensures buckets == After(old(buckets), key, limit, windowMs, now)
    {
      if key !in buckets || buckets[key].resetAt <= now {
        var resetAt := now + windowMs;
        buckets := buckets[key := Bucket(1, resetAt)];
        return Decision(true, MaxInt(0, limit - 1), resetAt);
      }
      var current := buckets[key];
      if current.count >= limit {
        return Decision(false, 0, current.resetAt);
      }
      current := current.(count := current.count + 1);
      buckets := buckets[key := current];
      d := Decision(true, MaxInt(0, limit - current.count), current.resetAt);
    }
  }

  // ---------------------------------------------------------------------------
  // Several calls for one key
  // ---------------------------------------------------------------------------

  /** The buckets after calls for `key` at the given times, in order. */
  function AfterCalls(buckets: map<string, Bucket>, key: string, limit: int, windowMs: int, times: seq<int>): map<string, Bucket>
    decreases |times|
  {
    if times == [] then buckets
    else AfterCalls(After(buckets, key, limit, windowMs, times[0]), key, limit, windowMs, times[1..])
  }

  /** How many of those calls were allowed. */
  function AllowedCalls(buckets: map<string, Bucket>, key: string, limit: int, windowMs: int, times: seq<int>): nat
    decreases |times|
  {
    if times == [] then 0
    else (if Decide(buckets, key, limit, windowMs, times[0]).allowed then 1 else 0)
         + AllowedCalls(After(buckets, key, limit, windowMs, times[0]), key, limit, windowMs, times[1..])
  }

  /**
   * Inside a live window that has admitted `count` calls, later calls before
   * the window ends are admitted only up to the limit, and the count keeps
   * track of them.
   */
  lemma {:induction false} LiveWindowBound(buckets: map<string, Bucket>, key: string, limit: int, windowMs: int, times: seq<int>)
    requires key in buckets
    requires forall j :: 0 <= j < |times| ==> times[j] < buckets[key].resetAt
    ensures AllowedCalls(buckets, key, limit, windowMs, times) <= MaxInt(0, limit - buckets[key].count)
    ensures var b := AfterCalls(buckets, key, limit, windowMs, times);
      key in b && b[key].resetAt == buckets[key].resetAt
      && b[key].count == buckets[key].count + AllowedCalls(buckets, key, limit, windowMs, times)
    decreases |times|
  {
    if times != [] {
      var next := After(buckets, key, limit, windowMs, times[0]);
      assert forall j :: 0 <= j < |times[1..]| ==> times[1..][j] == times[j + 1];
      LiveWindowBound(next, key, limit, windowMs, times[1..]);
    }
  }

  /**
   * For a limit of at least one, a window admits at most `limit` calls: the
   * call that opens it and the calls before it ends.
   */
  lemma AtMostLimitPerWindow(buckets: map<string, Bucket>, key: string, limit: int, windowMs: int, opening: int, times: seq<int>)
    requires limit >= 1 && OpensWindow(buckets, key, opening)
    requires forall j :: 0 <= j < |times| ==> times[j] < opening + windowMs
    ensures AllowedCalls(buckets, key, limit, windowMs, [opening] + times) <= limit
  {
    var live := After(buckets, key, limit, windowMs, opening);
    assert ([opening] + times)[1..] == times;
    LiveWindowBound(live, key, limit, windowMs, times);
  }

  /** With a limit of zero or less, the call that opens a window is still admitted; none after it in that window is. */
  lemma NonPositiveLimitAdmitsOpening(buckets: map<string, Bucket>, key: string, limit: int, windowMs: int, opening: int, times: seq<int>)
    requires limit <= 0 && OpensWindow(buckets, key, opening)
    requires forall j :: 0 <= j < |times| ==> times[j] < opening + windowMs
    ensures Decide(buckets, key, limit, windowMs, opening).allowed
    ensures AllowedCalls(buckets, key, limit, windowMs, [opening] + times) == 1
  {
    var live := After(buckets, key, limit, windowMs, opening);
    assert ([opening] + times)[1..] == times;
    LiveWindowBound(live, key, limit, windowMs, times);
  }

  // ---------------------------------------------------------------------------
  // The daily job quota
  // ---------------------------------------------------------------------------

  /** A row key of `session_usage`: the session and the UTC day. */
  datatype UsageKey = UsageKey(sessionId: string, day: string)

  /** `existing?.jobs_count ?? 0`. */
  function CountOf(usage: map<UsageKey, int>, k: UsageKey): int {
    if k in usage then usage[k] else 0
  }

  /** Whether the quota admits one more job, and how many remain after it. */
  datatype QuotaDecision = QuotaDecision(allowed: bool, remaining: int)

  function DecideQuota(usage: map<UsageKey, int>, k: UsageKey, maxJobsPerDay: int): (d: QuotaDecision)
    ensures d.allowed <==> CountOf(usage, k) < maxJobsPerDay
    ensures !d.allowed ==> d.remaining == 0
    ensures d.allowed ==> d.remaining == MaxInt(0, maxJobsPerDay - (CountOf(usage, k) + 1))
  {
    if CountOf(usage, k) >= maxJobsPerDay then QuotaDecision(false, 0)
    else QuotaDecision(true, MaxInt(0, maxJobsPerDay - (CountOf(usage, k) + 1)))
  }

  function QuotaAfter(usage: map<UsageKey, int>, k: UsageKey, maxJobsPerDay: int): (u: map<UsageKey, int>)
    ensures CountOf(usage, k) >= maxJobsPerDay ==> u == usage
    ensures CountOf(usage, k) < maxJobsPerDay ==> u == usage[k := CountOf(usage, k) + 1]
  {
    if CountOf(usage, k) >= maxJobsPerDay then usage else usage[k := CountOf(usage, k) + 1]
  }

  /** The `session_usage` table and `consumeDailyJobQuota`; the day is a parameter. */
  class UsageTable {
    var usage: map<UsageKey, int>

    constructor()
      ensures usage == map[]
    {
      usage := map[];
    }

    method ConsumeDailyJobQuota(sessionId: string, day: string, maxJobsPerDay: int) returns (d: QuotaDecision)
      modifies this
      ensures d == DecideQuota(old(usage), UsageKey(sessionId, day), maxJobsPerDay)
      ensures usage == QuotaAfter(old(usage), UsageKey(sessionId, day), maxJobsPerDay)
    {
      var k := UsageKey(sessionId, day);
      var existing := k in usage;
      var currentCount := if existing then usage[k] else 0;
      if currentCount >= maxJobsPerDay {
        return QuotaDecision(false, 0);
      }
      if existing {
        usage := usage[k := usage[k] + 1];
      } else {
        usage := usage[k := 1];
      }
      d := QuotaDecision(true, MaxInt(0, maxJobsPerDay - (currentCount + 1)));
    }
  }

  /** The table after `n` consumptions for one session and day. */
  function QuotaAfterN(usage: map<UsageKey, int>, k: UsageKey, maxJobsPerDay: int, n: nat): map<UsageKey, int> {
    if n == 0 then usage else QuotaAfter(QuotaAfterN(usage, k, maxJobsPerDay, n - 1), k, maxJobsPerDay)
  }

  /** How many of those consumptions were admitted. */
  function QuotaAdmitted(usage: map<UsageKey, int>, k: UsageKey, maxJobsPerDay: int, n: nat): nat {
    if n == 0 then 0
    else QuotaAdmitted(usage, k, maxJobsPerDay, n - 1)
         + (if DecideQuota(QuotaAfterN(usage, k, maxJobsPerDay, n - 1), k, maxJobsPerDay).allowed then 1 else 0)
  }

  /**
   * A day's quota is never exceeded: starting from a count within the quota,
   * any number of consumptions admits at most the jobs that remain, and the
   * stored count ends at most at the quota. Other rows are never touched.
   */
  lemma {:induction false} QuotaNeverExceeded(usage: map<UsageKey, int>, k: UsageKey, maxJobsPerDay: int, n: nat)
    requires 0 <= CountOf(usage, k) <= maxJobsPerDay
    ensures CountOf(QuotaAfterN(usage, k, maxJobsPerDay, n), k) <= maxJobsPerDay
    ensures CountOf(QuotaAfterN(usage, k, maxJobsPerDay, n), k) == CountOf(usage, k) + QuotaAdmitted(usage, k, maxJobsPerDay, n)
    ensures QuotaAdmitted(usage, k, maxJobsPerDay, n) <= maxJobsPerDay - CountOf(usage, k)
    ensures forall o :: o != k ==> CountOf(QuotaAfterN(usage, k, maxJobsPerDay, n), o) == CountOf(usage, o)
  {
    if n > 0 {
      QuotaNeverExceeded(usage, k, maxJobsPerDay, n - 1);
    }
  }
}
