/**
 The in-memory rate limiter: a bucket refilled to its full size once a window has passed since the last
 refill. Times and windows are in nanoseconds.
 */
module RateLimit {
  import opened Text

  datatype Bucket = Bucket(tokens: int, maxTokens: int, lastRefillAt: int, window: int)

  datatype Rule = Rule(keyPrefix: string, limit: int, window: int)

  function Fresh(rule: Rule, now: int): Bucket {
    Bucket(rule.limit, rule.limit, now, rule.window)
  }

  function Refilled(b: Bucket, now: int): Bucket {
    if now - b.lastRefillAt >= b.window then b.(tokens := b.maxTokens, lastRefillAt := now) else b
  }

  /** One call: the bucket it leaves, and whether it is allowed. */
  function Take(b: Bucket, now: int): (Bucket, bool) {
    var r := Refilled(b, now);
    if r.tokens > 0 then (r.(tokens := r.tokens - 1), true) else (r, false)
  }

  // ---- The calls of one bucket, in order ----

  /** The bucket after the calls at the given times. The first call creates it. */
  function After(rule: Rule, calls: seq<int>): Bucket
    requires calls != []
  {
    var now := calls[|calls| - 1];
    Take(if |calls| == 1 then Fresh(rule, now) else After(rule, calls[..|calls| - 1]), now).0
  }

  /** Whether call n is allowed. */
  function Allowed(rule: Rule, calls: seq<int>, n: nat): bool
    requires n < |calls|
  {
    Take(if n == 0 then Fresh(rule, calls[0]) else After(rule, calls[..n]), calls[n]).1
  }

  /** The number of allowed calls among those with index from i up to j. */
  function Count(rule: Rule, calls: seq<int>, i: nat, j: nat): nat
    requires i <= j <= |calls|
  {
    if i == j then 0 else Count(rule, calls, i, j - 1) + if Allowed(rule, calls, j - 1) then 1 else 0
  }

  ghost predicate Ordered(calls: seq<int>) {
    forall i, j | 0 <= i < j < |calls| :: calls[i] <= calls[j]
  }

  /** What a call sees before it is served. */
  function Before(rule: Rule, calls: seq<int>, n: nat): Bucket
    requires n < |calls|
  {
    if n == 0 then Fresh(rule, calls[0]) else After(rule, calls[..n])
  }

  lemma BeforeNext(rule: Rule, calls: seq<int>, n: nat)
    requires n + 1 < |calls|
    ensures Before(rule, calls, n + 1) == Take(Before(rule, calls, n), calls[n]).0
  {
    assert calls[..n + 1][..n] == calls[..n];
  }

  function Max(a: int, b: int): int {
    if a < b then b else a
  }

  lemma {:induction false} BucketOk(rule: Rule, calls: seq<int>, n: nat)
    requires Ordered(calls) && n < |calls| && 0 < rule.window
    ensures var b := Before(rule, calls, n);
            && b.maxTokens == rule.limit && b.window == rule.window
            && b.lastRefillAt <= calls[n]
            && (0 < n && 0 < rule.limit ==> 0 <= b.tokens < rule.limit)
            && (0 < rule.limit ==> 0 <= b.tokens <= rule.limit)
            && (rule.limit <= 0 ==> b.tokens <= 0)
  {
    if n > 0 {
      BucketOk(rule, calls, n - 1);
      BeforeNext(rule, calls, n - 1);
    }
  }

  /**
   Calls less than a window apart: before the first refill among them they use up what the bucket held, and
   there is at most one refill. left is the bucket as the last of these calls leaves it.
   */
  lemma {:induction false} CountWithinWindow(rule: Rule, calls: seq<int>, i: nat, j: nat) returns (refilled: bool)
    requires Ordered(calls) && i < j <= |calls| && 0 < rule.window && 0 < rule.limit
    requires calls[j - 1] < calls[i] + rule.window
    ensures var left := Take(Before(rule, calls, j - 1), calls[j - 1]).0;
            && 0 <= left.tokens
            && (!refilled ==> Count(rule, calls, i, j) + left.tokens == Before(rule, calls, i).tokens)
            && (refilled ==> && Count(rule, calls, i, j) + left.tokens <= Before(rule, calls, i).tokens + rule.limit
                             && calls[i] <= left.lastRefillAt)
  {
    BucketOk(rule, calls, j - 1);
    if j == i + 1 {
      assert Count(rule, calls, i, i) == 0;
      refilled := calls[i] - Before(rule, calls, i).lastRefillAt >= rule.window;
    } else {
      var earlier := CountWithinWindow(rule, calls, i, j - 1);
      BucketOk(rule, calls, j - 2);
      BeforeNext(rule, calls, j - 2);
      refilled := earlier || calls[j - 1] - Before(rule, calls, j - 1).lastRefillAt >= rule.window;
    }
  }

  /**
   Any half-open interval one window long sees at most 2 * limit - 1 allowed calls, one fewer than twice the
   limit: its first call either created the bucket or found a token already spent. Calls i up to j are those
   of an interval when the last starts less than a window after the first.
   */
  lemma AtMostTwiceTheLimit(rule: Rule, calls: seq<int>, i: nat, j: nat)
    requires Ordered(calls) && i < j <= |calls| && 0 < rule.window
    requires calls[j - 1] < calls[i] + rule.window
    ensures Count(rule, calls, i, j) <= Max(2 * rule.limit - 1, 0)
  {
    if 0 < rule.limit {
      var refilled := CountWithinWindow(rule, calls, i, j);
      BucketOk(rule, calls, i);
      if i == 0 && refilled {
        FirstWindowHasNoRefill(rule, calls, j);
      }
    } else {
      NothingAllowed(rule, calls, i, j);
    }
  }

  lemma {:induction false} FirstWindowHasNoRefill(rule: Rule, calls: seq<int>, j: nat)
    requires Ordered(calls) && 0 < j <= |calls| && 0 < rule.window && 0 < rule.limit
    requires calls[j - 1] < calls[0] + rule.window
    ensures var left := Take(Before(rule, calls, j - 1), calls[j - 1]).0;
            left.lastRefillAt == calls[0] && Count(rule, calls, 0, j) + left.tokens == rule.limit && 0 <= left.tokens
  {
    BucketOk(rule, calls, j - 1);
    if j == 1 {
      assert Count(rule, calls, 0, 0) == 0;
    } else {
      FirstWindowHasNoRefill(rule, calls, j - 1);
      BeforeNext(rule, calls, j - 2);
    }
  }

  lemma {:induction false} NothingAllowed(rule: Rule, calls: seq<int>, i: nat, j: nat)
    requires Ordered(calls) && i <= j <= |calls| && 0 < rule.window && rule.limit <= 0
    ensures Count(rule, calls, i, j) == 0
  {
    if i < j {
      NothingAllowed(rule, calls, i, j - 1);
      BucketOk(rule, calls, j - 1);
    }
  }

  /** n times a, as a sum, to keep products out of the induction. */
  function Times(n: nat, a: int): int {
    if n == 0 then 0 else Times(n - 1, a) + a
  }

  lemma {:induction false} TimesIsProduct(n: nat, a: int)
    ensures Times(n, a) == n * a
  {
    if n > 0 {
      TimesIsProduct(n - 1, a);
    }
  }

  lemma {:induction false} TimesGrows(m: nat, n: nat, a: nat)
    requires m <= n
    ensures Times(m, a) <= Times(n, a)
  {
    if m < n {
      TimesGrows(m, n - 1, a);
    }
  }

  lemma PerWindow(refills: nat, windows: nat, limit: nat)
    requires 1 + refills <= windows
    ensures Times(1 + refills, limit) <= limit * windows
  {
    TimesGrows(1 + refills, windows, limit);
    TimesIsProduct(windows, limit);
  }

  lemma {:induction false} CountRefills(rule: Rule, calls: seq<int>, j: nat) returns (refills: nat)
    requires Ordered(calls) && 0 < j <= |calls| && 0 < rule.window && 0 < rule.limit
    ensures var left := Take(Before(rule, calls, j - 1), calls[j - 1]).0;
            && 0 <= left.tokens
            && Count(rule, calls, 0, j) + left.tokens <= Times(1 + refills, rule.limit)
            && calls[0] + Times(refills, rule.window) <= left.lastRefillAt <= calls[j - 1]
  {
    BucketOk(rule, calls, j - 1);
    if j == 1 {
      assert Count(rule, calls, 0, 0) == 0;
      refills := 0;
    } else {
      refills := CountRefills(rule, calls, j - 1);
      BeforeNext(rule, calls, j - 2);
      if calls[j - 1] - Before(rule, calls, j - 1).lastRefillAt >= rule.window {
        refills := refills + 1;
      }
    }
  }

  /** The windows begun from the creation of the bucket to its last call. */
  function WindowsBegun(rule: Rule, calls: seq<int>): int
    requires calls != [] && 0 < rule.window
  {
    1 + (calls[|calls| - 1] - calls[0]) / rule.window
  }

  lemma RefillsFit(rule: Rule, calls: seq<int>, refills: nat)
    requires calls != [] && 0 < rule.window
    requires Times(refills, rule.window) <= calls[|calls| - 1] - calls[0]
    ensures 1 + refills <= WindowsBegun(rule, calls)
  {
    TimesIsProduct(refills, rule.window);
    var elapsed := calls[|calls| - 1] - calls[0];
    var q := elapsed / rule.window;
    assert refills * rule.window < (q + 1) * rule.window;
    assert 0 < (q + 1 - refills) * rule.window;
  }

  /** From its creation to its last call, a bucket allows at most the limit for each window begun. */
  lemma AtMostLimitPerWindow(rule: Rule, calls: seq<int>)
    requires Ordered(calls) && calls != [] && 0 < rule.window && 0 <= rule.limit
    ensures Count(rule, calls, 0, |calls|) <= rule.limit * WindowsBegun(rule, calls)
  {
    hide WindowsBegun, Times, Count;
    if rule.limit == 0 {
      NothingAllowed(rule, calls, 0, |calls|);
    } else {
      var refills := CountRefills(rule, calls, |calls|);
      RefillsFit(rule, calls, refills);
      PerWindow(refills, WindowsBegun(rule, calls), rule.limit);
    }
  }

  // ---- Each answer, from the times alone ----

  /** The call that opened the window in which call n falls: the first one a window or more after the last opening. */
  function Opening(window: int, calls: seq<int>, n: nat): (o: nat)
    requires n < |calls|
    ensures o <= n
  {
    if n == 0 then 0 else
    var o := Opening(window, calls, n - 1);
    if calls[n] >= calls[o] + window then n else o
  }

  lemma {:induction false} BucketInWindow(rule: Rule, calls: seq<int>, n: nat)
    requires n < |calls|
    ensures var left, o := Take(Before(rule, calls, n), calls[n]).0, Opening(rule.window, calls, n);
            && left.maxTokens == rule.limit && left.window == rule.window
            && left.lastRefillAt == calls[o]
            && left.tokens == if rule.limit <= 0 then rule.limit else Max(rule.limit - (n - o + 1), 0)
  {
    if n > 0 {
      BucketInWindow(rule, calls, n - 1);
      BeforeNext(rule, calls, n - 1);
    }
  }

  /**
   The bucket decides as a counter per window would: a call is allowed exactly when fewer than the limit came before it
   since the call that opened its window.
   */
  lemma AllowedIff(rule: Rule, calls: seq<int>, n: nat)
    requires n < |calls|
    ensures Allowed(rule, calls, n) <==> n - Opening(rule.window, calls, n) < rule.limit
  {
    if n > 0 {
      BucketInWindow(rule, calls, n - 1);
      BeforeNext(rule, calls, n - 1);
    }
  }

  /** In particular a call a window or more after the last refill finds the bucket full and leaves one token fewer. */
  lemma RefillFillsUp(rule: Rule, calls: seq<int>, n: nat)
    requires 0 < n < |calls| && 0 < rule.limit
    requires calls[n] >= After(rule, calls[..n]).lastRefillAt + rule.window
    ensures Allowed(rule, calls, n)
    ensures After(rule, calls[..n + 1]) == Bucket(rule.limit - 1, rule.limit, calls[n], rule.window)
  {
    BucketInWindow(rule, calls, n - 1);
    BeforeNext(rule, calls, n - 1);
    assert calls[..n + 1][..n] == calls[..n];
  }

  // ---- The bound is met ----

  /** One call at the start, the rest of the first window's tokens at its last instant, a full limit right after. */
  function Burst(rule: Rule): seq<int>
    requires 0 < rule.limit
  {
    seq(2 * rule.limit, n => if n == 0 then 0 else if n < rule.limit then rule.window - 1 else rule.window)
  }

  lemma {:induction false} BurstBucket(rule: Rule, n: nat)
    requires 0 < rule.limit && 1 < rule.window && 1 <= n < 2 * rule.limit
    ensures Before(rule, Burst(rule), n) ==
            if n <= rule.limit then Bucket(rule.limit - n, rule.limit, 0, rule.window)
            else Bucket(2 * rule.limit - n, rule.limit, rule.window, rule.window)
  {
    BeforeNext(rule, Burst(rule), n - 1);
    if n > 1 {
      BurstBucket(rule, n - 1);
    }
  }

  lemma {:induction false} BurstCount(rule: Rule, j: nat)
    requires 0 < rule.limit && 1 < rule.window && 1 <= j <= 2 * rule.limit
    ensures Count(rule, Burst(rule), 1, j) == j - 1
  {
    if j > 1 {
      BurstCount(rule, j - 1);
      BurstBucket(rule, j - 1);
    }
  }

  /** No smaller bound holds: for every limit some run allows 2 * limit - 1 calls in less than one window. */
  lemma BoundIsTight(rule: Rule)
    requires 0 < rule.limit && 1 < rule.window
    ensures var calls := Burst(rule);
            && Ordered(calls) && |calls| == 2 * rule.limit
            && calls[|calls| - 1] < calls[1] + rule.window
            && Count(rule, calls, 1, |calls|) == 2 * rule.limit - 1
  {
    BurstCount(rule, 2 * rule.limit);
  }

  // ---- The limiter ----

  function BucketKey(prefix: string, key: string): string {
    prefix + ":" + key
  }

  /** Rules whose prefixes hold no colon never share a bucket, whatever the keys hold; IPv6 addresses have colons. */
  lemma BucketsAreApart(p: string, k: string, q: string, l: string)
    requires ':' !in p && ':' !in q && BucketKey(p, k) == BucketKey(q, l)
    ensures p == q && k == l
  {
    CutAtFirst(p, k, q, l, ':');
  }

  /** Serving one more call extends the history by it. */
  lemma ServeNext(rule: Rule, calls: seq<int>, now: int)
    ensures var more := calls + [now];
            var b := if calls == [] then Fresh(rule, now) else After(rule, calls);
            After(rule, more) == Take(b, now).0 && Allowed(rule, more, |calls|) == Take(b, now).1
  {
    assert (calls + [now])[..|calls|] == calls;
  }

  /** The buckets are what the calls so far made of them; each has the rule it was created under. */
  ghost predicate Explains(history: map<string, (Rule, seq<int>)>, buckets: map<string, Bucket>) {
    && buckets.Keys == history.Keys
    && forall k | k in buckets :: history[k].1 != [] && buckets[k] == After(history[k].0, history[k].1)
  }

  ghost function HistoryOf(history: map<string, (Rule, seq<int>)>, k: string, rule: Rule): (Rule, seq<int>) {
    if k in history then history[k] else (rule, [])
  }

  function BucketOf(buckets: map<string, Bucket>, k: string, rule: Rule, now: int): Bucket {
    if k in buckets then buckets[k] else Fresh(rule, now)
  }

  lemma ServedIsExplained(
    history: map<string, (Rule, seq<int>)>, buckets: map<string, Bucket>, k: string, rule: Rule, now: int)
    requires Explains(history, buckets)
    ensures var (r, calls) := HistoryOf(history, k, rule);
            var (after, allowed) := Take(BucketOf(buckets, k, rule, now), now);
            && allowed == Allowed(r, calls + [now], |calls|)
            && Explains(history[k := (r, calls + [now])], buckets[k := after])
  {
    var (r, calls) := HistoryOf(history, k, rule);
    ServeNext(r, calls, now);
    hide After, Take;
  }

  class MemoryRateLimiter {
    var buckets: map<string, Bucket>
    ghost var history: map<string, (Rule, seq<int>)>   // the rule a bucket was created under, and its calls

    ghost predicate Valid()
      reads this
    {
      Explains(history, buckets)
    }

    constructor ()
      ensures Valid() && buckets == map[]
    {
      buckets, history := map[], map[];
    }

    /**
     A bucket keeps the rule of its creation, and each answer is that of the call's place in its history. The
     reset time is measured before a refill, so a call that refills the bucket reports zero or less.
     */
    method Allow(key: string, rule: Rule, now: int) returns (allowed: bool, remaining: int, resetAfter: int)
      requires Valid()
      modifies this
      ensures Valid()
      ensures var k := BucketKey(rule.keyPrefix, key);
              var (r, calls) := HistoryOf(old(history), k, rule);
              && history == old(history)[k := (r, calls + [now])]
              && allowed == Allowed(r, calls + [now], |calls|)
      ensures var k := BucketKey(rule.keyPrefix, key);
              var b := BucketOf(old(buckets), k, rule, now);
              && buckets == old(buckets)[k := Take(b, now).0]
              && remaining == (if allowed then buckets[k].tokens else 0)
              && resetAfter == b.window - (now - b.lastRefillAt)
              && (resetAfter <= 0 ==> Refilled(b, now).lastRefillAt == now)
    {
      var k := BucketKey(rule.keyPrefix, key);
      ghost var (r, calls) := HistoryOf(history, k, rule);
      ServedIsExplained(history, buckets, k, rule, now);
      hide After, Allowed, Explains, BucketKey;
      var b;
      if k !in buckets {
        b := Bucket(rule.limit, rule.limit, now, rule.window);
      } else {
        b := buckets[k];
      }
      var elapsed := now - b.lastRefillAt;
      if elapsed >= b.window {
        b := b.(tokens := b.maxTokens, lastRefillAt := now);
      }
      allowed := b.tokens > 0;
      if allowed {
        b := b.(tokens := b.tokens - 1);
      }
      remaining := if allowed then b.tokens else 0;
      resetAfter := b.window - elapsed;
      buckets := buckets[k := b];
      history := history[k := (r, calls + [now])];
    }

    method Reset(key: string, prefix: string)
      requires Valid()
      modifies this
      ensures Valid() && buckets == old(buckets) - {BucketKey(prefix, key)}
    {
      buckets := buckets - {BucketKey(prefix, key)};
      history := history - {BucketKey(prefix, key)};
    }
  }
}
