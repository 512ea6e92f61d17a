/** What one call of the limiter does to its table, and how long it tells a refused caller to wait. */
module RateLimiterRecords {
  import opened RateLimiter

  /** The entries that are still inside the window, from the first one on. */
  predicate LiveTail(times: seq<real>, left: seq<real>, cutoff: real) {
    && |left| <= |times| && left == times[|times| - |left|..]
    && (forall i :: 0 <= i < |times| - |left| ==> times[i] <= cutoff)
    && (left != [] ==> left[0] > cutoff)
  }

  /**
    Pruning keeps the overflow bucket, without its stale front, and every other bucket whose last entry
    is inside the window, as it is; the others go.
  */
  lemma PruneRecords(buckets: Buckets, cutoff: real)
    ensures var pruned := Pruned(buckets, cutoff);
      && (forall key :: key in pruned <==>
            key in buckets && (key == OVERFLOW || (buckets[key] != [] && buckets[key][|buckets[key]| - 1] > cutoff)))
      && (forall key :: key in pruned && key != OVERFLOW ==> pruned[key] == buckets[key])
      && (OVERFLOW in pruned ==> LiveTail(buckets[OVERFLOW], pruned[OVERFLOW], cutoff))
  {
    if OVERFLOW in buckets { DropFacts(buckets[OVERFLOW], cutoff); }
    hide DropStale;
  }

  /** A known key pays into its own bucket; a new one gets one after a pruning that makes room, and shares the overflow bucket otherwise. */
  lemma LookupRecords(l: Limits, buckets: Buckets, key: string, cutoff: real)
    ensures var (table, name) := Lookup(l, buckets, key, cutoff);
      && (key in buckets ==> table == buckets && name == key)
      && (key !in buckets && |Pruned(buckets, cutoff)| < l.maxBuckets ==> table == Pruned(buckets, cutoff)[key := []] && name == key)
      && (key !in buckets && |Pruned(buckets, cutoff)| >= l.maxBuckets ==> table == Pruned(buckets, cutoff) && name == OVERFLOW)
  {
    hide Pruned;
  }

  /**
    The bucket that pays loses its stale front. The call is refused, and then not recorded, exactly if
    as many entries as the limit remain; otherwise its time is added, and every 512th admission prunes.
  */
  lemma ChargeRecords(l: Limits, buckets: Buckets, requests: nat, name: string, now: real) returns (left: seq<real>)
    requires l.Ok() && OVERFLOW in buckets && name in buckets
    ensures LiveTail(buckets[name], left, now - l.window)
    ensures var (s, charged, verdict) := Charge(l, buckets, requests, name, now);
      && charged == name && (verdict == Allowed <==> |left| < l.limit) && (verdict.Allowed? || verdict.RetryAfter?)
      && (verdict.RetryAfter? ==> s.requests == requests && s.buckets == buckets[name := left])
      && (verdict.Allowed? ==> s.requests == requests + 1)
      && (verdict.Allowed? && (requests + 1) % 512 != 0 ==> s.buckets == buckets[name := left + [now]])
      && (verdict.Allowed? && (requests + 1) % 512 == 0 ==> s.buckets == Pruned(buckets[name := left + [now]], now - l.window))
  {
    hide DropStale, Pruned, LiveTail;
    left := DropStale(buckets[name], now - l.window);
    LeftIsLive(buckets[name], now - l.window);
  }

  lemma LeftIsLive(times: seq<real>, cutoff: real)
    ensures LiveTail(times, DropStale(times, cutoff), cutoff)
  {
    hide DropStale;
    DropFacts(times, cutoff);
  }

  /** The answered wait is the least whole number of seconds after which the oldest entry has left the window. */
  lemma WaitIsLeast(l: Limits, buckets: Buckets, requests: nat, name: string, now: real)
    requires l.Ok() && OVERFLOW in buckets && name in buckets && Charge(l, buckets, requests, name, now).2.RetryAfter?
    requires forall i :: 0 <= i < |buckets[name]| ==> buckets[name][i] <= now
    ensures var (s, _, verdict) := Charge(l, buckets, requests, name, now);
      && name in s.buckets && s.buckets[name] != []
      && verdict.seconds >= 1
      && now + verdict.seconds as real - l.window > s.buckets[name][0]
      && now + (verdict.seconds - 1) as real - l.window <= s.buckets[name][0]
  {
    DropFacts(buckets[name], now - l.window);
    hide DropStale, Pruned;
  }
}
