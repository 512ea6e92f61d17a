/** The sliding-window limiter: a bounded table of buckets with one shared overflow bucket. */
module RateLimiter {
  import opened Wrappers

  const OVERFLOW := "__overflow__"

  datatype Limits = Limits(limit: nat, window: real, maxBuckets: nat) {
    predicate Ok() { limit >= 1 && window > 0.0 && maxBuckets >= 2 }
  }

  type Buckets = map<string, seq<real>>

  datatype Verdict = Allowed | RetryAfter(seconds: int)

  datatype State = State(buckets: Buckets, requests: nat)

  // ---------------------------------------------------------------- what one call does

  /** Entries at the front that have left the window are dropped. */
  function DropStale(times: seq<real>, cutoff: real): (kept: seq<real>)
    ensures |kept| <= |times|
  {
    if times != [] && times[0] <= cutoff then DropStale(times[1..], cutoff) else times
  }

  /** Exactly the longest front of stale entries goes. */
  lemma {:induction false} DropFacts(times: seq<real>, cutoff: real)
    ensures var kept := DropStale(times, cutoff); var gone := |times| - |kept|;
      && kept == times[gone..]
      && (forall i :: 0 <= i < gone ==> times[i] <= cutoff)
      && (kept != [] ==> kept[0] > cutoff)
  {
    if times != [] && times[0] <= cutoff {
      DropFacts(times[1..], cutoff);
      var gone := |times| - |DropStale(times, cutoff)|;
      assert times[1..][gone - 1..] == times[gone..];
      forall i | 0 <= i < gone ensures times[i] <= cutoff {
        assert i > 0 ==> times[i] == times[1..][i - 1];
      }
    }
  }

  predicate Idle(times: seq<real>, cutoff: real) {
    times == [] || times[|times| - 1] <= cutoff
  }

  function Pruned(buckets: Buckets, cutoff: real): Buckets {
    map key | key in buckets && (key == OVERFLOW || !Idle(buckets[key], cutoff)) ::
      if key == OVERFLOW then DropStale(buckets[key], cutoff) else buckets[key]
  }

  /** The table after the lookup, and the bucket that the key is charged to. */
  function Lookup(l: Limits, buckets: Buckets, key: string, cutoff: real): (Buckets, string) {
    if key in buckets then (buckets, key)
    else
      var pruned := Pruned(buckets, cutoff);
      if |pruned| < l.maxBuckets then (pruned[key := []], key) else (pruned, OVERFLOW)
  }

  function Allow(l: Limits, s: State, key: string, now: real): (r: (State, string, Verdict))
    requires l.Ok() && OVERFLOW in s.buckets
    ensures OVERFLOW in r.0.buckets
  {
    var cutoff := now - l.window;
    var (buckets, name) := Lookup(l, s.buckets, key, cutoff);
    Charge(l, buckets, s.requests, name, now)
  }

  /** The second half of a call: drop what left the window, then refuse or record. */
  function Charge(l: Limits, buckets: Buckets, requests: nat, name: string, now: real): (r: (State, string, Verdict))
    requires l.Ok() && OVERFLOW in buckets && name in buckets
    ensures OVERFLOW in r.0.buckets
  {
    var cutoff := now - l.window;
    var kept := DropStale(buckets[name], cutoff);
    if |kept| >= l.limit then
      (State(buckets[name := kept], requests), name, RetryAfter(WaitSeconds(l, kept[0], now)))
    else
      var filled := buckets[name := kept + [now]];
      (State(if (requests + 1) % 512 == 0 then Pruned(filled, cutoff) else filled, requests + 1), name, Allowed)
  }

  /** int() truncates, and the wait it is given is never negative. */
  function WaitSeconds(l: Limits, oldest: real, now: real): int {
    var seconds := (l.window - (now - oldest)).Floor + 1;
    if seconds < 1 then 1 else seconds
  }

  // ---------------------------------------------------------------- the history behind a state

  /** One admitted request: who asked, which bucket paid, and when. */
  datatype Admission = Admission(key: string, bucket: string, time: real)

  type History = seq<Admission>

  ghost function Times(h: History, bucket: string): seq<real> {
    if h == [] then []
    else
      var last := h[|h| - 1];
      Times(h[..|h| - 1], bucket) + if last.bucket == bucket then [last.time] else []
  }

  ghost predicate Nondecreasing(times: seq<real>) {
    forall i, j :: 0 <= i <= j < |times| ==> times[i] <= times[j]
  }

  /** Admissions in the half-open window (from, to] that satisfy a filter. */
  ghost function Count(h: History, f: Admission -> bool, from: real, to: real): nat {
    if h == [] then 0
    else
      var last := h[|h| - 1];
      Count(h[..|h| - 1], f, from, to) + if f(last) && from < last.time <= to then 1 else 0
  }

  ghost function InBucket(bucket: string): Admission -> bool { (a: Admission) => a.bucket == bucket }
  ghost function ByKey(key: string): Admission -> bool { (a: Admission) => a.key == key }
  ghost function InNames(names: set<string>): Admission -> bool { (a: Admission) => a.bucket in names }
  ghost function Nobody(): Admission -> bool { (a: Admission) => false }
  ghost function Any(): Admission -> bool { (a: Admission) => true }

  ghost predicate TailOf(l: Limits, times: seq<real>, kept: seq<real>, now: real) {
    && |kept| <= |times| && |kept| <= l.limit
    && kept == times[|times| - |kept|..]
    && forall i :: 0 <= i < |times| - |kept| ==> times[i] <= now - l.window
  }

  /** A bucket's deque is a tail of its admissions, and what it lost has left the window. */
  ghost predicate Tracks(l: Limits, s: State, h: History, now: real, bucket: string) {
    var times := Times(h, bucket);
    && Nondecreasing(times)
    && (times != [] ==> times[|times| - 1] <= now)
    && (bucket in s.buckets ==> TailOf(l, times, s.buckets[bucket], now))
    && (bucket !in s.buckets ==> forall i :: 0 <= i < |times| ==> times[i] <= now - l.window)
  }

  /** Every admission found room: its own bucket, and the whole table, were inside their bounds just after it. */
  ghost predicate Bounded(l: Limits, h: History) {
    h == [] ||
    (var last := h[|h| - 1];
     && Bounded(l, h[..|h| - 1])
     && Count(h, InBucket(last.bucket), last.time - l.window, last.time) <= l.limit
     && Count(h, Any(), last.time - l.window, last.time) <= l.maxBuckets * l.limit
     && (last.bucket == last.key || last.bucket == OVERFLOW)
     && (|h| > 1 ==> h[|h| - 2].time <= last.time))
  }

  ghost predicate Inv(l: Limits, s: State, h: History, now: real) {
    && l.Ok() && OVERFLOW in s.buckets && |s.buckets| <= l.maxBuckets
    && Bounded(l, h) && (h != [] ==> h[|h| - 1].time <= now)
    && forall bucket :: Tracks(l, s, h, now, bucket)
  }

  // ---------------------------------------------------------------- counting

  ghost function CountTimes(times: seq<real>, from: real, to: real): nat {
    if times == [] then 0
    else
      var last := times[|times| - 1];
      CountTimes(times[..|times| - 1], from, to) + if from < last <= to then 1 else 0
  }

  lemma {:induction false} BucketCount(h: History, bucket: string, from: real, to: real)
    ensures Count(h, InBucket(bucket), from, to) == CountTimes(Times(h, bucket), from, to)
  {
    if h != [] {
      BucketCount(h[..|h| - 1], bucket, from, to);
      var last, others := h[|h| - 1], Times(h[..|h| - 1], bucket);
      if last.bucket == bucket {
        assert (others + [last.time])[..|others|] == others;
      } else {
        assert others + [] == others;
      }
    }
  }

  /** Only the entries after the first `gone` can lie in the window. */
  lemma {:induction false} CountTail(times: seq<real>, gone: nat, from: real, to: real)
    requires gone <= |times| && forall i :: 0 <= i < gone ==> times[i] <= from
    ensures CountTimes(times, from, to) <= |times| - gone
  {
    if times != [] {
      var init := times[..|times| - 1];
      CountTail(init, if gone == |times| then gone - 1 else gone, from, to);
    }
  }

  lemma {:induction false} CountMonotone(h: History, f: Admission -> bool, g: Admission -> bool, from: real, to: real, from': real, to': real)
    requires forall i :: 0 <= i < |h| && f(h[i]) && from < h[i].time <= to ==> g(h[i]) && from' < h[i].time <= to'
    ensures Count(h, f, from, to) <= Count(h, g, from', to')
  {
    if h != [] {
      var init := h[..|h| - 1];
      forall i | 0 <= i < |init| && f(init[i]) && from < init[i].time <= to ensures g(init[i]) && from' < init[i].time <= to' {
        assert init[i] == h[i];
      }
      CountMonotone(init, f, g, from, to, from', to');
    }
  }

  lemma {:induction false} CountSplit(h: History, f: Admission -> bool, g: Admission -> bool, whole: Admission -> bool, from: real, to: real)
    requires forall a :: whole(a) ==> f(a) || g(a)
    ensures Count(h, whole, from, to) <= Count(h, f, from, to) + Count(h, g, from, to)
  {
    if h != [] {
      CountSplit(h[..|h| - 1], f, g, whole, from, to);
    }
  }

  lemma {:induction false} CountOverBuckets(h: History, names: set<string>, limit: nat, from: real, to: real)
    requires forall name :: name in names ==> Count(h, InBucket(name), from, to) <= limit
    ensures Count(h, InNames(names), from, to) <= |names| * limit
    decreases |names|
  {
    hide Count;
    if names == {} {
      CountMonotone(h, InNames(names), Nobody(), from, to, from, to);
      CountNone(h, from, to);
    } else {
      var name :| name in names;
      var rest := names - {name};
      CountOverBuckets(h, rest, limit, from, to);
      CountSplit(h, InNames(rest), InBucket(name), InNames(names), from, to);
      OneMoreBucket(|rest|, |names|, limit);
    }
  }

  lemma OneMoreBucket(few: nat, many: nat, limit: nat)
    requires many == few + 1
    ensures many * limit == few * limit + limit
  {
  }

  lemma {:induction false} CountNone(h: History, from: real, to: real)
    ensures Count(h, Nobody(), from, to) == 0
  {
    if h != [] { CountNone(h[..|h| - 1], from, to); }
  }

  lemma {:induction false} TimeOf(h: History, i: nat)
    requires i < |h|
    ensures h[i].time in Times(h, h[i].bucket)
  {
    if i < |h| - 1 {
      TimeOf(h[..|h| - 1], i);
    }
  }

  lemma {:induction false} HistorySorted(l: Limits, h: History, i: nat)
    requires Bounded(l, h) && i < |h|
    ensures h[i].time <= h[|h| - 1].time
  {
    if i < |h| - 1 {
      var init := h[..|h| - 1];
      HistorySorted(l, init, i);
      assert init[|init| - 1] == h[|h| - 2] && init[i] == h[i];
    }
  }

  // ---------------------------------------------------------------- the bounds, for every window

  lemma LatestWindow(l: Limits, h: History, f: Admission -> bool, from: real, to: real)
    requires Bounded(l, h) && h != [] && to - from <= l.window && h[|h| - 1].time <= to
    ensures var last := h[|h| - 1];
      Count(h, f, from, to) <= Count(h, f, last.time - l.window, last.time)
  {
    var last := h[|h| - 1];
    forall i | 0 <= i < |h| && from < h[i].time <= to ensures last.time - l.window < h[i].time <= last.time {
      HistorySorted(l, h, i);
    }
    CountMonotone(h, f, f, from, to, last.time - l.window, last.time);
  }

  /** Each bucket admits at most `limit` requests in any window. */
  lemma {:induction false} BucketBound(l: Limits, h: History, bucket: string, from: real, to: real)
    requires Bounded(l, h) && to - from <= l.window
    ensures Count(h, InBucket(bucket), from, to) <= l.limit
  {
    if h != [] {
      var last := h[|h| - 1];
      if last.time <= to && last.bucket == bucket {
        LatestWindow(l, h, InBucket(bucket), from, to);
      } else {
        BucketBound(l, h[..|h| - 1], bucket, from, to);
      }
    }
  }

  /** All keys together stay within the capacity of the table in any window. */
  lemma {:induction false} TotalBound(l: Limits, h: History, from: real, to: real)
    requires Bounded(l, h) && to - from <= l.window
    ensures Count(h, Any(), from, to) <= l.maxBuckets * l.limit
  {
    if h != [] {
      if h[|h| - 1].time <= to {
        LatestWindow(l, h, Any(), from, to);
      } else {
        TotalBound(l, h[..|h| - 1], from, to);
      }
    }
  }

  lemma {:induction false} PaidByOwnOrOverflow(l: Limits, h: History, i: nat)
    requires Bounded(l, h) && i < |h|
    ensures h[i].bucket == h[i].key || h[i].bucket == OVERFLOW
  {
    if i < |h| - 1 { PaidByOwnOrOverflow(l, h[..|h| - 1], i); }
  }

  /** One key can be charged to its own bucket and to the overflow bucket, so it may see twice the limit, never more. */
  lemma KeyBound(l: Limits, h: History, key: string, from: real, to: real)
    requires Bounded(l, h) && to - from <= l.window
    ensures Count(h, ByKey(key), from, to) <= 2 * l.limit
  {
    var own, shared := InBucket(key), InBucket(OVERFLOW);
    var either := (a: Admission) => a.bucket == key || a.bucket == OVERFLOW;
    forall i | 0 <= i < |h| && ByKey(key)(h[i]) ensures either(h[i]) {
      PaidByOwnOrOverflow(l, h, i);
    }
    CountMonotone(h, ByKey(key), either, from, to, from, to);
    CountSplit(h, own, shared, either, from, to);
    BucketBound(l, h, key, from, to);
    BucketBound(l, h, OVERFLOW, from, to);
  }

  // ---------------------------------------------------------------- every call keeps the bookkeeping

  lemma Ageing(l: Limits, s: State, h: History, now: real, later: real)
    requires Inv(l, s, h, now) && now <= later
    ensures Inv(l, s, h, later)
  {
    forall bucket ensures Tracks(l, s, h, later, bucket) {
      assert Tracks(l, s, h, now, bucket);
    }
  }

  /** Pruning loses no entry that is still inside the window. */
  lemma PruneKeepsWindow(l: Limits, s: State, h: History, now: real, bucket: string, i: nat)
    requires Inv(l, s, h, now) && bucket in s.buckets && i < |s.buckets[bucket]|
    requires s.buckets[bucket][i] > now - l.window
    ensures bucket in Pruned(s.buckets, now - l.window)
    ensures s.buckets[bucket][i] in Pruned(s.buckets, now - l.window)[bucket]
  {
    hide DropStale, Bounded, Times;
    assert Tracks(l, s, h, now, bucket);
    var kept := s.buckets[bucket];
    assert kept[i] <= kept[|kept| - 1];
    DropFacts(kept, now - l.window);
    if bucket == OVERFLOW {
      var left := DropStale(kept, now - l.window);
      assert left[i - (|kept| - |left|)] == kept[i];
    }
  }

  lemma PrunedSize(buckets: Buckets, cutoff: real)
    ensures |Pruned(buckets, cutoff)| <= |buckets|
  {
    SubsetSize(Pruned(buckets, cutoff).Keys, buckets.Keys);
  }

  lemma DropTail(l: Limits, times: seq<real>, kept: seq<real>, now: real)
    requires TailOf(l, times, kept, now)
    ensures TailOf(l, times, DropStale(kept, now - l.window), now)
  {
    DropFacts(kept, now - l.window);
    var left := DropStale(kept, now - l.window);
    var before, dropped := |times| - |kept|, |kept| - |left|;
    assert left == times[before..][dropped..] == times[before + dropped..];
    forall i | 0 <= i < before + dropped ensures times[i] <= now - l.window {
      if i >= before { assert times[i] == kept[i - before]; }
    }
  }

  lemma IdleIsOutside(l: Limits, s: State, h: History, now: real, name: string)
    requires Tracks(l, s, h, now, name) && name in s.buckets && Idle(s.buckets[name], now - l.window)
    ensures forall i :: 0 <= i < |Times(h, name)| ==> Times(h, name)[i] <= now - l.window
  {
    var times, kept := Times(h, name), s.buckets[name];
    forall i | 0 <= i < |times| ensures times[i] <= now - l.window {
      if kept != [] { assert times[i] <= times[|times| - 1] == kept[|kept| - 1]; }
    }
  }

  lemma PrunedHasOverflow(buckets: Buckets, cutoff: real)
    requires OVERFLOW in buckets
    ensures OVERFLOW in Pruned(buckets, cutoff)
  {
  }

  lemma PruneKeepsTracks(l: Limits, s: State, h: History, now: real, bucket: string)
    requires Inv(l, s, h, now)
    ensures Tracks(l, s.(buckets := Pruned(s.buckets, now - l.window)), h, now, bucket)
  {
    hide Times, Bounded, DropStale;
    assert Tracks(l, s, h, now, bucket);
    if bucket == OVERFLOW {
      DropTail(l, Times(h, OVERFLOW), s.buckets[OVERFLOW], now);
    } else if bucket in s.buckets && Idle(s.buckets[bucket], now - l.window) {
      IdleIsOutside(l, s, h, now, bucket);
    }
  }

  lemma PruneKeepsInv(l: Limits, s: State, h: History, now: real)
    requires Inv(l, s, h, now)
    ensures Inv(l, s.(buckets := Pruned(s.buckets, now - l.window)), h, now)
  {
    hide Tracks, Bounded, Pruned;
    var s' := s.(buckets := Pruned(s.buckets, now - l.window));
    PrunedSize(s.buckets, now - l.window);
    PrunedHasOverflow(s.buckets, now - l.window);
    forall bucket ensures Tracks(l, s', h, now, bucket) { PruneKeepsTracks(l, s, h, now, bucket); }
  }

  lemma LookupKeepsInv(l: Limits, s: State, h: History, now: real, key: string)
    requires Inv(l, s, h, now)
    ensures var (buckets, name) := Lookup(l, s.buckets, key, now - l.window);
      && Inv(l, s.(buckets := buckets), h, now) && name in buckets && (name == key || name == OVERFLOW)
  {
    if key !in s.buckets {
      PruneKeepsInv(l, s, h, now);
      var pruned := s.(buckets := Pruned(s.buckets, now - l.window));
      var s' := pruned.(buckets := pruned.buckets[key := []]);
      forall bucket ensures Tracks(l, s', h, now, bucket) {
        assert Tracks(l, pruned, h, now, bucket);
      }
    }
  }

  lemma DropKeepsInv(l: Limits, s: State, h: History, now: real, name: string)
    requires Inv(l, s, h, now) && name in s.buckets
    ensures Inv(l, s.(buckets := s.buckets[name := DropStale(s.buckets[name], now - l.window)]), h, now)
  {
    var s' := s.(buckets := s.buckets[name := DropStale(s.buckets[name], now - l.window)]);
    assert Tracks(l, s, h, now, name);
    DropTail(l, Times(h, name), s.buckets[name], now);
    assert s'.buckets.Keys == s.buckets.Keys;
    assert |s'.buckets| == |s'.buckets.Keys| == |s.buckets.Keys| == |s.buckets|;
    forall bucket ensures Tracks(l, s', h, now, bucket) {
      assert Tracks(l, s, h, now, bucket);
    }
  }

  lemma AppendTracks(l: Limits, s: State, h: History, now: real, key: string, name: string, requests: nat)
    requires Inv(l, s, h, now) && name in s.buckets && |s.buckets[name]| < l.limit
    ensures var s' := State(s.buckets[name := s.buckets[name] + [now]], requests);
      forall bucket :: Tracks(l, s', h + [Admission(key, name, now)], now, bucket)
  {
    var a := Admission(key, name, now);
    var s' := State(s.buckets[name := s.buckets[name] + [now]], requests);
    assert (h + [a])[..|h|] == h;
    forall bucket ensures Tracks(l, s', h + [a], now, bucket) {
      assert Tracks(l, s, h, now, bucket);
      var times := Times(h, bucket);
      assert Times(h + [a], bucket) == times + if name == bucket then [now] else [];
      if name == bucket {
        var kept := s.buckets[name];
        assert (times + [now])[|times| - |kept|..] == kept + [now];
      } else {
        assert times + [] == times;
      }
    }
  }

  /** Inside the window ending now, a bucket has paid for no more than its deque holds. */
  lemma WindowFits(l: Limits, s: State, h: History, now: real, bucket: string)
    requires forall b :: Tracks(l, s, h, now, b)
    ensures Count(h, InBucket(bucket), now - l.window, now) <= l.limit
    ensures bucket !in s.buckets ==> Count(h, InBucket(bucket), now - l.window, now) == 0
  {
    assert Tracks(l, s, h, now, bucket);
    var times := Times(h, bucket);
    BucketCount(h, bucket, now - l.window, now);
    CountTail(times, if bucket in s.buckets then |times| - |s.buckets[bucket]| else |times|, now - l.window, now);
  }

  lemma InWindowNamed(l: Limits, s: State, h: History, now: real, i: nat)
    requires forall b :: Tracks(l, s, h, now, b)
    requires i < |h| && h[i].time > now - l.window
    ensures h[i].bucket in s.buckets
  {
    TimeOf(h, i);
    assert Tracks(l, s, h, now, h[i].bucket);
  }

  lemma WholeTableFits(l: Limits, s: State, h: History, now: real)
    requires forall b :: Tracks(l, s, h, now, b)
    requires |s.buckets| <= l.maxBuckets
    ensures Count(h, Any(), now - l.window, now) <= l.maxBuckets * l.limit
  {
    hide Tracks;
    var from, names := now - l.window, s.buckets.Keys;
    forall i | 0 <= i < |h| && from < h[i].time <= now ensures InNames(names)(h[i]) {
      InWindowNamed(l, s, h, now, i);
    }
    CountMonotone(h, Any(), InNames(names), from, now, from, now);
    forall name | name in names ensures Count(h, InBucket(name), from, now) <= l.limit {
      WindowFits(l, s, h, now, name);
    }
    CountOverBuckets(h, names, l.limit, from, now);
    Scale(|names|, l.maxBuckets, l.limit);
  }

  lemma Scale(few: nat, many: nat, limit: nat)
    requires few <= many
    ensures few * limit <= many * limit
  {
  }

  lemma AppendKeepsInv(l: Limits, s: State, h: History, now: real, key: string, name: string, requests: nat)
    requires Inv(l, s, h, now) && name in s.buckets && |s.buckets[name]| < l.limit && (name == key || name == OVERFLOW)
    ensures Inv(l, State(s.buckets[name := s.buckets[name] + [now]], requests), h + [Admission(key, name, now)], now)
  {
    var a, s' := Admission(key, name, now), State(s.buckets[name := s.buckets[name] + [now]], requests);
    AppendTracks(l, s, h, now, key, name, requests);
    WindowFits(l, s', h + [a], now, name);
    assert s'.buckets.Keys == s.buckets.Keys;
    WholeTableFits(l, s', h + [a], now);
    assert (h + [a])[..|h|] == h;
  }

  ghost function Recorded(h: History, key: string, name: string, now: real, verdict: Verdict): History {
    if verdict.Allowed? then h + [Admission(key, name, now)] else h
  }

  lemma InvBasics(l: Limits, s: State, h: History, now: real)
    requires Inv(l, s, h, now)
    ensures l.Ok() && OVERFLOW in s.buckets
  {
    hide Tracks, Bounded;
  }

  /** The bounds hold after every call, whatever the keys and the times, as long as the clock does not run back. */
  lemma AllowKeepsInv(l: Limits, s: State, h: History, earlier: real, key: string, now: real)
    requires Inv(l, s, h, earlier) && earlier <= now
    ensures var (s', name, verdict) := Allow(l, s, key, now);
      Inv(l, s', Recorded(h, key, name, now, verdict), now)
  {
    InvBasics(l, s, h, earlier);
    hide Inv, Bounded, Tracks, DropStale, Pruned;
    Ageing(l, s, h, earlier, now);
    LookupKeepsInv(l, s, h, now, key);
    var (buckets, name) := Lookup(l, s.buckets, key, now - l.window);
    var found := s.(buckets := buckets);
    DropKeepsInv(l, found, h, now, name);
    var dropped := found.(buckets := buckets[name := DropStale(buckets[name], now - l.window)]);
    if |dropped.buckets[name]| < l.limit {
      AppendKeepsInv(l, dropped, h, now, key, name, s.requests + 1);
      var kept := dropped.buckets[name];
      assert buckets[name := kept + [now]] == dropped.buckets[name := kept + [now]];
      if (s.requests + 1) % 512 == 0 {
        PruneKeepsInv(l, State(buckets[name := kept + [now]], s.requests + 1), h + [Admission(key, name, now)], now);
      }
    }
  }

  // ---------------------------------------------------------------- Retry-After

  /** Calls made by anyone while a refused caller waits. */
  datatype Knock = Knock(key: string, time: real)

  ghost predicate AllRefused(l: Limits, s: State, knocks: seq<Knock>)
    requires l.Ok() && OVERFLOW in s.buckets
    decreases |knocks|
  {
    knocks == [] ||
    (var (s', _, verdict) := Allow(l, s, knocks[0].key, knocks[0].time);
     verdict.RetryAfter? && AllRefused(l, s', knocks[1..]))
  }

  ghost function Played(l: Limits, s: State, knocks: seq<Knock>): (r: State)
    requires l.Ok() && OVERFLOW in s.buckets && AllRefused(l, s, knocks)
    ensures OVERFLOW in r.buckets
    decreases |knocks|
  {
    if knocks == [] then s else Played(l, Allow(l, s, knocks[0].key, knocks[0].time).0, knocks[1..])
  }

  predicate Between(knocks: seq<Knock>, from: real, to: real) {
    && (forall i :: 0 <= i < |knocks| ==> from <= knocks[i].time <= to)
    && (forall i, j :: 0 <= i <= j < |knocks| ==> knocks[i].time <= knocks[j].time)
  }

  /** `key` will be admitted at `ready`: its bucket, or the room for one, is free by then. */
  ghost predicate Due(l: Limits, buckets: Buckets, key: string, ready: real) {
    && OVERFLOW in buckets
    && (key in buckets ==> |DropStale(buckets[key], ready - l.window)| < l.limit)
    && (key !in buckets ==>
          |buckets| < l.maxBuckets || |DropStale(buckets[OVERFLOW], ready - l.window)| < l.limit)
  }

  lemma {:induction false} DropTwice(times: seq<real>, first: real, second: real)
    requires first <= second
    ensures DropStale(DropStale(times, first), second) == DropStale(times, second)
  {
    if times != [] && times[0] <= first { DropTwice(times[1..], first, second); }
  }

  lemma PruneKeepsDue(l: Limits, buckets: Buckets, cutoff: real, key: string, ready: real)
    requires l.Ok() && Due(l, buckets, key, ready) && cutoff <= ready - l.window && |buckets| <= l.maxBuckets
    ensures Due(l, Pruned(buckets, cutoff), key, ready)
  {
    var pruned := Pruned(buckets, cutoff);
    DropTwice(buckets[OVERFLOW], cutoff, ready - l.window);
    PrunedSize(buckets, cutoff);
    if key in buckets && key !in pruned {
      SubsetSize(pruned.Keys, buckets.Keys - {key});
    }
  }

  lemma DropKeepsDue(l: Limits, buckets: Buckets, name: string, cutoff: real, key: string, ready: real)
    requires l.Ok() && Due(l, buckets, key, ready) && name in buckets && cutoff <= ready - l.window
    ensures Due(l, buckets[name := DropStale(buckets[name], cutoff)], key, ready)
  {
    var dropped := buckets[name := DropStale(buckets[name], cutoff)];
    DropTwice(buckets[name], cutoff, ready - l.window);
    assert dropped.Keys == buckets.Keys;
    assert |dropped| == |dropped.Keys| == |buckets.Keys| == |buckets|;
  }

  /** A refused call leaves every due key due: it can only prune and drop. */
  lemma RefusalKeepsDue(l: Limits, s: State, knock: Knock, key: string, ready: real)
    requires l.Ok() && Due(l, s.buckets, key, ready) && |s.buckets| <= l.maxBuckets && knock.time <= ready
    requires Allow(l, s, knock.key, knock.time).2.RetryAfter?
    ensures Due(l, Allow(l, s, knock.key, knock.time).0.buckets, key, ready)
  {
    var cutoff := knock.time - l.window;
    var (buckets, name) := Lookup(l, s.buckets, knock.key, cutoff);
    if knock.key in s.buckets {
      DropKeepsDue(l, s.buckets, name, cutoff, key, ready);
    } else {
      PruneKeepsDue(l, s.buckets, cutoff, key, ready);
      assert buckets == Pruned(s.buckets, cutoff);
      DropKeepsDue(l, buckets, name, cutoff, key, ready);
    }
  }

  lemma {:induction false} RefusalsKeepDue(l: Limits, s: State, h: History, earlier: real, knocks: seq<Knock>, key: string, ready: real)
    requires Inv(l, s, h, earlier) && Between(knocks, earlier, ready) && Due(l, s.buckets, key, ready)
    requires AllRefused(l, s, knocks)
    ensures Due(l, Played(l, s, knocks).buckets, key, ready)
    decreases |knocks|
  {
    if knocks != [] {
      RefusalKeepsDue(l, s, knocks[0], key, ready);
      AllowKeepsInv(l, s, h, earlier, knocks[0].key, knocks[0].time);
      RefusalsKeepDue(l, Allow(l, s, knocks[0].key, knocks[0].time).0, h, knocks[0].time, knocks[1..], key, ready);
    }
  }

  /** A due key is admitted. */
  lemma DueIsAdmitted(l: Limits, s: State, key: string, ready: real)
    requires l.Ok() && Due(l, s.buckets, key, ready)
    ensures Allow(l, s, key, ready).2.Allowed?
  {
    var cutoff := ready - l.window;
    PrunedSize(s.buckets, cutoff);
    DropTwice(s.buckets[OVERFLOW], cutoff, cutoff);
    var (buckets, name) := Lookup(l, s.buckets, key, cutoff);
    assert |DropStale(buckets[name], cutoff)| < l.limit;
  }

  /** By the answered time the oldest entry of the bucket that refused the key has left the window. */
  lemma RefusalMakesDue(l: Limits, s: State, h: History, earlier: real, key: string, now: real, ready: real)
    requires Inv(l, s, h, earlier) && earlier <= now
    requires Allow(l, s, key, now).2.RetryAfter?
    requires now + Allow(l, s, key, now).2.seconds as real <= ready
    ensures 1 <= Allow(l, s, key, now).2.seconds <= l.window.Floor + 1
    ensures Due(l, Allow(l, s, key, now).0.buckets, key, ready)
  {
    hide Bounded, Times;
    AllowKeepsInv(l, s, h, earlier, key, now);
    var (s', name, verdict) := Allow(l, s, key, now);
    var (buckets, found) := Lookup(l, s.buckets, key, now - l.window);
    var kept := s'.buckets[name];
    assert kept == DropStale(buckets[name], now - l.window) && |kept| >= l.limit;
    DropFacts(buckets[name], now - l.window);
    DropFacts(kept, ready - l.window);
    assert Tracks(l, s', h, now, name);
    assert kept[0] > now - l.window && kept[0] <= now;
    assert kept[0] <= ready - l.window;
    assert |DropStale(kept, ready - l.window)| <= |kept| - 1;
  }

  /**
    A refused caller that waits the answered seconds, with nobody admitted in between, is admitted,
    however many other calls were made and refused meanwhile.
  */
  lemma RetryAfterIsHonest(l: Limits, s: State, h: History, earlier: real, key: string, now: real, knocks: seq<Knock>, ready: real)
    requires Inv(l, s, h, earlier) && earlier <= now
    requires Allow(l, s, key, now).2.RetryAfter?
    requires now + Allow(l, s, key, now).2.seconds as real <= ready
    requires Between(knocks, now, ready) && AllRefused(l, Allow(l, s, key, now).0, knocks)
    ensures 1 <= Allow(l, s, key, now).2.seconds <= l.window.Floor + 1
    ensures Allow(l, Played(l, Allow(l, s, key, now).0, knocks), key, ready).2.Allowed?
  {
    var (s', name, verdict) := Allow(l, s, key, now);
    AllowKeepsInv(l, s, h, earlier, key, now);
    RefusalMakesDue(l, s, h, earlier, key, now, ready);
    RefusalsKeepDue(l, s', h, now, knocks, key, ready);
    DueIsAdmitted(l, Played(l, s', knocks), key, ready);
  }

  // ---------------------------------------------------------------- the limiter object

  const TIGHT := Limits(1, 60.0, 2)

  lemma FirstKeyOpensBucket()
    ensures Allow(TIGHT, State(map[OVERFLOW := []], 0), "a", 0.0)
         == (State(map[OVERFLOW := [], "a" := [0.0]], 1), "a", Allowed)
  {
    var buckets: Buckets := map[OVERFLOW := []];
    assert "a" != OVERFLOW;
    assert Pruned(buckets, -60.0) == buckets;
    assert |buckets| == 1 by { assert buckets.Keys == {OVERFLOW}; }
    var kept: seq<real> := [];
    assert kept + [0.0] == [0.0];
    assert buckets["a" := []]["a" := kept + [0.0]] == map[OVERFLOW := [], "a" := [0.0]];
  }

  lemma SecondKeyOverflows()
    ensures Allow(TIGHT, State(map[OVERFLOW := [], "a" := [0.0]], 1), "b", 1.0)
         == (State(map[OVERFLOW := [1.0], "a" := [0.0]], 2), OVERFLOW, Allowed)
  {
    var buckets: Buckets := map[OVERFLOW := [], "a" := [0.0]];
    assert "a" != OVERFLOW && "b" != OVERFLOW && "a"[0] != "b"[0];
    assert Pruned(buckets, -59.0) == buckets;
    assert |buckets| == 2 by { assert buckets.Keys == {OVERFLOW, "a"}; }
    var kept: seq<real> := [];
    assert kept + [1.0] == [1.0];
    assert buckets[OVERFLOW := kept + [1.0]] == map[OVERFLOW := [1.0], "a" := [0.0]];
  }

  lemma SecondKeyLaterOwnsBucket()
    ensures Allow(TIGHT, State(map[OVERFLOW := [1.0], "a" := [0.0]], 2), "b", 60.5)
         == (State(map[OVERFLOW := [1.0], "b" := [60.5]], 3), "b", Allowed)
  {
    var buckets: Buckets := map[OVERFLOW := [1.0], "a" := [0.0]];
    var left: Buckets := map[OVERFLOW := [1.0]];
    assert "a" != OVERFLOW && "b" != OVERFLOW && "a"[0] != "b"[0];
    assert Pruned(buckets, 0.5) == left;
    assert |left| == 1 by { assert left.Keys == {OVERFLOW}; }
    var kept: seq<real> := [];
    assert kept + [60.5] == [60.5];
    assert left["b" := []]["b" := kept + [60.5]] == map[OVERFLOW := [1.0], "b" := [60.5]];
  }

  class SlidingWindow {
    const limits: Limits
    var buckets: Buckets
    var requests: nat
    ghost var history: History
    ghost var clock: real

    ghost predicate Valid()
      reads this
    {
      Inv(limits, State(buckets, requests), history, clock)
    }

    constructor (limit: nat, window: real, maxBuckets: nat, ghost start: real)
      requires limit >= 1 && window > 0.0 && maxBuckets >= 2
      ensures Valid() && history == [] && limits == Limits(limit, window, maxBuckets) && clock == start
    {
      limits := Limits(limit, window, maxBuckets);
      buckets := map[OVERFLOW := []];
      requests := 0;
      history := [];
      clock := start;
    }

    /** Pops the front of one deque until it is inside the window. */
    method PopStale(name: string, cutoff: real)
      requires name in buckets
      modifies this`buckets
      ensures buckets == old(buckets)[name := DropStale(old(buckets)[name], cutoff)]
    {
      while buckets[name] != [] && buckets[name][0] <= cutoff
        invariant name in buckets && buckets == old(buckets)[name := buckets[name]]
        invariant DropStale(buckets[name], cutoff) == DropStale(old(buckets)[name], cutoff)
        decreases |buckets[name]|
      {
        buckets := buckets[name := buckets[name][1..]];
      }
    }

    method Prune(cutoff: real)
      requires OVERFLOW in buckets
      modifies this`buckets
      ensures buckets == Pruned(old(buckets), cutoff)
    {
      var stale := FindStale(cutoff);
      ghost var start := buckets;
      ghost var gone := stale;
      while stale != {}
        invariant stale <= gone && OVERFLOW !in gone && OVERFLOW in buckets
        invariant buckets == start - (gone - stale)
        decreases |stale|
      {
        var key :| key in stale;
        buckets, stale := buckets - {key}, stale - {key};
      }
      PopStale(OVERFLOW, cutoff);
    }

    /** Looks at every bucket for those that hold nothing inside the window. */
    method FindStale(cutoff: real) returns (stale: set<string>)
      ensures stale == set key | key in buckets && key != OVERFLOW && Idle(buckets[key], cutoff)
    {
      stale := {};
      var todo := buckets.Keys;
      while todo != {}
        invariant todo <= buckets.Keys
        invariant stale == set key | key in buckets && key !in todo && key != OVERFLOW && Idle(buckets[key], cutoff)
        decreases |todo|
      {
        var key :| key in todo;
        if key != OVERFLOW && Idle(buckets[key], cutoff) { stale := stale + {key}; }
        todo := todo - {key};
      }
    }

    method FindBucket(key: string, cutoff: real) returns (name: string)
      requires OVERFLOW in buckets
      modifies this`buckets
      ensures (buckets, name) == Lookup(limits, old(buckets), key, cutoff)
      ensures name in buckets && OVERFLOW in buckets
    {
      name := key;
      if key !in buckets {
        Prune(cutoff);
        if |buckets| < limits.maxBuckets {
          buckets := buckets[key := []];
        } else {
          name := OVERFLOW;
        }
      }
    }

    /** One request: admitted and recorded, or refused with the seconds to wait. */
    method Admit(key: string, now: real) returns (verdict: Verdict)
      requires Valid() && clock <= now
      modifies this
      ensures Valid() && clock == now
      ensures var (s, name, answer) := Allow(limits, State(old(buckets), old(requests)), key, now);
        && verdict == answer && buckets == s.buckets && requests == s.requests
        && history == Recorded(old(history), key, name, now, verdict)
    {
      ghost var before := State(buckets, requests);
      AllowKeepsInv(limits, before, history, clock, key, now);
      assert OVERFLOW in buckets && limits.Ok();
      ghost var (after, charged, answer) := Allow(limits, before, key, now);
      hide Inv;
      var name := FindBucket(key, now - limits.window);
      assert charged == name;
      verdict := ChargeBucket(name, now);
      assert after == State(buckets, requests) && answer == verdict;
      if verdict.Allowed? {
        history := history + [Admission(key, name, now)];
      }
      clock := now;
    }

    method ChargeBucket(name: string, now: real) returns (verdict: Verdict)
      requires limits.Ok() && OVERFLOW in buckets && name in buckets
      modifies this`buckets, this`requests
      ensures (State(buckets, requests), name, verdict) == Charge(limits, old(buckets), old(requests), name, now)
    {
      PopStale(name, now - limits.window);
      if |buckets[name]| >= limits.limit {
        return RetryAfter(WaitSeconds(limits, buckets[name][0], now));
      }
      ghost var kept := buckets[name];
      buckets := buckets[name := buckets[name] + [now]];
      assert buckets == old(buckets)[name := kept + [now]];
      requests := requests + 1;
      if requests % 512 == 0 {
        Prune(now - limits.window);
      }
      verdict := Allowed;
    }
  }
}
