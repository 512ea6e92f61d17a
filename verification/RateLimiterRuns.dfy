/** The limiter over whole runs of requests, from the moment it starts empty. */
module RateLimiterRuns {
  import opened RateLimiter

  const EMPTY := State(map[OVERFLOW := []], 0)

  /** The state after the first `k` requests. */
  function After(l: Limits, knocks: seq<Knock>, k: nat): (s: State)
    requires l.Ok() && k <= |knocks|
    ensures OVERFLOW in s.buckets
  {
    if k == 0 then EMPTY else Allow(l, After(l, knocks, k - 1), knocks[k - 1].key, knocks[k - 1].time).0
  }

  /** The requests admitted among the first `k`, each with the bucket that paid for it. */
  function Admitted(l: Limits, knocks: seq<Knock>, k: nat): History
    requires l.Ok() && k <= |knocks|
  {
    if k == 0 then []
    else
      var knock := knocks[k - 1];
      var (_, name, verdict) := Allow(l, After(l, knocks, k - 1), knock.key, knock.time);
      Admitted(l, knocks, k - 1) + if verdict.Allowed? then [Admission(knock.key, name, knock.time)] else []
  }

  predicate InTime(knocks: seq<Knock>) {
    forall i, j :: 0 <= i <= j < |knocks| ==> knocks[i].time <= knocks[j].time
  }

  function Clock(knocks: seq<Knock>, k: nat, start: real): real
    requires k <= |knocks|
  {
    if k == 0 then start else knocks[k - 1].time
  }

  lemma EmptyIsConsistent(l: Limits, start: real)
    requires l.Ok()
    ensures Inv(l, EMPTY, [], start)
  {
    assert |EMPTY.buckets| == 1 by { assert EMPTY.buckets.Keys == {OVERFLOW}; }
    forall bucket ensures Tracks(l, EMPTY, [], start, bucket) {}
  }

  /** In every run whose clock does not go back, table and admissions stay consistent. */
  lemma {:induction false} RunKeepsInv(l: Limits, knocks: seq<Knock>, k: nat)
    requires l.Ok() && InTime(knocks) && 0 < |knocks| && k <= |knocks|
    ensures Inv(l, After(l, knocks, k), Admitted(l, knocks, k), Clock(knocks, k, knocks[0].time))
    decreases k
  {
    hide Inv, Allow;
    if k == 0 {
      EmptyIsConsistent(l, knocks[0].time);
    } else {
      RunKeepsInv(l, knocks, k - 1);
      AllowKeepsInv(l, After(l, knocks, k - 1), Admitted(l, knocks, k - 1), Clock(knocks, k - 1, knocks[0].time),
                    knocks[k - 1].key, knocks[k - 1].time);
      assert Admitted(l, knocks, k - 1) + [] == Admitted(l, knocks, k - 1);
    }
  }

  lemma AdmissionsAreBounded(l: Limits, knocks: seq<Knock>)
    requires l.Ok() && InTime(knocks)
    ensures Bounded(l, Admitted(l, knocks, |knocks|))
  {
    if knocks != [] { RunKeepsInv(l, knocks, |knocks|); }
    hide Tracks;
  }

  /** In any run, every bucket admits at most `limit` requests in any window. */
  lemma EveryBucketIsBounded(l: Limits, knocks: seq<Knock>, bucket: string, from: real)
    requires l.Ok() && InTime(knocks)
    ensures Count(Admitted(l, knocks, |knocks|), InBucket(bucket), from, from + l.window) <= l.limit
  {
    hide Bounded, Admitted, InTime, Count;
    AdmissionsAreBounded(l, knocks);
    BucketBound(l, Admitted(l, knocks, |knocks|), bucket, from, from + l.window);
  }

  /** In any run, every key is admitted at most twice `limit` times in any window. */
  lemma EveryKeyIsBounded(l: Limits, knocks: seq<Knock>, key: string, from: real)
    requires l.Ok() && InTime(knocks)
    ensures Count(Admitted(l, knocks, |knocks|), ByKey(key), from, from + l.window) <= 2 * l.limit
  {
    hide Bounded, Admitted, InTime, Count;
    AdmissionsAreBounded(l, knocks);
    KeyBound(l, Admitted(l, knocks, |knocks|), key, from, from + l.window);
  }

  /** In any run, all keys together are admitted at most `maxBuckets * limit` times in any window. */
  lemma AllKeysAreBounded(l: Limits, knocks: seq<Knock>, from: real)
    requires l.Ok() && InTime(knocks)
    ensures Count(Admitted(l, knocks, |knocks|), Any(), from, from + l.window) <= l.maxBuckets * l.limit
  {
    hide Bounded, Admitted, InTime, Count;
    AdmissionsAreBounded(l, knocks);
    TotalBound(l, Admitted(l, knocks, |knocks|), from, from + l.window);
  }

  /** After any run, a refused caller that waits as told is admitted, whatever refused calls came in between. */
  lemma WaitingIsEnough(l: Limits, knocks: seq<Knock>, key: string, now: real, meanwhile: seq<Knock>, ready: real)
    requires l.Ok() && InTime(knocks) && knocks != [] && knocks[|knocks| - 1].time <= now
    requires var s := After(l, knocks, |knocks|); Allow(l, s, key, now).2.RetryAfter?
    requires now + Allow(l, After(l, knocks, |knocks|), key, now).2.seconds as real <= ready
    requires Between(meanwhile, now, ready) && AllRefused(l, Allow(l, After(l, knocks, |knocks|), key, now).0, meanwhile)
    ensures Allow(l, Played(l, Allow(l, After(l, knocks, |knocks|), key, now).0, meanwhile), key, ready).2.Allowed?
  {
    RunKeepsInv(l, knocks, |knocks|);
    hide Inv, Allow, AllRefused, Played;
    RetryAfterIsHonest(l, After(l, knocks, |knocks|), Admitted(l, knocks, |knocks|), knocks[|knocks| - 1].time, key, now, meanwhile, ready);
  }

  const TWICE := [Knock("a", 0.0), Knock("b", 1.0), Knock("b", 60.5)]

  /** The bound of a key is met: with a limit of one, a key is admitted twice in one window. */
  lemma KeyReachesTwice()
    ensures InTime(TWICE)
    ensures Count(Admitted(TIGHT, TWICE, 3), ByKey("b"), 0.75, 0.75 + TIGHT.window) == 2 * TIGHT.limit
  {
    hide Allow, Count, Admitted;
    TwiceAdmitted();
    TwiceCounted();
  }

  const ADMITTED := [Admission("a", "a", 0.0), Admission("b", OVERFLOW, 1.0), Admission("b", "b", 60.5)]

  lemma TwiceAdmitted()
    ensures Admitted(TIGHT, TWICE, 3) == ADMITTED
  {
    hide Allow;
    FirstKeyOpensBucket();
    SecondKeyOverflows();
    SecondKeyLaterOwnsBucket();
    assert After(TIGHT, TWICE, 0) == EMPTY;
    assert After(TIGHT, TWICE, 1) == State(map[OVERFLOW := [], "a" := [0.0]], 1);
    assert After(TIGHT, TWICE, 2) == State(map[OVERFLOW := [1.0], "a" := [0.0]], 2);
    assert Admitted(TIGHT, TWICE, 0) == [];
    assert Admitted(TIGHT, TWICE, 1) == [ADMITTED[0]];
    assert Admitted(TIGHT, TWICE, 2) == [ADMITTED[0], ADMITTED[1]];
  }

  lemma TwiceCounted()
    ensures Count(ADMITTED, ByKey("b"), 0.75, 0.75 + TIGHT.window) == 2
  {
    var f := ByKey("b");
    assert "a"[0] != "b"[0];
    assert ADMITTED[..2][..1] == [ADMITTED[0]] && [ADMITTED[0]][..0] == [];
    assert Count([ADMITTED[0]], f, 0.75, 60.75) == 0;
    assert Count(ADMITTED[..2], f, 0.75, 60.75) == 1;
  }
}
