/** Safety of the job queue over whole runs: every interleaving of calls under a clock that never runs back. */
module JobQueueRuns {
  import opened Wrappers
  import opened JobQueue

  /** The table after the first `k` calls. */
  ghost function After(calls: seq<Call>, k: nat): Table
    requires k <= |calls|
  {
    if k == 0 then map[] else Step(After(calls, k - 1), calls[k - 1]).0
  }

  /** What call `k` answered. */
  ghost function Answer(calls: seq<Call>, k: nat): Outcome
    requires k < |calls|
  {
    Step(After(calls, k), calls[k]).1
  }

  function Clock(calls: seq<Call>, k: nat): real
    requires k <= |calls|
  {
    if k == 0 then 0.0 else EndOf(calls[k - 1])
  }

  predicate Timeline(calls: seq<Call>) {
    forall k :: 0 <= k < |calls| ==> Ordered(calls[k]) && Clock(calls, k) <= StartOf(calls[k])
  }

  ghost predicate Grants(calls: seq<Call>, k: nat, h: Handle) {
    k < |calls| && Answer(calls, k).Granted? && Answer(calls, k).handle == h
  }

  ghost predicate Wakes(calls: seq<Call>, k: nat, run: RunId) {
    k < |calls| && calls[k].Wake? && calls[k].run == run && Answer(calls, k).Updated?
  }

  ghost predicate Checkpoints(calls: seq<Call>, k: nat, run: RunId) {
    k < |calls| && calls[k].Checkpoint? && calls[k].handle.run == run && Answer(calls, k).Updated?
  }

  /** The handle a commit presents. */
  function Presented(c: Call): Option<Handle> {
    match c
    case Renew(h, _, _, _) => Some(h)
    case Checkpoint(h, _, _, _, _, _) => Some(h)
    case Complete(h, _) => Some(h)
    case Fail(h, _, _, _, _) => Some(h)
    case _ => None
  }

  lemma {:induction false} RunKeepsInv(calls: seq<Call>, k: nat)
    requires Timeline(calls) && k <= |calls|
    ensures Inv(After(calls, k), Clock(calls, k))
  {
    if k > 0 {
      RunKeepsInv(calls, k - 1);
      StepKeepsInv(After(calls, k - 1), Clock(calls, k - 1), calls[k - 1]);
    }
  }

  /**
    What one call may do to one row. Leases appear only through grants, waiting only through
    checkpoints that passed the fence, and attempts change only by grants and resets.
  */
  ghost predicate RowMoves(t: Table, c: Call, t': Table, answer: Outcome, run: RunId) {
    var granted := answer.Granted? && answer.handle.run == run;
    var woken := c.Wake? && c.run == run && answer.Updated?;
    var parked := c.Checkpoint? && c.handle.run == run && answer.Updated?;
    && (run in t' && t'[run].status == LEASED && granted ==>
          answer.handle == Handle(run, t'[run].generation, t'[run].epoch))
    && (run in t' && t'[run].status == LEASED && !granted ==>
          && !woken && run in t && t[run].status == LEASED
          && t[run].generation == t'[run].generation && t[run].epoch == t'[run].epoch)
    && (run in t' && t'[run].status == WAITING && !(run in t && t[run].status == WAITING) ==>
      parked && Passes(t, c.handle, c.check))
    && (woken ==> run in t' && t'[run].status == READY && run in t && t'[run].epoch == t[run].epoch + 1)
    && (granted ==>
          && run in t && run in t' && t'[run].generation == t[run].generation + 1 == answer.handle.generation
          && t'[run].epoch == answer.handle.epoch && t'[run].attempt == t[run].attempt + 1)
    && (run in t' && !granted ==> t'[run].attempt == 0 || (run in t && t'[run].attempt == t[run].attempt))
    && (run in t' && !granted && run in t && t'[run].attempt != t[run].attempt ==> woken || parked)
    && (run !in t ==> !granted && !woken && !parked)
  }

  lemma ClaimMoves(t: Table, now: real, c: Call, run: RunId)
    requires Inv(t, now) && c.Claim?
    ensures RowMoves(t, c, Step(t, c).0, Step(t, c).1, run)
  {
    hide Exclusive;
  }

  lemma StepMoves(t: Table, now: real, c: Call, run: RunId)
    requires Inv(t, now)
    ensures RowMoves(t, c, Step(t, c).0, Step(t, c).1, run)
  {
    if c.Claim? { ClaimMoves(t, now, c, run); }
  }

  lemma CallMoves(calls: seq<Call>, k: nat, run: RunId)
    requires Timeline(calls) && k < |calls|
    ensures RowMoves(After(calls, k), calls[k], After(calls, k + 1), Answer(calls, k), run)
  {
    RunKeepsInv(calls, k);
    StepMoves(After(calls, k), Clock(calls, k), calls[k], run);
  }

  /** Job rows only move forward: counters never decrease and COMPLETED and DEAD are absorbing. */
  lemma {:induction false} RowsAdvance(calls: seq<Call>, i: nat, k: nat, run: RunId)
    requires Timeline(calls) && i <= k <= |calls|
    ensures RowAdvances(After(calls, i), After(calls, k), run)
    decreases k - i
  {
    if i < k {
      RowsAdvance(calls, i, k - 1, run);
      RunKeepsInv(calls, k - 1);
      StepAdvances(After(calls, k - 1), Clock(calls, k - 1), calls[k - 1], run);
    }
  }

  /** Lease exclusion: from the last clock reading on, at most one row is under a running lease. */
  lemma LeaseExclusion(calls: seq<Call>, now: real, a: RunId, b: RunId)
    requires Timeline(calls) && Clock(calls, |calls|) <= now
    requires a in After(calls, |calls|) && LiveAt(After(calls, |calls|)[a], now)
    requires b in After(calls, |calls|) && LiveAt(After(calls, |calls|)[b], now)
    ensures a == b
  {
    RunKeepsInv(calls, |calls|);
  }

  /** A leased row was claimed under exactly its current handle, and no wake has landed since. */
  lemma {:induction false} LeaseOrigin(calls: seq<Call>, k: nat, run: RunId) returns (claim: nat)
    requires Timeline(calls) && k <= |calls|
    requires run in After(calls, k) && After(calls, k)[run].status == LEASED
    ensures claim < k
    ensures Grants(calls, claim, Handle(run, After(calls, k)[run].generation, After(calls, k)[run].epoch))
    ensures forall w :: claim < w < k ==> !Wakes(calls, w, run)
  {
    hide Step;
    CallMoves(calls, k - 1, run);
    if Answer(calls, k - 1).Granted? && Answer(calls, k - 1).handle.run == run {
      claim := k - 1;
    } else {
      claim := LeaseOrigin(calls, k - 1, run);
    }
  }

  /** Of all handles, issued or forged, at most one can pass the fence from now on, and a claim issued it. */
  lemma OneHandlePasses(calls: seq<Call>, g: Handle, gTime: real, h: Handle, hTime: real) returns (claim: nat)
    requires Timeline(calls)
    requires Clock(calls, |calls|) <= gTime && Passes(After(calls, |calls|), g, gTime)
    requires Clock(calls, |calls|) <= hTime && Passes(After(calls, |calls|), h, hTime)
    ensures g == h && Grants(calls, claim, h)
  {
    LeaseExclusion(calls, if gTime <= hTime then gTime else hTime, g.run, h.run);
    claim := LeaseOrigin(calls, |calls|, h.run);
  }

  /** No handle is issued twice. */
  lemma HandlesAreFresh(calls: seq<Call>, i: nat, j: nat, h: Handle)
    requires Timeline(calls) && Grants(calls, i, h) && Grants(calls, j, h)
    ensures i == j
  {
    hide Timeline, Grants;
    if i < j { LaterGrantDiffers(calls, i, j, h); }
    if j < i { LaterGrantDiffers(calls, j, i, h); }
  }

  lemma LaterGrantDiffers(calls: seq<Call>, i: nat, j: nat, h: Handle)
    requires Timeline(calls) && i < j && Grants(calls, i, h)
    ensures !Grants(calls, j, h)
  {
    hide Step, Timeline, RowOk;
    if Grants(calls, j, h) {
      RowsAdvance(calls, i + 1, j, h.run);
      CallMoves(calls, i, h.run);
      CallMoves(calls, j, h.run);
    }
  }

  // ---------------------------------------------------------------- stale handles stay stale

  ghost predicate Stale(t: Table, h: Handle, now: real) {
    h.run in t && h.generation <= t[h.run].generation && h.epoch <= t[h.run].epoch && !Passes(t, h, now)
  }

  lemma FencedKeepsStale(t: Table, now: real, h: Handle, other: Handle, check: real, write: real, update: Job -> Job)
    requires Inv(t, now) && now <= check <= write && Stale(t, h, now)
    requires other.run in t ==> var job := update(t[other.run]); job.generation == t[other.run].generation && job.epoch == t[other.run].epoch
    ensures Stale(Fenced(t, other, check, update).0, h, write)
  {
  }

  lemma StepKeepsStale(t: Table, now: real, c: Call, h: Handle)
    requires Inv(t, now) && Ordered(c) && now <= StartOf(c) && Stale(t, h, now)
    ensures Stale(Step(t, c).0, h, EndOf(c))
  {
    if Valid(c) {
      match c
      case Renew(other, lease, check, write) =>
        FencedKeepsStale(t, now, h, other, check, write, job => Renewed(job, write + lease / SECONDS_PER_DAY));
      case Checkpoint(other, step, checkpoint, next, check, write) =>
        FencedKeepsStale(t, now, h, other, check, write, job => Parked(job, step, checkpoint, next, write));
      case Complete(other, check) =>
        FencedKeepsStale(t, now, h, other, check, check, job => Finished(job));
      case Fail(other, delay, error, check, write) =>
        FencedKeepsStale(t, now, h, other, check, write, job => Failed(job, delay, error, write));
      case _ => OpenKeepsStale(t, now, c, h);
    }
  }

  lemma OpenKeepsStale(t: Table, now: real, c: Call, h: Handle)
    requires Inv(t, now) && Ordered(c) && now <= StartOf(c) && Stale(t, h, now)
    requires c.Create? || c.Wake? || c.Claim?
    ensures Stale(Step(t, c).0, h, EndOf(c))
  {
    if c.Claim? { ClaimKeepsStale(t, now, c, h); }
  }

  lemma ClaimKeepsStale(t: Table, now: real, c: Call, h: Handle)
    requires Inv(t, now) && Ordered(c) && now <= StartOf(c) && Stale(t, h, now) && c.Claim?
    ensures Stale(Step(t, c).0, h, EndOf(c))
  {
    hide Exclusive;
  }

  /** A handle that has stopped passing never passes again, whatever happens to the queue. */
  lemma {:induction false} StaleForever(calls: seq<Call>, i: nat, k: nat, h: Handle)
    requires Timeline(calls) && i <= k <= |calls|
    requires Stale(After(calls, i), h, Clock(calls, i))
    ensures Stale(After(calls, k), h, Clock(calls, k))
    decreases k - i
  {
    if i < k {
      StaleForever(calls, i, k - 1, h);
      RunKeepsInv(calls, k - 1);
      StepKeepsStale(After(calls, k - 1), Clock(calls, k - 1), calls[k - 1], h);
    }
  }

  /** No lost wake-up: once a wake lands, nothing claimed before it can commit. */
  lemma NoLostWakeup(calls: seq<Call>, claim: nat, wake: nat, commit: nat, h: Handle)
    requires Timeline(calls) && claim < wake < commit < |calls|
    requires Grants(calls, claim, h) && Wakes(calls, wake, h.run)
    requires Valid(calls[commit]) && Presented(calls[commit]) == Some(h)
    ensures Answer(calls, commit).Refused? && Answer(calls, commit).error.StaleFence?
    ensures After(calls, commit + 1) == After(calls, commit)
  {
    hide Step;
    RowsAdvance(calls, claim + 1, wake, h.run);
    CallMoves(calls, claim, h.run);
    CallMoves(calls, wake, h.run);
    RowsAdvance(calls, wake, wake + 1, h.run);
    assert Stale(After(calls, wake + 1), h, Clock(calls, wake + 1));
    StaleForever(calls, wake + 1, commit, h);
    assert !Passes(After(calls, commit), h, StartOf(calls[commit]));
    FenceRefuses(After(calls, commit), calls[commit], h);
  }

  lemma FenceRefuses(t: Table, c: Call, h: Handle)
    requires Valid(c) && Presented(c) == Some(h) && h.run in t && !Passes(t, h, StartOf(c))
    ensures Step(t, c).1.Refused? && Step(t, c).1.error.StaleFence? && Step(t, c).0 == t
  {
  }

  /** A waiting job was parked by a checkpoint of the claim before it, and no wake has landed since that claim. */
  lemma {:induction false} WaitingSawNoWake(calls: seq<Call>, k: nat, run: RunId)
    returns (claim: nat, park: nat, h: Handle)
    requires Timeline(calls) && k <= |calls|
    requires run in After(calls, k) && After(calls, k)[run].status == WAITING
    ensures claim < park < k && h.run == run
    ensures Grants(calls, claim, h) && Checkpoints(calls, park, run) && Presented(calls[park]) == Some(h)
    ensures forall w :: claim < w < k ==> !Wakes(calls, w, run)
  {
    hide Step;
    CallMoves(calls, k - 1, run);
    var before := After(calls, k - 1);
    if run in before && before[run].status == WAITING {
      claim, park, h := WaitingSawNoWake(calls, k - 1, run);
    } else {
      park := k - 1;
      claim := LeaseOrigin(calls, k - 1, run);
      h := Handle(run, before[run].generation, before[run].epoch);
    }
  }

  // ---------------------------------------------------------------- progress

  ghost function Claims(calls: seq<Call>, k: nat, run: RunId): nat
    requires k <= |calls|
  {
    if k == 0 then 0
    else Claims(calls, k - 1, run) + if Answer(calls, k - 1).Granted? && Answer(calls, k - 1).handle.run == run then 1 else 0
  }

  /** Wakes and checkpoints, the only calls that give a job its attempts back. */
  ghost function Resets(calls: seq<Call>, k: nat, run: RunId): nat
    requires k <= |calls|
  {
    if k == 0 then 0
    else Resets(calls, k - 1, run) + if Wakes(calls, k - 1, run) || Checkpoints(calls, k - 1, run) then 1 else 0
  }

  lemma AttemptsSound(calls: seq<Call>, k: nat, run: RunId)
    requires Timeline(calls) && k <= |calls| && run in After(calls, k)
    ensures After(calls, k)[run].attempt <= After(calls, k)[run].maxAttempts
  {
    RunKeepsInv(calls, k);
  }

  /** No wake and no checkpoint of the run between two moments. */
  ghost predicate OneRound(calls: seq<Call>, i: nat, k: nat, run: RunId) {
    forall j :: i <= j < k ==> !Wakes(calls, j, run) && !Checkpoints(calls, j, run)
  }

  /**
    Between two wakes or checkpoints a job is claimed at most max_attempts times: in such a round
    every claim costs one attempt, and no attempt is given back.
  */
  lemma {:induction false} ClaimsInOneRound(calls: seq<Call>, i: nat, k: nat, run: RunId)
    requires Timeline(calls) && i <= k <= |calls| && run in After(calls, i) && OneRound(calls, i, k, run)
    ensures run in After(calls, k) && After(calls, k)[run].maxAttempts == After(calls, i)[run].maxAttempts
    ensures Claims(calls, k, run) - Claims(calls, i, run) == After(calls, k)[run].attempt - After(calls, i)[run].attempt
    ensures Claims(calls, k, run) - Claims(calls, i, run) <= After(calls, i)[run].maxAttempts
    decreases k - i
  {
    hide Step, Timeline;
    if i < k {
      ClaimsInOneRound(calls, i, k - 1, run);
      assert !Wakes(calls, k - 1, run) && !Checkpoints(calls, k - 1, run);
      CallMoves(calls, k - 1, run);
      RowsAdvance(calls, k - 1, k, run);
    }
    AttemptsSound(calls, k, run);
  }

  /** The moment a job's present round began: its creation, or its last wake or checkpoint. */
  lemma {:induction false} RoundStart(calls: seq<Call>, k: nat, run: RunId) returns (i: nat)
    requires Timeline(calls) && k <= |calls| && run in After(calls, k)
    ensures 0 < i <= k && run in After(calls, i) && OneRound(calls, i, k, run)
    ensures run !in After(calls, i - 1) || Wakes(calls, i - 1, run) || Checkpoints(calls, i - 1, run)
    decreases k
  {
    hide Step, Timeline;
    if run !in After(calls, k - 1) || Wakes(calls, k - 1, run) || Checkpoints(calls, k - 1, run) {
      i := k;
    } else {
      i := RoundStart(calls, k - 1, run);
    }
  }

  lemma {:induction false} NoClaimsBeforeCreation(calls: seq<Call>, k: nat, run: RunId)
    requires Timeline(calls) && k <= |calls| && run !in After(calls, k)
    ensures Claims(calls, k, run) == 0
    decreases k
  {
    hide Step, Timeline;
    if k > 0 {
      RowsAdvance(calls, k - 1, k, run);
      CallMoves(calls, k - 1, run);
      NoClaimsBeforeCreation(calls, k - 1, run);
    }
  }

  lemma {:induction false} ResetsGrow(calls: seq<Call>, i: nat, k: nat, run: RunId)
    requires i <= k <= |calls|
    ensures Resets(calls, i, run) <= Resets(calls, k, run)
    decreases k - i
  {
    hide Step;
    if i < k { ResetsGrow(calls, i, k - 1, run); }
  }

  /** A run with finitely many wakes and checkpoints has finitely many claims: at most maxAttempts in each of its rounds. */
  lemma {:induction false} ClaimBudget(calls: seq<Call>, k: nat, run: RunId)
    requires Timeline(calls) && k <= |calls| && run in After(calls, k)
    ensures Claims(calls, k, run) <= After(calls, k)[run].maxAttempts * (Resets(calls, k, run) + 1)
    decreases k
  {
    hide Step, Timeline;
    var i := RoundStart(calls, k, run);
    ClaimsInOneRound(calls, i, k, run);
    ResetsGrow(calls, i, k, run);
    CallMoves(calls, i - 1, run);
    var most := After(calls, k)[run].maxAttempts;
    if run in After(calls, i - 1) {
      ClaimBudget(calls, i - 1, run);
      RowsAdvance(calls, i - 1, i, run);
      AnotherRound(most, Resets(calls, i - 1, run), Resets(calls, k, run));
    } else {
      NoClaimsBeforeCreation(calls, i - 1, run);
      AnotherRound(most, 0, Resets(calls, k, run) + 1);
    }
  }

  lemma Distribute(most: nat, rounds: nat)
    ensures most * (rounds + 1) == most * rounds + most
  {
  }

  lemma {:induction false} AnotherRound(most: nat, before: nat, after: nat)
    requires before < after
    ensures most * (before + 1) + most <= most * (after + 1)
  {
    Distribute(most, after);
    if before + 1 < after { AnotherRound(most, before, after - 1); }
  }

  /** When a row is due to be claimed again. */
  function DueAt(job: Job): real
    requires RowOk(job) && job.status in {READY, RETRY, LEASED}
  {
    if job.status == LEASED then job.leaseExpiresAt.value else job.availableAt.value
  }

  /**
    No job is stranded: a claim made once a row is due either finds another lease running, or
    hands out some row, or has just declared this row dead because its attempts ran out.
  */
  lemma ClaimServesDueRows(calls: seq<Call>, c: Call, run: RunId)
    requires Timeline(calls + [c]) && c.Claim? && Valid(c)
    requires var t := After(calls, |calls|);
      run in t && RowOk(t[run]) && t[run].status in {READY, RETRY, LEASED} && DueAt(t[run]) <= c.sweep
    ensures var t := After(calls, |calls|); var (t', answer) := Step(t, c);
      || (exists other :: other in t && LiveAt(t[other], c.check))
      || answer.Granted?
      || (t'[run].status == DEAD && t[run].status == LEASED && t[run].attempt == t[run].maxAttempts)
  {
    assert (calls + [c])[|calls|] == c;
    var t := After(calls, |calls|);
    var swept := Swept(t, c.sweep);
    if exists id :: id in swept && LiveAt(swept[id], c.check) {
      var id :| id in swept && LiveAt(swept[id], c.check);
      assert LiveAt(t[id], c.check);
    } else if !Exhausted(t[run], c.sweep) {
      assert Claimable(swept[run], c.pick);
      FirstExists(swept, c.pick);
    }
  }

  /** A row dies in one call in exactly two ways: a claim finds its last lease run out, or its last attempt fails under the fence. */
  predicate DiesIn(t: Table, c: Call, run: RunId)
    requires run in t
  {
    || (c.Claim? && Valid(c) && Exhausted(t[run], c.sweep))
    || (c.Fail? && Valid(c) && c.handle.run == run && Passes(t, c.handle, c.check) && t[run].attempt >= t[run].maxAttempts)
  }

  lemma DeathExactly(t: Table, now: real, c: Call, run: RunId)
    requires Inv(t, now) && run in t && t[run].status != DEAD
    ensures run in Step(t, c).0 && (Step(t, c).0[run].status == DEAD <==> DiesIn(t, c, run))
  {
  }

  /** Over whole runs: a job is DEAD exactly when some earlier call met it in one of those two ways. */
  lemma {:induction false} DeadExactly(calls: seq<Call>, k: nat, run: RunId)
    requires Timeline(calls) && k <= |calls| && run in After(calls, k)
    ensures After(calls, k)[run].status == DEAD <==>
      exists j :: 0 <= j < k && run in After(calls, j) && After(calls, j)[run].status != DEAD && DiesIn(After(calls, j), calls[j], run)
    decreases k
  {
    hide Step, Timeline, DiesIn;
    CallMoves(calls, k - 1, run);
    if run in After(calls, k - 1) {
      DeadExactly(calls, k - 1, run);
      RunKeepsInv(calls, k - 1);
      RowsAdvance(calls, k - 1, k, run);
      if After(calls, k - 1)[run].status != DEAD {
        DeathExactly(After(calls, k - 1), Clock(calls, k - 1), calls[k - 1], run);
      }
    } else {
      forall j | 0 <= j < k ensures run !in After(calls, j) { RowsAdvance(calls, j, k - 1, run); }
      BornAlive(After(calls, k - 1), Clock(calls, k - 1), calls[k - 1], run);
    }
  }

  lemma BornAlive(t: Table, now: real, c: Call, run: RunId)
    requires run !in t && run in Step(t, c).0
    ensures Step(t, c).0[run].status != DEAD
  {
  }

  /** A job with one attempt, a claim that takes it and is not heard of again, and a claim after the lease has run out. */
  const KILLING: seq<Call> := [
    Create(1, true, "PROFILE", "", 1, 0, 1.0),
    Claim("w", 86400.0, 1.0, 1.0, 1.0, 1.0),
    Claim("w", 86400.0, 3.0, 3.0, 3.0, 3.0)]

  const LEASED_ONCE := Lease(NewJob("PROFILE", "", 1, 0, 1.0), "w", 2.0)

  /** In the first of the two ways nothing ran and nobody asked for the death. */
  lemma DeathInsideClaim()
    ensures Timeline(KILLING) && Answer(KILLING, 2) == Idle
    ensures 1 in After(KILLING, 3) && After(KILLING, 3)[1].status == DEAD
  {
    hide Step, Valid;
    KillingIsTimely();
    ClaimedOnce();
    SweptAway();
    assert After(KILLING, 3) == Step(After(KILLING, 2), KILLING[2]).0;
  }

  lemma KillingIsTimely()
    ensures Timeline(KILLING)
  {
  }

  lemma ClaimedOnce()
    ensures After(KILLING, 2) == map[1 := LEASED_ONCE]
  {
    var ready := After(KILLING, 1);
    assert ready == map[1 := NewJob("PROFILE", "", 1, 0, 1.0)];
    FirstExists(ready, 1.0);
    assert Swept(ready, 1.0) == ready;
    assert IsFirst(ready, 1.0, 1);
  }

  lemma SweptAway()
    ensures Step(map[1 := LEASED_ONCE], KILLING[2]) == (map[1 := Bury(LEASED_ONCE)], Idle)
  {
    assert Swept(map[1 := LEASED_ONCE], 3.0) == map[1 := Bury(LEASED_ONCE)];
  }
}
