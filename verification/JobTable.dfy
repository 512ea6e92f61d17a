/** The execution-job table as the store updates it, and the worker loop that drives it. */
module JobTable {
  import opened Wrappers
  import opened JobQueue
  import opened JobQueueRuns

  /** The execution_job table. Each method is one transaction and is tied to the transition it performs. */
  class ExecutionJobs {
    var rows: Table

    constructor ()
      ensures rows == map[]
    {
      rows := map[];
    }

    method CreateJob(run: RunId, runKnown: bool, step: string, checkpoint: string, maxAttempts: int, epoch: int, now: real)
      returns (outcome: Outcome)
      modifies this
      ensures (rows, outcome) == Step(old(rows), Create(run, runKnown, step, checkpoint, maxAttempts, epoch, now))
    {
      if step == "" || maxAttempts < 1 || epoch < 0 { return Refused(InvalidArgument); }
      if !runKnown { return Refused(NotFound); }
      if run in rows { return Refused(AlreadyExists); }
      var job := NewJob(step, checkpoint, maxAttempts, epoch, now);
      rows := rows[run := job];
      outcome := Updated(job);
    }

    method WakeJob(run: RunId, now: real) returns (outcome: Outcome)
      modifies this
      ensures (rows, outcome) == Step(old(rows), Wake(run, now))
    {
      if run !in rows { return Refused(NotFound); }
      if rows[run].status in {COMPLETED, DEAD} { return Refused(TerminalJob); }
      rows := rows[run := Woken(rows[run], now)];
      outcome := Updated(rows[run]);
    }

    /** Declares every lease dead that ran out on its last attempt. */
    method SweepExpired(now: real)
      modifies this
      ensures rows == Swept(old(rows), now)
    {
      var todo := rows.Keys;
      while todo != {}
        invariant rows.Keys == old(rows).Keys && todo <= rows.Keys
        invariant forall id :: id in rows ==>
          rows[id] == if id !in todo && Exhausted(old(rows)[id], now) then Bury(old(rows)[id]) else old(rows)[id]
        decreases |todo|
      {
        var id :| id in todo;
        if Exhausted(rows[id], now) {
          rows := rows[id := Bury(rows[id])];
        }
        todo := todo - {id};
      }
    }

    /** Looks for any row whose lease is still running. */
    method FindRunningLease(now: real) returns (found: Option<RunId>)
      ensures match found
        case Some(id) => id in rows && LiveAt(rows[id], now)
        case None => forall id :: id in rows ==> !LiveAt(rows[id], now)
    {
      found := None;
      var todo := rows.Keys;
      while todo != {}
        invariant todo <= rows.Keys && forall id :: id in rows && id !in todo ==> !LiveAt(rows[id], now)
        decreases |todo|
      {
        var id :| id in todo;
        if LiveAt(rows[id], now) { return Some(id); }
        todo := todo - {id};
      }
    }

    /** Keeps the best claimable row seen so far, in the order due time, creation, run. */
    method FindFirstDue(now: real) returns (first: Option<RunId>)
      ensures match first
        case Some(id) => IsFirst(rows, now, id)
        case None => forall id :: id in rows ==> !Claimable(rows[id], now)
    {
      first := None;
      var todo := rows.Keys;
      while todo != {}
        invariant todo <= rows.Keys
        invariant first.Some? ==> first.value in rows && Claimable(rows[first.value], now)
        invariant first.None? ==> forall id :: id in rows && id !in todo ==> !Claimable(rows[id], now)
        invariant first.Some? ==>
          forall id :: id in rows && id !in todo && Claimable(rows[id], now) ==> Before(rows, first.value, id)
        decreases |todo|
      {
        var id :| id in todo;
        if Claimable(rows[id], now) && (first.None? || !Before(rows, first.value, id)) {
          first := Some(id);
        }
        todo := todo - {id};
      }
    }

    /** One claim; a grant goes to the first due row, and only if no lease is running anywhere. */
    method ClaimJob(worker: string, lease: real, sweep: real, check: real, pick: real, grant: real)
      returns (outcome: Outcome)
      modifies this
      ensures (rows, outcome) == Step(old(rows), Claim(worker, lease, sweep, check, pick, grant))
      ensures outcome.Granted? ==>
        && IsFirst(Swept(old(rows), sweep), pick, outcome.handle.run)
        && (forall id :: id in Swept(old(rows), sweep) ==> !LiveAt(Swept(old(rows), sweep)[id], check))
        && rows == Swept(old(rows), sweep)[outcome.handle.run := outcome.job]
      ensures outcome == Idle ==>
        && rows == Swept(old(rows), sweep)
        && ((exists id :: id in rows && LiveAt(rows[id], check)) || forall id :: id in rows ==> !Claimable(rows[id], pick))
    {
      if worker == "" || lease <= 0.0 { return Refused(InvalidArgument); }
      SweepExpired(sweep);
      var active := FindRunningLease(check);
      if active.Some? { return Idle; }
      var first := FindFirstDue(pick);
      if first.None? { return Idle; }
      var id := first.value;
      FirstExists(rows, pick);
      rows := rows[id := Lease(rows[id], worker, grant + lease / SECONDS_PER_DAY)];
      outcome := Granted(Handle(id, rows[id].generation, rows[id].epoch), rows[id]);
    }

    method RequireFence(h: Handle, check: real) returns (refusal: Option<Error>)
      ensures refusal == if Passes(rows, h, check) then None else Some(FenceError(rows, h))
    {
      if h.run !in rows { return Some(NotFound); }
      var job := rows[h.run];
      if !LiveAt(job, check) || job.generation != h.generation || job.epoch != h.epoch {
        return Some(StaleFence(job.generation, job.epoch, job.status));
      }
      refusal := None;
    }

    method RenewJob(h: Handle, lease: real, check: real, write: real) returns (outcome: Outcome)
      modifies this
      ensures (rows, outcome) == Step(old(rows), Renew(h, lease, check, write))
    {
      if lease <= 0.0 { return Refused(InvalidArgument); }
      var refusal := RequireFence(h, check);
      if refusal.Some? { return Refused(refusal.value); }
      rows := rows[h.run := Renewed(rows[h.run], write + lease / SECONDS_PER_DAY)];
      outcome := Updated(rows[h.run]);
    }

    method CheckpointJob(h: Handle, step: string, checkpoint: string, next: Status, check: real, write: real)
      returns (outcome: Outcome)
      modifies this
      ensures (rows, outcome) == Step(old(rows), Checkpoint(h, step, checkpoint, next, check, write))
    {
      if next !in {READY, WAITING} || step == "" { return Refused(InvalidArgument); }
      var refusal := RequireFence(h, check);
      if refusal.Some? { return Refused(refusal.value); }
      rows := rows[h.run := Parked(rows[h.run], step, checkpoint, next, write)];
      outcome := Updated(rows[h.run]);
    }

    method CompleteJob(h: Handle, check: real) returns (outcome: Outcome)
      modifies this
      ensures (rows, outcome) == Step(old(rows), Complete(h, check))
    {
      var refusal := RequireFence(h, check);
      if refusal.Some? { return Refused(refusal.value); }
      rows := rows[h.run := Finished(rows[h.run])];
      outcome := Updated(rows[h.run]);
    }

    method RetryJob(h: Handle, delay: real, error: string, check: real, write: real) returns (outcome: Outcome)
      modifies this
      ensures (rows, outcome) == Step(old(rows), Fail(h, delay, error, check, write))
    {
      if delay < 0.0 { return Refused(InvalidArgument); }
      var refusal := RequireFence(h, check);
      if refusal.Some? { return Refused(refusal.value); }
      rows := rows[h.run := Failed(rows[h.run], delay, error, write)];
      outcome := Updated(rows[h.run]);
    }

    method Perform(c: Call) returns (outcome: Outcome)
      modifies this
      ensures (rows, outcome) == Step(old(rows), c)
    {
      match c
      case Create(run, runKnown, step, checkpoint, maxAttempts, epoch, now) =>
        outcome := CreateJob(run, runKnown, step, checkpoint, maxAttempts, epoch, now);
      case Wake(run, now) => outcome := WakeJob(run, now);
      case Claim(worker, lease, sweep, check, pick, grant) => outcome := ClaimJob(worker, lease, sweep, check, pick, grant);
      case Renew(h, lease, check, write) => outcome := RenewJob(h, lease, check, write);
      case Checkpoint(h, step, checkpoint, next, check, write) =>
        outcome := CheckpointJob(h, step, checkpoint, next, check, write);
      case Complete(h, check) => outcome := CompleteJob(h, check);
      case Fail(h, delay, error, check, write) => outcome := RetryJob(h, delay, error, check, write);
    }

    /** Other workers, heartbeats and wakes, in any order, while a handler runs. */
    method Interfere(ghost history: seq<Call>, arrivals: seq<Call>)
      requires rows == After(history, |history|)
      modifies this
      ensures rows == After(history + arrivals, |history + arrivals|)
    {
      assert history + arrivals[..0] == history;
      for i := 0 to |arrivals|
        invariant rows == After(history + arrivals[..i], |history| + i)
      {
        AfterOne(history + arrivals[..i], arrivals[i]);
        assert history + arrivals[..i] + [arrivals[i]] == history + arrivals[..i + 1];
        var _ := Perform(arrivals[i]);
      }
      assert arrivals[..|arrivals|] == arrivals;
    }
  }

  lemma {:induction false} SamePrefix(a: seq<Call>, b: seq<Call>, k: nat)
    requires k <= |a| && k <= |b| && a[..k] == b[..k]
    ensures After(a, k) == After(b, k)
    decreases k
  {
    if k > 0 {
      assert a[..k - 1] == a[..k][..k - 1] == b[..k][..k - 1] == b[..k - 1];
      SamePrefix(a, b, k - 1);
      assert a[k - 1] == a[..k][k - 1] == b[..k][k - 1] == b[k - 1];
    }
  }

  lemma AfterOne(history: seq<Call>, c: Call)
    ensures var n := |history|;
      && After(history + [c], n) == After(history, n)
      && After(history + [c], n + 1) == Step(After(history, n), c).0
      && Answer(history + [c], n) == Step(After(history, n), c).1
  {
    SamePrefix(history + [c], history, |history|);
  }

  lemma SameAnswer(a: seq<Call>, b: seq<Call>, k: nat)
    requires k < |a| && k < |b| && a[..k + 1] == b[..k + 1]
    ensures After(a, k) == After(b, k) && Answer(a, k) == Answer(b, k) && a[k] == b[k]
  {
    assert a[k] == a[..k + 1][k] == b[..k + 1][k] == b[k];
    assert a[..k] == a[..k + 1][..k] == b[..k + 1][..k] == b[..k];
    SamePrefix(a, b, k);
  }

  // ---------------------------------------------------------------- the worker

  /** How the handler, or the heartbeat beside it, ends. */
  datatype Verdict =
    | HandlerCompletes
    | HandlerCheckpoints(step: string, checkpoint: string, next: Status)
    | HandlerRaises(error: string)
    | WorkerCancelled
    | FenceErrorRaised

  datatype Pass =
    | NothingToDo
    | Settled(job: Job, deadReported: bool)
    | Abandoned(error: Error)

  function Power2(n: nat): (p: real)
    ensures p >= 1.0
  {
    if n == 0 then 1.0 else 2.0 * Power2(n - 1)
  }

  function RetryDelay(base: real, most: real, attempt: nat): real {
    if base == 0.0 || most == 0.0 then 0.0
    else
      var delay := base * Power2(if attempt <= 1 then 0 else attempt - 1);
      if delay <= most then delay else most
  }

  /** The delay starts at the base, doubles with every attempt until it meets the cap, and stays there. */
  lemma {:induction false} RetryDelayDoublesToCap(base: real, most: real, attempt: nat)
    requires base >= 0.0 && most >= 0.0 && attempt >= 1
    ensures 0.0 <= RetryDelay(base, most, attempt) <= most
    ensures RetryDelay(base, most, attempt + 1) ==
      if 2.0 * RetryDelay(base, most, attempt) <= most then 2.0 * RetryDelay(base, most, attempt) else most
    ensures RetryDelay(base, most, 1) == if base <= most then base else most
  {
    if base != 0.0 && most != 0.0 {
      var p := Power2(attempt - 1);
      assert Power2(attempt) == 2.0 * p;
      assert base * (2.0 * p) == 2.0 * (base * p);
      assert base * p >= base by { assert base * p - base == base * (p - 1.0); }
      assert base * Power2(0) == base;
    } else if base == 0.0 {
      assert RetryDelay(base, most, attempt) == 0.0;
    }
  }

  /** The one call a worker makes when its handler is over. */
  function Settlement(verdict: Verdict, h: Handle, delay: real, check: real, write: real): Option<Call> {
    match verdict
    case HandlerCompletes => Some(Complete(h, check))
    case HandlerCheckpoints(step, checkpoint, next) => Some(Checkpoint(h, step, checkpoint, next, check, write))
    case HandlerRaises(error) => Some(Fail(h, delay, error, check, write))
    case WorkerCancelled => Some(Fail(h, 0.0, "CancelledError: worker stopped", check, write))
    case FenceErrorRaised => None
  }

  /** A settling call that was accepted reports a death exactly when it was the failure of a last attempt. */
  lemma DeathIsToldExactly(t: Table, c: Call)
    requires (c.Checkpoint? || c.Complete? || c.Fail?) && Step(t, c).1.Updated?
    ensures c.handle.run in t && t[c.handle.run].status == LEASED
    ensures Step(t, c).1.job.status == DEAD <==> c.Fail? && DiesIn(t, c, c.handle.run)
  {
  }

  lemma SettlementAnswers(t: Table, c: Call)
    requires c.Checkpoint? || c.Complete? || c.Fail?
    ensures Step(t, c).1.Updated? || Step(t, c).1.Refused?
  {
  }

  class LocalExecutionWorker {
    const workerId: string
    const leaseSeconds: real
    const retryBase: real
    const retryMax: real

    constructor (workerId: string, leaseSeconds: real, retryBase: real, retryMax: real)
      requires workerId != "" && leaseSeconds > 0.0 && retryBase >= 0.0 && retryMax >= 0.0
      ensures this.workerId == workerId && this.leaseSeconds == leaseSeconds
      ensures this.retryBase == retryBase && this.retryMax == retryMax
    {
      this.workerId := workerId;
      this.leaseSeconds := leaseSeconds;
      this.retryBase := retryBase;
      this.retryMax := retryMax;
    }

    /**
      One pass: claim, let the handler run while `arrivals` happen, settle. The table ends where
      the whole run of calls ends, and a death is reported exactly when this pass caused it.
    */
    method RunOnce(jobs: ExecutionJobs, ghost history: seq<Call>, sweep: real, look: real, pick: real, grant: real,
                   arrivals: seq<Call>, verdict: Verdict, check: real, write: real)
      returns (pass: Pass, ghost played: seq<Call>)
      requires jobs.rows == After(history, |history|)
      requires verdict.HandlerCheckpoints? ==> verdict.next in {READY, WAITING} && verdict.step != ""
      modifies jobs
      ensures history < played && played[|history|] == Claim(workerId, leaseSeconds, sweep, look, pick, grant)
      ensures jobs.rows == After(played, |played|)
      ensures pass.NothingToDo? <==> !Answer(played, |history|).Granted?
      ensures Answer(played, |history|).Granted? ==>
        var h, attempt := Answer(played, |history|).handle, Answer(played, |history|).job.attempt;
        var settle := Settlement(verdict, h, RetryDelay(retryBase, retryMax, attempt), check, write);
        && history + [played[|history|]] + arrivals <= played
        && (settle.None? ==> pass.Abandoned? && |played| == |history| + 1 + |arrivals|)
        && (settle.Some? ==>
              && |played| == |history| + 2 + |arrivals| && played[|played| - 1] == settle.value
              && var answer := Answer(played, |played| - 1);
                 if answer.Updated? then pass == Settled(answer.job, answer.job.status == DEAD)
                 else answer.Refused? && pass == Abandoned(answer.error))
      ensures pass.Settled? ==>
        var last, t := played[|played| - 1], After(played, |played| - 1);
        (pass.deadReported <==> last.Fail? && last.handle.run in t && DiesIn(t, last, last.handle.run))
    {
      hide Step;
      ghost var claim := Claim(workerId, leaseSeconds, sweep, look, pick, grant);
      AfterOne(history, claim);
      ghost var claimOnly := history + [claim];
      played := claimOnly;
      var claimed := jobs.ClaimJob(workerId, leaseSeconds, sweep, look, pick, grant);
      if !claimed.Granted? {
        return NothingToDo, played;
      }
      var h := claimed.handle;
      jobs.Interfere(claimOnly, arrivals);
      played := claimOnly + arrivals;
      SameAnswer(played, claimOnly, |history|);
      var settle := Settlement(verdict, h, RetryDelay(retryBase, retryMax, claimed.job.attempt), check, write);
      if settle.None? {
        return Abandoned(StaleFence(claimed.job.generation, claimed.job.epoch, claimed.job.status)), played;
      }
      AfterOne(claimOnly + arrivals, settle.value);
      played := claimOnly + arrivals + [settle.value];
      SameAnswer(played, claimOnly, |history|);
      SettlementAnswers(After(claimOnly + arrivals, |claimOnly + arrivals|), settle.value);
      var settled := jobs.Perform(settle.value);
      if settled.Updated? {
        DeathIsToldExactly(After(claimOnly + arrivals, |claimOnly + arrivals|), settle.value);
      }
      pass := if settled.Updated? then Settled(settled.job, settled.job.status == DEAD) else Abandoned(settled.error);
    }
  }
}
