/** What each accepted call on the job queue records, field by field, and where a granted job's step and checkpoint come from. */
module JobQueueRecords {
  import opened Wrappers
  import opened JobQueue
  import opened JobQueueRuns

  /** Every row but this one is there afterwards exactly if it was before, and says the same. */
  predicate OthersStay(t: Table, t': Table, run: RunId) {
    t'.Keys == t.Keys + {run} && forall other :: other in t && other != run ==> t'[other] == t[other]
  }

  /** What no call on an existing job changes: its limit and its time of creation. */
  predicate SameOrigin(job: Job, job': Job) {
    job'.maxAttempts == job.maxAttempts && job'.createdAt == job.createdAt
  }

  predicate SameWork(job: Job, job': Job) {
    job'.step == job.step && job'.checkpoint == job.checkpoint
  }

  predicate SameCounters(job: Job, job': Job) {
    job'.generation == job.generation && job'.epoch == job.epoch
  }

  predicate NoLease(job: Job) {
    job.leaseOwner.None? && job.leaseExpiresAt.None?
  }

  // ---------------------------------------------------------------- single calls

  /** A new job is ready at once, unleased and untried, with the step, checkpoint, limit and epoch it was given. */
  lemma CreateRecords(t: Table, c: Call)
    requires c.Create? && Valid(c)
    ensures var (t', answer) := Step(t, c);
      if c.runKnown && c.run !in t then
        && OthersStay(t, t', c.run) && answer == Updated(t'[c.run])
        && t'[c.run].step == c.step && t'[c.run].checkpoint == c.checkpoint && t'[c.run].status == READY
        && t'[c.run].attempt == 0 && t'[c.run].maxAttempts == c.maxAttempts && t'[c.run].availableAt == Some(c.now)
        && NoLease(t'[c.run]) && t'[c.run].generation == 0 && t'[c.run].epoch == c.epoch
        && t'[c.run].lastError.None? && t'[c.run].createdAt == c.now
      else t' == t && answer == Refused(if c.runKnown then AlreadyExists else NotFound)
  {
  }

  /** A wake makes a job that is not finished ready now, untried and unleased, under the next epoch. */
  lemma WakeRecords(t: Table, c: Call)
    requires c.Wake?
    ensures var (t', answer) := Step(t, c);
      if c.run in t && t[c.run].status !in {COMPLETED, DEAD} then
        var job, job' := t[c.run], t'[c.run];
        && OthersStay(t, t', c.run) && answer == Updated(job')
        && job'.status == READY && job'.availableAt == Some(c.now) && job'.attempt == 0 && NoLease(job')
        && job'.epoch == job.epoch + 1 && job'.generation == job.generation
        && SameOrigin(job, job') && SameWork(job, job') && job'.lastError == job.lastError
      else t' == t && answer == Refused(if c.run in t then TerminalJob else NotFound)
  {
  }

  /** A commit whose handle does not pass changes nothing and names the row it met. */
  lemma RefusalNamesTheRow(t: Table, c: Call, h: Handle)
    requires Valid(c) && Presented(c) == Some(h) && !Passes(t, h, StartOf(c))
    ensures Step(t, c) == (t, Refused(
      if h.run in t then StaleFence(t[h.run].generation, t[h.run].epoch, t[h.run].status) else NotFound))
  {
  }

  /** The arguments a call is refused for, whatever the table holds. */
  predicate BadArguments(c: Call) {
    match c
    case Create(_, _, step, _, maxAttempts, epoch, _) => step == "" || maxAttempts < 1 || epoch < 0
    case Wake(_, _) => false
    case Claim(worker, lease, _, _, _, _) => worker == "" || lease <= 0.0
    case Renew(_, lease, _, _) => lease <= 0.0
    case Checkpoint(_, step, _, next, _, _) => step == "" || !(next == READY || next == WAITING)
    case Complete(_, _) => false
    case Fail(_, delay, _, _, _) => delay < 0.0
  }

  /** A call is refused for its arguments exactly if they are bad, and then changes nothing. */
  lemma ArgumentsAreChecked(t: Table, c: Call)
    ensures Step(t, c).1 == Refused(InvalidArgument) <==> BadArguments(c)
    ensures BadArguments(c) ==> Step(t, c).0 == t
  {
  }

  /** A renewal moves the end of the lease and nothing else. */
  lemma RenewRecords(t: Table, c: Call)
    requires c.Renew? && Valid(c) && Passes(t, c.handle, c.check)
    ensures var (t', answer) := Step(t, c); var run := c.handle.run;
      && OthersStay(t, t', run) && answer == Updated(t'[run])
      && t'[run].leaseExpiresAt == Some(c.write + c.lease / SECONDS_PER_DAY) && t'[run].leaseOwner == t[run].leaseOwner
      && t'[run].status == t[run].status && t'[run].attempt == t[run].attempt && t'[run].availableAt == t[run].availableAt
      && SameOrigin(t[run], t'[run]) && SameWork(t[run], t'[run]) && SameCounters(t[run], t'[run])
      && t'[run].lastError == t[run].lastError
  {
  }

  /** A checkpoint records the step to go on with, its state and the status asked for, and clears attempts, lease and error. */
  lemma CheckpointRecords(t: Table, c: Call)
    requires c.Checkpoint? && Valid(c) && Passes(t, c.handle, c.check)
    ensures var (t', answer) := Step(t, c); var run := c.handle.run;
      && OthersStay(t, t', run) && answer == Updated(t'[run])
      && t'[run].step == c.step && t'[run].checkpoint == c.checkpoint && t'[run].status == c.next
      && t'[run].attempt == 0 && NoLease(t'[run]) && t'[run].lastError.None?
      && t'[run].availableAt == (if c.next == READY then Some(c.write) else None)
      && SameOrigin(t[run], t'[run]) && SameCounters(t[run], t'[run])
  {
  }

  /** A completion closes the job and takes it out of line. */
  lemma CompleteRecords(t: Table, c: Call)
    requires c.Complete? && Passes(t, c.handle, c.check)
    ensures var (t', answer) := Step(t, c); var run := c.handle.run;
      && OthersStay(t, t', run) && answer == Updated(t'[run])
      && t'[run].status == COMPLETED && t'[run].availableAt.None? && NoLease(t'[run])
      && t'[run].attempt == t[run].attempt && t'[run].lastError == t[run].lastError
      && SameOrigin(t[run], t'[run]) && SameWork(t[run], t'[run]) && SameCounters(t[run], t'[run])
  {
  }

  /** A failed attempt records its error and puts the job back after the delay, or buries it when no attempt is left. */
  lemma FailRecords(t: Table, c: Call)
    requires c.Fail? && Valid(c) && Passes(t, c.handle, c.check)
    ensures var (t', answer) := Step(t, c); var run := c.handle.run;
      && OthersStay(t, t', run) && answer == Updated(t'[run])
      && (t[run].attempt >= t[run].maxAttempts ==> t'[run].status == DEAD && t'[run].availableAt.None?)
      && (t[run].attempt < t[run].maxAttempts ==>
            t'[run].status == RETRY && t'[run].availableAt == Some(c.write + c.delay / SECONDS_PER_DAY))
      && t'[run].lastError == Some(c.error) && t'[run].attempt == t[run].attempt && NoLease(t'[run])
      && SameOrigin(t[run], t'[run]) && SameWork(t[run], t'[run]) && SameCounters(t[run], t'[run])
  {
  }

  /** A row after the sweep of a claim: dead without a lease if its lease ran out on its last attempt, otherwise as it was. */
  predicate SweptTo(job: Job, job': Job, sweep: real) {
    if job.status == LEASED && job.attempt >= job.maxAttempts && job.leaseExpiresAt.Some? && job.leaseExpiresAt.value <= sweep then
      && job'.status == DEAD && NoLease(job') && job'.attempt == job.attempt && job'.availableAt == job.availableAt
      && job'.lastError == (if job.lastError.Some? then job.lastError else Some("lease expired at max attempts"))
      && SameOrigin(job, job') && SameWork(job, job') && SameCounters(job, job')
    else job' == job
  }

  /** A row that can be handed out: attempts left, and due, or under a lease that has run out. */
  predicate HandedOut(job: Job, now: real) {
    && job.attempt < job.maxAttempts
    && (((job.status == READY || job.status == RETRY) && job.availableAt.Some? && job.availableAt.value <= now)
        || (job.status == LEASED && job.leaseExpiresAt.Some? && job.leaseExpiresAt.value <= now))
  }

  predicate LeaseRuns(job: Job, now: real) {
    job.status == LEASED && job.leaseExpiresAt.Some? && job.leaseExpiresAt.value > now
  }

  /** First by due time, then by creation, then by run. */
  predicate ComesFirst(job: Job, run: RunId, other: Job, otherRun: RunId) {
    && job.availableAt.Some? && other.availableAt.Some?
    && (|| job.availableAt.value < other.availableAt.value
        || (job.availableAt == other.availableAt && job.createdAt < other.createdAt)
        || (job.availableAt == other.availableAt && job.createdAt == other.createdAt && run <= otherRun))
  }

  /** A claim sweeps every row and changes no row but the one it hands out. */
  lemma ClaimSweeps(t: Table, now: real, c: Call)
    requires c.Claim? && Valid(c) && Inv(t, now) && Ordered(c) && now <= c.sweep
    ensures var (t', answer) := Step(t, c);
      && (answer == Idle || answer.Granted?) && t'.Keys == t.Keys
      && forall run :: run in t && !(answer.Granted? && answer.handle.run == run) ==> SweptTo(t[run], t'[run], c.sweep)
  {
    hide Exclusive, Before;
  }

  /** It hands out a row exactly if no lease is running and some row can be handed out. */
  lemma ClaimGrantsExactly(t: Table, now: real, c: Call)
    requires c.Claim? && Valid(c) && Inv(t, now) && Ordered(c) && now <= c.sweep
    ensures Step(t, c).1.Granted? <==>
      && (forall run :: run in t ==> !LeaseRuns(t[run], c.check))
      && (exists run :: run in t && HandedOut(t[run], c.pick))
  {
    var swept := Swept(t, c.sweep);
    forall run | run in t
      ensures LiveAt(swept[run], c.check) <==> LeaseRuns(t[run], c.check)
      ensures Claimable(swept[run], c.pick) <==> HandedOut(t[run], c.pick) {
    }
    if exists run :: run in t && HandedOut(t[run], c.pick) {
      var run :| run in t && HandedOut(t[run], c.pick);
      assert run in swept && Claimable(swept[run], c.pick);
      FirstExists(swept, c.pick);
    }
    hide Exclusive, Before;
  }

  /** What it hands out is the first such row, under the caller's lease, with one attempt and one generation more. */
  lemma GrantRecords(t: Table, now: real, c: Call)
    requires c.Claim? && Valid(c) && Inv(t, now) && Ordered(c) && now <= c.sweep && Step(t, c).1.Granted?
    ensures var (t', answer) := Step(t, c); var run := answer.handle.run;
      && run in t && run in t' && answer.job == t'[run] && HandedOut(t[run], c.pick)
      && t'[run].status == LEASED && t'[run].leaseOwner == Some(c.worker)
      && t'[run].leaseExpiresAt == Some(c.grant + c.lease / SECONDS_PER_DAY)
      && t'[run].attempt == t[run].attempt + 1 && t'[run].generation == t[run].generation + 1 && t'[run].epoch == t[run].epoch
      && answer.handle == Handle(run, t'[run].generation, t'[run].epoch)
      && SameOrigin(t[run], t'[run]) && SameWork(t[run], t'[run])
      && t'[run].availableAt == t[run].availableAt && t'[run].lastError == t[run].lastError
  {
    hide Exclusive, Before;
  }

  lemma GrantIsFirst(t: Table, now: real, c: Call, other: RunId)
    requires c.Claim? && Valid(c) && Inv(t, now) && Ordered(c) && now <= c.sweep && Step(t, c).1.Granted?
    requires other in t && HandedOut(t[other], c.pick)
    ensures var run := Step(t, c).1.handle.run; run in t && ComesFirst(t[run], run, t[other], other)
  {
    var run, swept := Step(t, c).1.handle.run, Swept(t, c.sweep);
    GrantRecords(t, now, c);
    assert swept[other] == t[other] && swept[run] == t[run] && Claimable(swept[other], c.pick);
    assert IsFirst(swept, c.pick, run);
    assert Before(swept, run, other);
    hide Exclusive;
  }

  // ---------------------------------------------------------------- whole runs

  /** The call that last set the job's work: its creation, or a checkpoint that was accepted. */
  ghost predicate SetsWork(calls: seq<Call>, k: nat, run: RunId) {
    || Checkpoints(calls, k, run)
    || (k < |calls| && calls[k].Create? && calls[k].run == run && Answer(calls, k).Updated?)
  }

  /** A call that does not set the work of a job leaves it as it is. */
  lemma OnlySettersSetWork(t: Table, now: real, c: Call, run: RunId)
    requires Inv(t, now) && run in t && !(c.Checkpoint? && c.handle.run == run && Step(t, c).1.Updated?)
    ensures run in Step(t, c).0 && SameWork(t[run], Step(t, c).0[run])
  {
    hide Exclusive, Before;
  }

  lemma SettersSetWork(t: Table, c: Call, run: RunId)
    requires Step(t, c).1.Updated?
    requires (c.Checkpoint? && c.handle.run == run) || (c.Create? && c.run == run)
    ensures run in Step(t, c).0 && Step(t, c).0[run].step == c.step && Step(t, c).0[run].checkpoint == c.checkpoint
  {
  }

  lemma JobsAreCreated(t: Table, c: Call, run: RunId)
    requires run !in t && run in Step(t, c).0
    ensures c.Create? && c.run == run && Step(t, c).1.Updated?
  {
    hide Before;
  }

  /** At any moment a job's step and checkpoint are those of its last accepted checkpoint, or of its creation. */
  lemma {:induction false} WorkOrigin(calls: seq<Call>, k: nat, run: RunId) returns (origin: nat)
    requires Timeline(calls) && k <= |calls| && run in After(calls, k)
    ensures origin < k && SetsWork(calls, origin, run) && forall j :: origin < j < k ==> !SetsWork(calls, j, run)
    ensures calls[origin].Checkpoint? || calls[origin].Create?
    ensures After(calls, k)[run].step == calls[origin].step && After(calls, k)[run].checkpoint == calls[origin].checkpoint
  {
    hide Step;
    var before, c := After(calls, k - 1), calls[k - 1];
    RunKeepsInv(calls, k - 1);
    if SetsWork(calls, k - 1, run) {
      SettersSetWork(before, c, run);
      origin := k - 1;
    } else {
      if run !in before { JobsAreCreated(before, c, run); }
      OnlySettersSetWork(before, Clock(calls, k - 1), c, run);
      origin := WorkOrigin(calls, k - 1, run);
    }
  }

  /** So a worker is always handed the step and the checkpoint that the last accepted checkpoint recorded. */
  lemma GrantedWork(calls: seq<Call>, k: nat) returns (origin: nat)
    requires Timeline(calls) && k < |calls| && Answer(calls, k).Granted?
    ensures var run := Answer(calls, k).handle.run;
      origin < k && SetsWork(calls, origin, run) && forall j :: origin < j < k ==> !SetsWork(calls, j, run)
    ensures calls[origin].Checkpoint? || calls[origin].Create?
    ensures Answer(calls, k).job.step == calls[origin].step && Answer(calls, k).job.checkpoint == calls[origin].checkpoint
  {
    hide Step, After, SetsWork;
    RunKeepsInv(calls, k);
    GrantIsValid(After(calls, k), calls[k]);
    GrantRecords(After(calls, k), Clock(calls, k), calls[k]);
    origin := WorkOrigin(calls, k, Answer(calls, k).handle.run);
  }

  lemma GrantIsValid(t: Table, c: Call)
    requires Step(t, c).1.Granted?
    ensures c.Claim? && Valid(c)
  {
  }
}
