/**
  The fenced execution-job queue: one row per run, leased to one worker at a time.

  A row is leased under a (generation, epoch) pair. Claims raise the generation, wakes
  raise the epoch, and every commit presents the pair it was granted. The database clock
  is read once per SQL statement, so a call carries one reading for each statement that
  looks at it and the readings of a call may differ.
*/
module JobQueue {
  import opened Wrappers

  /** Run identifiers carry a fixed-width counter, so their text order is the order of that counter. */
  type RunId = nat

  datatype Status = READY | RETRY | LEASED | WAITING | COMPLETED | DEAD

  datatype Job = Job(
    step: string,
    status: Status,
    checkpoint: string,
    attempt: nat,
    maxAttempts: nat,
    availableAt: Option<real>,
    leaseOwner: Option<string>,
    leaseExpiresAt: Option<real>,
    generation: nat,
    epoch: nat,
    lastError: Option<string>,
    createdAt: real)

  type Table = map<RunId, Job>

  /** What a claim hands to a worker and what the worker presents back. */
  datatype Handle = Handle(run: RunId, generation: int, epoch: int)

  datatype Error =
    | InvalidArgument
    | NotFound
    | AlreadyExists
    | TerminalJob
    | StaleFence(generation: nat, epoch: nat, status: Status)

  datatype Outcome =
    | Granted(handle: Handle, job: Job)
    | Idle
    | Updated(job: Job)
    | Refused(error: Error)

  /** One public call on the queue together with the clock readings its statements make. */
  datatype Call =
    | Create(run: RunId, runKnown: bool, step: string, checkpoint: string, maxAttempts: int, epoch: int, now: real)
    | Wake(run: RunId, now: real)
    | Claim(worker: string, lease: real, sweep: real, check: real, pick: real, grant: real)
    | Renew(handle: Handle, lease: real, check: real, write: real)
    | Checkpoint(handle: Handle, step: string, checkpoint: string, next: Status, check: real, write: real)
    | Complete(handle: Handle, check: real)
    | Fail(handle: Handle, delay: real, error: string, check: real, write: real)

  const SECONDS_PER_DAY := 86400.0

  function StartOf(c: Call): real {
    match c
    case Create(_, _, _, _, _, _, now) => now
    case Wake(_, now) => now
    case Claim(_, _, sweep, _, _, _) => sweep
    case Renew(_, _, check, _) => check
    case Checkpoint(_, _, _, _, check, _) => check
    case Complete(_, check) => check
    case Fail(_, _, _, check, _) => check
  }

  function EndOf(c: Call): real {
    match c
    case Create(_, _, _, _, _, _, now) => now
    case Wake(_, now) => now
    case Claim(_, _, _, _, _, grant) => grant
    case Renew(_, _, _, write) => write
    case Checkpoint(_, _, _, _, _, write) => write
    case Complete(_, check) => check
    case Fail(_, _, _, _, write) => write
  }

  /** The readings inside one call never run backwards. */
  predicate Ordered(c: Call) {
    match c
    case Claim(_, _, sweep, check, pick, grant) => sweep <= check <= pick <= grant
    case Renew(_, _, check, write) => check <= write
    case Checkpoint(_, _, _, _, check, write) => check <= write
    case Fail(_, _, _, check, write) => check <= write
    case _ => true
  }

  // ---------------------------------------------------------------- row predicates

  predicate ExpiredBy(job: Job, now: real) {
    job.leaseExpiresAt.Some? && job.leaseExpiresAt.value <= now
  }

  predicate LiveAt(job: Job, now: real) {
    job.status == LEASED && job.leaseExpiresAt.Some? && job.leaseExpiresAt.value > now
  }

  predicate Claimable(job: Job, now: real) {
    && job.attempt < job.maxAttempts
    && ((job.status in {READY, RETRY} && job.availableAt.Some? && job.availableAt.value <= now)
        || (job.status == LEASED && ExpiredBy(job, now)))
  }

  predicate Exhausted(job: Job, now: real) {
    job.status == LEASED && ExpiredBy(job, now) && job.attempt >= job.maxAttempts
  }

  /** The fence: the handle names the current lease and the lease has not run out. */
  predicate Passes(t: Table, h: Handle, now: real) {
    h.run in t && LiveAt(t[h.run], now) && t[h.run].generation == h.generation && t[h.run].epoch == h.epoch
  }

  /** Position of a row in the claim order. */
  function SortKey(job: Job): real {
    if job.availableAt.Some? then job.availableAt.value
    else if job.leaseExpiresAt.Some? then job.leaseExpiresAt.value
    else 0.0
  }

  predicate Before(t: Table, a: RunId, b: RunId)
    requires a in t && b in t
  {
    var ka, kb := SortKey(t[a]), SortKey(t[b]);
    ka < kb || (ka == kb && (t[a].createdAt < t[b].createdAt || (t[a].createdAt == t[b].createdAt && a <= b)))
  }

  /** The row that ORDER BY ... LIMIT 1 returns. */
  predicate IsFirst(t: Table, now: real, id: RunId) {
    && id in t && Claimable(t[id], now)
    && forall other :: other in t && Claimable(t[other], now) ==> Before(t, id, other)
  }

  lemma {:induction false} FirstAmong(t: Table, now: real, ids: set<RunId>) returns (first: RunId)
    requires ids != {}
    requires forall id :: id in ids ==> id in t && Claimable(t[id], now)
    ensures first in ids && forall other :: other in ids ==> Before(t, first, other)
    decreases ids
  {
    var x :| x in ids;
    if ids == {x} {
      first := x;
    } else {
      var rest := FirstAmong(t, now, ids - {x});
      first := if Before(t, x, rest) then x else rest;
      assert Before(t, first, x) && Before(t, first, rest);
      forall other | other in ids ensures Before(t, first, other) {
        assert other == x || other in ids - {x};
      }
    }
  }

  /** Some row is first in the claim order whenever any row can be claimed, and only one is. */
  lemma FirstExists(t: Table, now: real)
    requires exists id :: id in t && Claimable(t[id], now)
    ensures exists id :: IsFirst(t, now, id)
    ensures forall a, b :: IsFirst(t, now, a) && IsFirst(t, now, b) ==> a == b
  {
    var ids := set id | id in t && Claimable(t[id], now);
    var some :| some in t && Claimable(t[some], now);
    assert some in ids;
    var first := FirstAmong(t, now, ids);
    assert IsFirst(t, now, first);
  }

  // ---------------------------------------------------------------- transitions

  /** Leases that ran out on their last attempt die at the start of every claim. */
  function Swept(t: Table, now: real): Table {
    map id | id in t :: if Exhausted(t[id], now) then Bury(t[id]) else t[id]
  }

  function Bury(job: Job): Job {
    job.(status := DEAD, leaseOwner := None, leaseExpiresAt := None,
         lastError := if job.lastError.None? then Some("lease expired at max attempts") else job.lastError)
  }

  function Lease(job: Job, worker: string, expires: real): Job {
    job.(status := LEASED, attempt := job.attempt + 1, leaseOwner := Some(worker),
         leaseExpiresAt := Some(expires), generation := job.generation + 1)
  }

  function Renewed(job: Job, expires: real): Job {
    job.(leaseExpiresAt := Some(expires))
  }

  function Woken(job: Job, now: real): Job {
    job.(status := READY, availableAt := Some(now), leaseOwner := None, leaseExpiresAt := None,
         epoch := job.epoch + 1, attempt := 0)
  }

  function Parked(job: Job, step: string, checkpoint: string, next: Status, now: real): Job {
    job.(step := step, checkpoint := checkpoint, status := next, attempt := 0,
         availableAt := if next == READY then Some(now) else None,
         leaseOwner := None, leaseExpiresAt := None, lastError := None)
  }

  function Finished(job: Job): Job {
    job.(status := COMPLETED, availableAt := None, leaseOwner := None, leaseExpiresAt := None)
  }

  function Failed(job: Job, delay: real, error: string, now: real): Job {
    var next := if job.attempt >= job.maxAttempts then DEAD else RETRY;
    job.(status := next, availableAt := if next == RETRY then Some(now + delay / SECONDS_PER_DAY) else None,
         leaseOwner := None, leaseExpiresAt := None, lastError := Some(error))
  }

  function NewJob(step: string, checkpoint: string, maxAttempts: nat, epoch: nat, now: real): Job {
    Job(step, READY, checkpoint, 0, maxAttempts, Some(now), None, None, 0, epoch, None, now)
  }

  function FenceError(t: Table, h: Handle): Error {
    if h.run !in t then NotFound
    else StaleFence(t[h.run].generation, t[h.run].epoch, t[h.run].status)
  }

  /** A commit rewrites its row when the handle passes the fence and is refused otherwise. */
  function Fenced(t: Table, h: Handle, check: real, update: Job -> Job): (Table, Outcome) {
    if Passes(t, h, check) then (t[h.run := update(t[h.run])], Updated(update(t[h.run])))
    else (t, Refused(FenceError(t, h)))
  }

  predicate Valid(c: Call) {
    match c
    case Create(_, _, step, _, maxAttempts, epoch, _) => step != "" && maxAttempts >= 1 && epoch >= 0
    case Claim(worker, lease, _, _, _, _) => worker != "" && lease > 0.0
    case Renew(_, lease, _, _) => lease > 0.0
    case Checkpoint(_, step, _, next, _, _) => next in {READY, WAITING} && step != ""
    case Fail(_, delay, _, _, _) => delay >= 0.0
    case _ => true
  }

  ghost function Step(t: Table, c: Call): (Table, Outcome) {
    if !Valid(c) then (t, Refused(InvalidArgument))
    else
      match c
      case Create(run, runKnown, step, checkpoint, maxAttempts, epoch, now) =>
        if !runKnown then (t, Refused(NotFound))
        else if run in t then (t, Refused(AlreadyExists))
        else var job := NewJob(step, checkpoint, maxAttempts, epoch, now); (t[run := job], Updated(job))
      case Wake(run, now) =>
        if run !in t then (t, Refused(NotFound))
        else if t[run].status in {COMPLETED, DEAD} then (t, Refused(TerminalJob))
        else var job := Woken(t[run], now); (t[run := job], Updated(job))
      case Claim(worker, lease, sweep, check, pick, grant) =>
        var swept := Swept(t, sweep);
        if exists id :: id in swept && LiveAt(swept[id], check) then (swept, Idle)
        else if exists id :: IsFirst(swept, pick, id) then
          var id :| IsFirst(swept, pick, id);
          var job := Lease(swept[id], worker, grant + lease / SECONDS_PER_DAY);
          (swept[id := job], Granted(Handle(id, job.generation, job.epoch), job))
        else (swept, Idle)
      case Renew(h, lease, check, write) =>
        Fenced(t, h, check, job => Renewed(job, write + lease / SECONDS_PER_DAY))
      case Checkpoint(h, step, checkpoint, next, check, write) =>
        Fenced(t, h, check, job => Parked(job, step, checkpoint, next, write))
      case Complete(h, check) =>
        Fenced(t, h, check, job => Finished(job))
      case Fail(h, delay, error, check, write) =>
        Fenced(t, h, check, job => Failed(job, delay, error, write))
  }

  // ---------------------------------------------------------------- what every call keeps

  predicate RowOk(job: Job) {
    && job.attempt <= job.maxAttempts && job.maxAttempts >= 1
    && (job.status == LEASED <==> job.leaseExpiresAt.Some?)
    && (job.status == LEASED <==> job.leaseOwner.Some?)
    && (job.status == LEASED ==> job.attempt >= 1 && job.availableAt.Some?)
    && (job.status in {READY, RETRY} ==> job.availableAt.Some? && job.attempt < job.maxAttempts)
    && (job.status == WAITING ==> job.availableAt.None? && job.attempt == 0)
  }

  /** At most one row holds a lease that is still running at `now`. */
  predicate Exclusive(t: Table, now: real) {
    forall a, b :: a in t && b in t && LiveAt(t[a], now) && LiveAt(t[b], now) ==> a == b
  }

  predicate Inv(t: Table, now: real) {
    (forall id :: id in t ==> RowOk(t[id])) && Exclusive(t, now)
  }

  /** Writing a sound row keeps the table sound if the row is not live or was the live one already. */
  lemma WriteKeepsInv(t: Table, now: real, later: real, id: RunId, job: Job)
    requires Inv(t, now) && now <= later && RowOk(job)
    requires LiveAt(job, later) ==> forall other :: other in t && LiveAt(t[other], later) ==> other == id
    ensures Inv(t[id := job], later)
  {
  }

  lemma SweepKeepsInv(t: Table, now: real, sweep: real)
    requires Inv(t, now) && now <= sweep
    ensures Inv(Swept(t, sweep), sweep)
  {
    forall id | id in t ensures RowOk(Swept(t, sweep)[id]) {
      assert RowOk(t[id]);
    }
  }

  lemma FencedKeepsInv(t: Table, now: real, h: Handle, check: real, write: real, update: Job -> Job)
    requires Inv(t, now) && now <= check <= write
    requires Passes(t, h, check) ==> RowOk(update(t[h.run]))
    ensures Inv(Fenced(t, h, check, update).0, write)
  {
    if Passes(t, h, check) {
      WriteKeepsInv(t, now, write, h.run, update(t[h.run]));
    }
  }

  lemma ClaimKeepsInv(t: Table, now: real, c: Call)
    requires c.Claim? && Valid(c) && Inv(t, now) && Ordered(c) && now <= c.sweep
    ensures Inv(Step(t, c).0, c.grant)
  {
    var swept := Swept(t, c.sweep);
    SweepKeepsInv(t, now, c.sweep);
    var (t', outcome) := Step(t, c);
    if outcome.Granted? {
      var id := outcome.handle.run;
      WriteKeepsInv(swept, c.sweep, c.grant, id, t'[id]);
    }
  }

  /** Every call keeps every row sound and leaves at most one running lease. */
  lemma StepKeepsInv(t: Table, now: real, c: Call)
    requires Inv(t, now) && Ordered(c) && now <= StartOf(c)
    ensures Inv(Step(t, c).0, EndOf(c))
  {
    if Valid(c) {
      match c
      case Create(run, _, step, checkpoint, maxAttempts, epoch, at) =>
        WriteKeepsInv(t, now, at, run, NewJob(step, checkpoint, maxAttempts, epoch, at));
      case Wake(run, at) =>
        if run in t { WriteKeepsInv(t, now, at, run, Woken(t[run], at)); }
      case Claim(_, _, _, _, _, _) =>
        ClaimKeepsInv(t, now, c);
      case Renew(h, lease, check, write) =>
        FencedKeepsInv(t, now, h, check, write, job => Renewed(job, write + lease / SECONDS_PER_DAY));
      case Checkpoint(h, step, checkpoint, next, check, write) =>
        FencedKeepsInv(t, now, h, check, write, job => Parked(job, step, checkpoint, next, write));
      case Complete(h, check) =>
        FencedKeepsInv(t, now, h, check, check, job => Finished(job));
      case Fail(h, delay, error, check, write) =>
        FencedKeepsInv(t, now, h, check, write, job => Failed(job, delay, error, write));
    }
  }

  /** A row that exists stays, its counters never go back, and a finished row never changes again. */
  predicate RowAdvances(before: Table, after: Table, id: RunId) {
    id in before ==>
      && id in after
      && before[id].generation <= after[id].generation && before[id].epoch <= after[id].epoch
      && before[id].maxAttempts == after[id].maxAttempts
      && (before[id].status in {COMPLETED, DEAD} ==> after[id] == before[id])
  }

  lemma ClaimAdvances(t: Table, now: real, c: Call, id: RunId)
    requires Inv(t, now) && c.Claim?
    ensures RowAdvances(t, Step(t, c).0, id)
  {
    hide Exclusive;
  }

  lemma StepAdvances(t: Table, now: real, c: Call, id: RunId)
    requires Inv(t, now)
    ensures RowAdvances(t, Step(t, c).0, id)
  {
    if c.Claim? { ClaimAdvances(t, now, c, id); }
  }
}
