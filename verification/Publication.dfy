/**
  Crash-resumable stage publication. A worker re-runs its step from the top after any failure
  and looks before it writes. Every durable write is one unit of `fuel`; when none is left the
  process dies, or the write fails and the exception ends the attempt, with everything written
  so far kept.
*/
module Publication {
  import opened Wrappers

  datatype Phase = INGEST | PROFILE | PLAN | TRAIN | EVALUATE | PACKAGE

  const ORDER: seq<Phase> := [INGEST, PROFILE, PLAN, TRAIN, EVALUATE, PACKAGE]

  function Rank(p: Phase): nat {
    match p case INGEST => 0 case PROFILE => 1 case PLAN => 2 case TRAIN => 3 case EVALUATE => 4 case PACKAGE => 5
  }

  datatype Kind =
    | DATA_QUALITY_REPORT
    | TASK_SPEC
    | SPLIT_MANIFEST
    | BASELINE_RESULT
    | TRIAL_RESULT(number: int)
    | EVALUATION_REPORT
    | MODEL_CARD
    | RUN_REPORT
    | FAILURE_REPORT

  datatype Status = QUEUED | RUNNING | PAUSED | WAITING_USER | WAITING_APPROVAL | TERMINAL
  datatype Outcome = SUCCEEDED | FAILED | CANCELED

  datatype Event =
    | StageCompleted(phase: Phase)
    | PhaseChanged(phase: Phase, status: Status)
    | OutputCommitted(kind: Kind)
    | DecisionRequested
    | ApprovalRequested
    | RunCompleted
    | RunFailed
    | RunCanceled

  /** The workflow step on the run's job row; a completed or dead job is closed. */
  datatype Job = PROFILE_STEP | RESOLVE_TASK_STEP | TRAIN_STEP | CLOSED

  /** What survives a crash. */
  datatype Durable = Durable(
    outputs: seq<Kind>, events: seq<Event>, phase: Phase, status: Status, result: Option<Outcome>, revision: nat, job: Job)

  /** A lock section in progress: durable state, writes left, and whether the attempt is still alive. */
  datatype Section = Section(d: Durable, fuel: nat, alive: bool)

  predicate Has(d: Durable, kind: Kind) { kind in d.outputs }
  predicate Completed(d: Durable, phase: Phase) { StageCompleted(phase) in d.events }

  // ---------------------------------------------------------------- single writes

  function Write(s: Section, d: Durable): Section {
    if s.alive && s.fuel > 0 then Section(d, s.fuel - 1, true) else s.(alive := false)
  }

  /** A write to fields that nothing here reads: snapshot_seq, latest references, output identifiers, packets. */
  function Touch(s: Section): Section {
    Write(s, s.d)
  }

  function Enter(s: Section, phase: Phase, status: Status): Section {
    Write(s, s.d.(phase := phase, status := status))
  }

  function Emit(s: Section, e: Event): Section {
    Touch(Write(s, s.d.(events := s.d.events + [e])))
  }

  function Commit(s: Section, kind: Kind): Section {
    Touch(Emit(Write(s, s.d.(outputs := s.d.outputs + [kind])), OutputCommitted(kind)))
  }

  function CommitOnce(s: Section, kind: Kind): Section {
    if Has(s.d, kind) then s else Commit(s, kind)
  }

  function Complete(s: Section, phase: Phase): Section {
    if Completed(s.d, phase) then s else Emit(s, StageCompleted(phase))
  }

  function Transition(s: Section, phase: Phase): Section {
    var updated := if Rank(s.d.phase) >= Rank(phase) then s else Enter(s, phase, RUNNING);
    if PhaseChanged(phase, RUNNING) in updated.d.events then updated else Emit(updated, PhaseChanged(phase, RUNNING))
  }

  /** Result, terminal status and events in one mutation, refused for a stale revision or a stored result. */
  function Finalize(s: Section, expected: nat, outcome: Outcome, phase: Phase, events: seq<Event>): Section {
    if !s.alive then s
    else if expected != s.d.revision || s.d.result.Some? then s.(alive := false)
    else
      Write(s, s.d.(result := Some(outcome), status := TERMINAL, phase := phase, revision := s.d.revision + 1,
                    events := s.d.events + events))
  }

  // ---------------------------------------------------------------- lock sections

  function RequestDecision(s: Section): Section {
    var asked := Touch(Write(s, s.d.(phase := PLAN, status := WAITING_USER, revision := s.d.revision + 1)));
    Emit(Emit(asked, PhaseChanged(PLAN, WAITING_USER)), DecisionRequested)
  }

  function ExecuteProfile(s: Section, questions: bool): Section {
    var entered := Enter(s, PROFILE, RUNNING);
    var running := Emit(Complete(entered, INGEST), PhaseChanged(PROFILE, RUNNING));
    var profiled := Complete(Touch(Commit(running, DATA_QUALITY_REPORT)), PROFILE);
    if questions then RequestDecision(profiled)
    else Write(profiled, profiled.d.(phase := PLAN, status := QUEUED, revision := profiled.d.revision + 1))
  }

  function PlanOutputs(s: Section): Section {
    Touch(CommitOnce(Touch(CommitOnce(s, TASK_SPEC)), SPLIT_MANIFEST))
  }

  function PublishPlan(s: Section): Section {
    if s.d.status == TERMINAL then s
    else Transition(if Completed(s.d, PLAN) then s else Complete(PlanOutputs(s), PLAN), TRAIN)
  }

  function Trials(s: Section, trials: seq<int>): Section {
    if trials == [] then s else CommitOnce(Trials(s, trials[..|trials| - 1]), TRIAL_RESULT(trials[|trials| - 1]))
  }

  function PublishTrain(s: Section, trials: seq<int>): Section {
    if s.d.status == TERMINAL then s
    else
      Transition(if Completed(s.d, TRAIN) then s else Complete(Trials(CommitOnce(s, BASELINE_RESULT), trials), TRAIN), EVALUATE)
  }

  function Evaluated(s: Section): Section {
    Transition(Complete(CommitOnce(s, EVALUATION_REPORT), EVALUATE), PACKAGE)
  }

  function Packaged(s: Section): Section {
    CommitOnce(CommitOnce(Evaluated(s), MODEL_CARD), RUN_REPORT)
  }

  function PublishResult(s: Section, approval: bool): Section {
    if !Has(s.d, TASK_SPEC) || !Has(s.d, SPLIT_MANIFEST) then s.(alive := false)
    else
      var ready := Packaged(s);
      if approval then
        var filed := Touch(ready);
        Write(filed, filed.d.(phase := PACKAGE, status := WAITING_APPROVAL, revision := filed.d.revision + 1,
                                events := filed.d.events + [ApprovalRequested]))
      else Finalize(ready, ready.d.revision, SUCCEEDED, PACKAGE, [StageCompleted(PACKAGE), RunCompleted])
  }

  function FailRun(s: Section): Section {
    var reported := CommitOnce(s, FAILURE_REPORT);
    Finalize(reported, reported.d.revision, FAILED, reported.d.phase, [RunFailed])
  }

  // ---------------------------------------------------------------- the worker and its surroundings

  /** Where the one attempt in flight is: between the lock sections of a training attempt anything may happen. */
  datatype Pc = IDLE | PICKED | STARTED | PLANNED | TRAINED | BROKEN

  datatype World = World(d: Durable, pc: Pc)

  /** `fuel` bounds the writes of a step; `settled` says whether the job row accepts what the attempt returns. */
  datatype Step =
    | Pick(settled: bool)
    | Profile(fuel: nat, questions: bool, settled: bool)
    | Resolve(fuel: nat, settled: bool)
    | Begin(fuel: nat, settled: bool)
    | PlanCallback(fuel: nat)
    | TrainCallback(fuel: nat, trials: seq<int>)
    | Publish(fuel: nat, approval: bool, settled: bool)
    | PositiveClassNeeded(fuel: nat, settled: bool)
    | EngineError(fuel: nat, settled: bool)
    | Crash
    | Cancel(fuel: nat)
    | Pause(fuel: nat)
    | Resume(fuel: nat, open: bool)
    | Answer(fuel: nat)
    | Decide(fuel: nat)
    | JobDies
    | DeadReport(fuel: nat)
    | DeadFinalize(fuel: nat, expected: nat)

  function Lock(w: World, fuel: nat): Section {
    Section(w.d, fuel, true)
  }

  predicate Training(pc: Pc) { pc in {STARTED, PLANNED, TRAINED, BROKEN} }

  /** The attempt is over; what it returns reaches the job row if it is alive and the fence lets it pass. */
  function Over(s: Section, settled: bool, job: Job): World {
    World(if s.alive && settled then s.d.(job := job) else s.d, IDLE)
  }

  function Free(w: World, s: Section): World {
    w.(d := s.d)
  }

  function PickStep(w: World, settled: bool): World {
    if w.pc != IDLE || w.d.job == CLOSED then w
    else if w.d.status in {TERMINAL, WAITING_APPROVAL} then Over(Lock(w, 0), settled, CLOSED)
    else if w.d.status in {PAUSED, WAITING_USER} then w
    else w.(pc := PICKED)
  }

  function ProfileStep(w: World, fuel: nat, questions: bool, settled: bool): World {
    if w.pc != PICKED || w.d.job != PROFILE_STEP then w
    else if w.d.status == TERMINAL then Over(Lock(w, fuel), settled, CLOSED)
    else Over(ExecuteProfile(Lock(w, fuel), questions), settled, if questions then RESOLVE_TASK_STEP else TRAIN_STEP)
  }

  function ResolveStep(w: World, fuel: nat, settled: bool): World {
    if w.pc != PICKED || w.d.job != RESOLVE_TASK_STEP then w
    else if w.d.status == TERMINAL then Over(Lock(w, fuel), settled, CLOSED)
    else Over(Touch(Enter(Lock(w, fuel), PLAN, QUEUED)), settled, TRAIN_STEP)
  }

  function BeginStep(w: World, fuel: nat, settled: bool): World {
    if w.pc != PICKED || w.d.job != TRAIN_STEP then w
    else if w.d.status == TERMINAL then Over(Lock(w, fuel), settled, CLOSED)
    else if w.d.status == PAUSED then w.(pc := IDLE)
    else
      var s := Enter(Lock(w, fuel), PLAN, RUNNING);
      World(s.d, if s.alive then STARTED else IDLE)
  }

  function PublishStep(w: World, fuel: nat, approval: bool, settled: bool): World {
    if w.pc != TRAINED then w
    else if w.d.status == TERMINAL then Over(Lock(w, fuel), settled, CLOSED)
    else if w.d.status == PAUSED then w.(pc := IDLE)
    else Over(PublishResult(Lock(w, fuel), approval), settled, CLOSED)
  }

  function CallbackStep(w: World, s: Section, next: Pc): World {
    World(s.d, if s.alive then next else BROKEN)
  }

  function Control(w: World, fuel: nat, status: Status): World {
    var s := Lock(w, fuel);
    Free(w, Emit(Write(s, s.d.(status := status, revision := s.d.revision + 1)), PhaseChanged(s.d.phase, status)))
  }

  function Next(w: World, step: Step): World {
    match step
    case Pick(settled) => PickStep(w, settled)
    case Profile(fuel, questions, settled) => ProfileStep(w, fuel, questions, settled)
    case Resolve(fuel, settled) => ResolveStep(w, fuel, settled)
    case Begin(fuel, settled) => BeginStep(w, fuel, settled)
    case PlanCallback(fuel) => if w.pc == STARTED then CallbackStep(w, PublishPlan(Lock(w, fuel)), PLANNED) else w
    case TrainCallback(fuel, trials) => if w.pc == PLANNED then CallbackStep(w, PublishTrain(Lock(w, fuel), trials), TRAINED) else w
    case Publish(fuel, approval, settled) => PublishStep(w, fuel, approval, settled)
    case PositiveClassNeeded(fuel, settled) =>
      if Training(w.pc) then Over(RequestDecision(Lock(w, fuel)), settled, RESOLVE_TASK_STEP) else w
    case EngineError(fuel, settled) => if Training(w.pc) then Over(FailRun(Lock(w, fuel)), settled, CLOSED) else w
    case Crash => w.(pc := IDLE)
    case Cancel(fuel) =>
      if w.d.status == TERMINAL then w else Free(w, Finalize(Lock(w, fuel), w.d.revision, CANCELED, w.d.phase, [RunCanceled]))
    case Pause(fuel) => if w.d.status in {TERMINAL, PAUSED} then w else Control(w, fuel, PAUSED)
    case Resume(fuel, open) => if w.d.status != PAUSED then w else Control(w, fuel, if open then WAITING_USER else RUNNING)
    case Answer(fuel) =>
      if w.d.status != WAITING_USER then w
      else Free(w, Write(Lock(w, fuel), w.d.(status := QUEUED, revision := w.d.revision + 1)))
    case Decide(fuel) =>
      if w.d.status != WAITING_APPROVAL then w
      else Free(w, Finalize(Lock(w, fuel), w.d.revision, SUCCEEDED, PACKAGE, [StageCompleted(PACKAGE), RunCompleted]))
    case JobDies => w.(d := w.d.(job := CLOSED))
    case DeadReport(fuel) =>
      if w.d.status == TERMINAL then w else Free(w, CommitOnce(Lock(w, fuel), FAILURE_REPORT))
    case DeadFinalize(fuel, expected) => Free(w, Finalize(Lock(w, fuel), expected, FAILED, w.d.phase, [RunFailed]))
  }

  const NEW_RUN := World(Durable([], [], INGEST, QUEUED, None, 1, PROFILE_STEP), IDLE)

  ghost function After(steps: seq<Step>, k: nat): World
    requires k <= |steps|
  {
    if k == 0 then NEW_RUN else Next(After(steps, k - 1), steps[k - 1])
  }

  // ---------------------------------------------------------------- the invariant

  /** The phases announced as completed, in the order of the log. */
  function Stages(events: seq<Event>): seq<Phase> {
    if events == [] then []
    else
      var last := events[|events| - 1];
      Stages(events[..|events| - 1]) + if last.StageCompleted? then [last.phase] else []
  }

  /** What must exist before a phase may be announced. */
  predicate Ready(d: Durable, phase: Phase) {
    match phase
    case INGEST => true
    case PROFILE => Has(d, DATA_QUALITY_REPORT) && Completed(d, INGEST)
    case PLAN => Has(d, TASK_SPEC) && Has(d, SPLIT_MANIFEST) && Completed(d, PROFILE)
    case TRAIN => Has(d, BASELINE_RESULT) && Completed(d, PLAN)
    case EVALUATE => Has(d, EVALUATION_REPORT) && Completed(d, TRAIN)
    case PACKAGE => Has(d, MODEL_CARD) && Has(d, RUN_REPORT) && Completed(d, EVALUATE)
  }

  predicate CreatedOnce(outputs: seq<Kind>) {
    forall i, j :: 0 <= i < j < |outputs| && outputs[i] == outputs[j] ==> outputs[i] == DATA_QUALITY_REPORT
  }

  ghost predicate CommittedOnce(outputs: seq<Kind>, events: seq<Event>) {
    && (forall i, j :: 0 <= i < j < |events| && events[i] == events[j] && events[i].OutputCommitted? ==>
          events[i].kind == DATA_QUALITY_REPORT)
    && (forall e :: e in events && e.OutputCommitted? ==> e.kind in outputs)
  }

  ghost predicate OutputsOnce(d: Durable) {
    CreatedOnce(d.outputs) && CommittedOnce(d.outputs, d.events)
  }

  ghost predicate StagesOk(d: Durable) {
    && Stages(d.events) <= ORDER
    && (forall phase :: Completed(d, phase) ==> Ready(d, phase))
    && (Completed(d, PACKAGE) ==> d.result.Some?)
  }

  predicate StatusOk(d: Durable) {
    && (d.status == TERMINAL ==> d.result.Some?)
    && (d.status == WAITING_APPROVAL ==> Ready(d, PACKAGE))
    && (d.job == RESOLVE_TASK_STEP || d.job == TRAIN_STEP ==> Completed(d, PROFILE))
  }

  ghost predicate Consistent(d: Durable) {
    OutputsOnce(d) && StagesOk(d) && StatusOk(d)
  }

  ghost predicate Inv(w: World) {
    && Consistent(w.d)
    && (Training(w.pc) ==> Completed(w.d, PROFILE))
    && (w.pc == PLANNED ==> Completed(w.d, PLAN) || w.d.status == TERMINAL)
    && (w.pc == TRAINED ==> Completed(w.d, TRAIN) || w.d.status == TERMINAL)
  }

  /** Nothing is ever taken back. */
  predicate Grows(d: Durable, d': Durable) {
    d.outputs <= d'.outputs && d.events <= d'.events && (d.result.Some? ==> d'.result == d.result)
  }

  /** An output that is already there is not announced any more; the data quality report is the exception. */
  ghost predicate Silent(d: Durable, d': Durable) {
    forall kind :: kind != DATA_QUALITY_REPORT && Has(d, kind) && OutputCommitted(kind) in d'.events ==> OutputCommitted(kind) in d.events
  }

  lemma SilentTransitive(a: Durable, b: Durable, c: Durable)
    requires Silent(a, b) && Silent(b, c) && Grows(a, b)
    ensures Silent(a, c)
  {
    GrowsKeeps(a, b);
    hide Has, Grows;
  }

  lemma GrowsTransitive(a: Durable, b: Durable, c: Durable)
    requires Grows(a, b) && Grows(b, c)
    ensures Grows(a, c)
  {
  }

  lemma GrowsKeeps(d: Durable, d': Durable)
    requires Grows(d, d')
    ensures forall kind :: Has(d, kind) ==> Has(d', kind)
    ensures forall phase :: Completed(d, phase) ==> Completed(d', phase)
    ensures forall phase :: Ready(d, phase) ==> Ready(d', phase)
  {
  }

  // ---------------------------------------------------------------- stages

  lemma {:induction false} StagesMember(events: seq<Event>, phase: Phase)
    ensures phase in Stages(events) <==> StageCompleted(phase) in events
  {
    if events != [] {
      var n := |events| - 1;
      StagesMember(events[..n], phase);
      assert events == events[..n] + [events[n]];
    }
  }

  lemma StagesAppend(events: seq<Event>, e: Event)
    ensures Stages(events + [e]) == Stages(events) + if e.StageCompleted? then [e.phase] else []
  {
    assert (events + [e])[..|events|] == events;
  }

  /** A phase that is not announced yet, and whose predecessor is, comes next. */
  lemma NextStage(events: seq<Event>, phase: Phase)
    requires Stages(events) <= ORDER && StageCompleted(phase) !in events
    requires phase == INGEST || StageCompleted(ORDER[Rank(phase) - 1]) in events
    ensures Stages(events + [StageCompleted(phase)]) <= ORDER
  {
    var n := |Stages(events)|;
    StagesAppend(events, StageCompleted(phase));
    StagesMember(events, phase);
    assert ORDER[Rank(phase)] == phase;
    if phase != INGEST {
      StagesMember(events, ORDER[Rank(phase) - 1]);
      var i :| 0 <= i < n && Stages(events)[i] == ORDER[Rank(phase) - 1];
      assert ORDER[i] == ORDER[Rank(phase) - 1];
    }
    assert forall i :: 0 <= i < n ==> ORDER[i] in Stages(events) && ORDER[i] != phase;
  }

  // ---------------------------------------------------------------- what the single writes keep

  lemma OnceAfterOutput(d: Durable, kind: Kind)
    requires OutputsOnce(d) && (kind == DATA_QUALITY_REPORT || !Has(d, kind))
    ensures OutputsOnce(d.(outputs := d.outputs + [kind]))
  {
  }

  lemma OnceAfterEvent(outputs: seq<Kind>, events: seq<Event>, e: Event)
    requires CommittedOnce(outputs, events)
    requires e.OutputCommitted? ==> e.kind in outputs && (e.kind == DATA_QUALITY_REPORT || e !in events)
    ensures CommittedOnce(outputs, events + [e])
  {
  }

  lemma StagesAfterNeutral(d: Durable, d': Durable, e: Event)
    requires StagesOk(d) && Grows(d, d') && d'.events == d.events + [e] && !e.StageCompleted?
    ensures StagesOk(d')
  {
    hide Grows, Ready;
    StagesAppend(d.events, e);
    GrowsKeeps(d, d');
    assert forall phase :: Completed(d', phase) ==> Completed(d, phase);
    GrowsKeepsResult(d, d');
  }

  lemma GrowsKeepsResult(d: Durable, d': Durable)
    requires Grows(d, d')
    ensures d.result.Some? ==> d'.result == d.result
  {
  }

  lemma StagesAfterStage(d: Durable, d': Durable, phase: Phase)
    requires StagesOk(d) && Grows(d, d') && d'.events == d.events + [StageCompleted(phase)]
    requires !Completed(d, phase) && Ready(d, phase) && (phase == PACKAGE ==> d'.result.Some?)
    ensures StagesOk(d') && Completed(d', phase)
  {
    NextStage(d.events, phase) by { ReadyHasPredecessor(d, phase); }
    hide Grows, Ready;
    GrowsKeeps(d, d');
    assert forall p :: Completed(d', p) ==> Completed(d, p) || p == phase;
    GrowsKeepsResult(d, d');
  }

  lemma ReadyHasPredecessor(d: Durable, phase: Phase)
    requires Ready(d, phase)
    ensures phase == INGEST || StageCompleted(ORDER[Rank(phase) - 1]) in d.events
  {
  }

  lemma StatusAfter(d: Durable, d': Durable)
    requires StatusOk(d) && Grows(d, d') && d'.job == d.job
    requires d'.status == d.status || (d'.status != WAITING_APPROVAL && (d'.status == TERMINAL ==> d'.result.Some?))
    ensures StatusOk(d')
  {
    hide Grows, Ready;
    GrowsKeeps(d, d');
    GrowsKeepsResult(d, d');
  }

  /** A section step that keeps the invariant and takes nothing back. */
  ghost predicate Fine(s: Section, r: Section) {
    Consistent(r.d) && Grows(s.d, r.d) && Silent(s.d, r.d) && (r.alive ==> s.alive) && r.d.job == s.d.job
  }

  lemma FineTransitive(a: Section, b: Section, c: Section)
    requires Fine(a, b) && Fine(b, c)
    ensures Fine(a, c)
  {
    hide Consistent, Silent;
    SilentTransitive(a.d, b.d, c.d);
  }

  lemma FineItself(s: Section, alive: bool)
    requires Consistent(s.d) && (alive ==> s.alive)
    ensures Fine(s, s.(alive := alive)) && Fine(s, s)
  {
  }

  lemma TouchIsFine(s: Section)
    requires Consistent(s.d)
    ensures Fine(s, Touch(s)) && Touch(s).d == s.d
  {
    hide Consistent;
  }

  lemma StatusIsFine(s: Section, d: Durable)
    requires Consistent(s.d) && d == s.d.(phase := d.phase, status := d.status, revision := d.revision)
    requires d.status != TERMINAL && (d.status == WAITING_APPROVAL ==> Ready(d, PACKAGE))
    ensures Fine(s, Write(s, d)) && Write(s, d).d.outputs == s.d.outputs && Write(s, d).d.events == s.d.events
  {
    assert forall phase :: Ready(d, phase) <==> Ready(s.d, phase);
  }

  predicate Neutral(e: Event) { !e.StageCompleted? && !e.OutputCommitted? }

  lemma EmitIsFine(s: Section, e: Event)
    requires Consistent(s.d) && Neutral(e)
    ensures Fine(s, Emit(s, e)) && (Emit(s, e).alive ==> e in Emit(s, e).d.events) && Emit(s, e).d.outputs == s.d.outputs
    ensures Emit(s, e).d.status == s.d.status
  {
    var d := s.d.(events := s.d.events + [e]);
    OnceAfterEvent(s.d.outputs, s.d.events, e);
    StagesAfterNeutral(s.d, d, e);
    StatusAfter(s.d, d);
    hide StagesOk, StatusOk, CreatedOnce, CommittedOnce;
  }

  lemma CompleteIsFine(s: Section, phase: Phase)
    requires Consistent(s.d) && phase != PACKAGE && (s.alive ==> Ready(s.d, phase))
    ensures Fine(s, Complete(s, phase)) && (Complete(s, phase).alive ==> Completed(Complete(s, phase).d, phase))
    ensures Complete(s, phase).d.outputs == s.d.outputs && Complete(s, phase).d.status == s.d.status
  {
    if s.alive && s.fuel > 0 && !Completed(s.d, phase) {
      var d := s.d.(events := s.d.events + [StageCompleted(phase)]);
      OnceAfterEvent(s.d.outputs, s.d.events, StageCompleted(phase));
      StagesAfterStage(s.d, d, phase);
      StatusAfter(s.d, d);
    }
    hide StagesOk, StatusOk, CreatedOnce, CommittedOnce, Ready;
  }

  lemma CommitIsFine(s: Section, kind: Kind)
    requires Consistent(s.d) && (kind == DATA_QUALITY_REPORT || !Has(s.d, kind))
    ensures Fine(s, Commit(s, kind)) && (Commit(s, kind).alive ==> Has(Commit(s, kind).d, kind))
    ensures Commit(s, kind).d.status == s.d.status
  {
    var d := s.d.(outputs := s.d.outputs + [kind]);
    var e := OutputCommitted(kind);
    var d' := d.(events := d.events + [e]);
    OnceAfterOutput(s.d, kind);
    assert e in s.d.events ==> Has(s.d, kind);
    OnceAfterEvent(d.outputs, d.events, e);
    StagesAfterOutput(s.d, d);
    StagesAfterNeutral(d, d', e);
    StatusAfter(s.d, d);
    StatusAfter(s.d, d');
    hide StagesOk, StatusOk, CreatedOnce, CommittedOnce;
  }

  lemma StagesAfterOutput(d: Durable, d': Durable)
    requires StagesOk(d) && Grows(d, d') && d'.events == d.events
    ensures StagesOk(d')
  {
    hide Grows, Ready;
    GrowsKeeps(d, d');
    GrowsKeepsResult(d, d');
  }

  lemma CommitOnceIsFine(s: Section, kind: Kind)
    requires Consistent(s.d)
    ensures Fine(s, CommitOnce(s, kind)) && (CommitOnce(s, kind).alive ==> Has(CommitOnce(s, kind).d, kind))
    ensures CommitOnce(s, kind).d.status == s.d.status
  {
    hide Consistent, Commit;
    if !Has(s.d, kind) { CommitIsFine(s, kind); }
  }

  lemma TransitionIsFine(s: Section, phase: Phase)
    requires Consistent(s.d)
    ensures Fine(s, Transition(s, phase))
  {
    hide Consistent, Emit;
    var updated := if Rank(s.d.phase) >= Rank(phase) then s else Enter(s, phase, RUNNING);
    if Rank(s.d.phase) < Rank(phase) { StatusIsFine(s, s.d.(phase := phase, status := RUNNING)); }
    if PhaseChanged(phase, RUNNING) !in updated.d.events { EmitIsFine(updated, PhaseChanged(phase, RUNNING)); }
  }

  lemma FinalizeIsFine(s: Section, expected: nat, outcome: Outcome, phase: Phase, e: Event)
    requires Consistent(s.d) && Neutral(e)
    ensures Fine(s, Finalize(s, expected, outcome, phase, [e]))
  {
    if s.d.result.None? {
      var d := s.d.(result := Some(outcome), status := TERMINAL, phase := phase, revision := s.d.revision + 1, events := s.d.events + [e]);
      OnceAfterEvent(s.d.outputs, s.d.events, e);
      StagesAfterNeutral(s.d, d, e);
      StatusAfter(s.d, d);
    }
    hide StagesOk, StatusOk, CreatedOnce, CommittedOnce;
  }

  lemma FinishIsFine(s: Section, expected: nat)
    requires Consistent(s.d) && (s.alive ==> Ready(s.d, PACKAGE))
    ensures Fine(s, Finalize(s, expected, SUCCEEDED, PACKAGE, [StageCompleted(PACKAGE), RunCompleted]))
  {
    hide StagesOk, StatusOk, CreatedOnce, CommittedOnce, Ready;
    if s.alive && s.d.result.None? {
      NoPackageYet(s.d);
      var mid := s.d.(result := Some(SUCCEEDED), status := TERMINAL, phase := PACKAGE, revision := s.d.revision + 1,
                      events := s.d.events + [StageCompleted(PACKAGE)]);
      var d := mid.(events := mid.events + [RunCompleted]);
      assert s.d.events + [StageCompleted(PACKAGE), RunCompleted] == mid.events + [RunCompleted];
      OnceAfterEvent(s.d.outputs, s.d.events, StageCompleted(PACKAGE));
      OnceAfterEvent(mid.outputs, mid.events, RunCompleted);
      StagesAfterStage(s.d, mid, PACKAGE);
      StagesAfterNeutral(mid, d, RunCompleted);
      StatusAfter(s.d, d);
    }
  }

  lemma NoPackageYet(d: Durable)
    requires StagesOk(d) && d.result.None?
    ensures !Completed(d, PACKAGE)
  {
  }
}
