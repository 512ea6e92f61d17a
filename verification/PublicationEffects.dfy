/** What each step of a run leaves when none of its writes fails, field by field and event by event. */
module PublicationEffects {
  import opened Publication
  import opened Wrappers

  // ---------------------------------------------------------------- single operations with writes enough

  /** The section goes on from `d` with at most `cost` writes used. */
  predicate Continues(s: Section, r: Section, d: Durable, cost: nat) {
    r.alive && r.d == d && s.fuel <= r.fuel + cost
  }

  function Unless<T>(present: bool, x: T): seq<T> {
    if present then [] else [x]
  }

  lemma EmitEffect(s: Section, e: Event)
    requires s.alive && s.fuel >= 2
    ensures Continues(s, Emit(s, e), s.d.(events := s.d.events + [e]), 2)
  {
  }

  lemma CommitEffect(s: Section, kind: Kind)
    requires s.alive && s.fuel >= 4
    ensures Continues(s, Commit(s, kind), s.d.(outputs := s.d.outputs + [kind], events := s.d.events + [OutputCommitted(kind)]), 4)
  {
  }

  /** An output that is missing is created and announced; one that is there stays as it is. */
  lemma CommitOnceEffect(s: Section, kind: Kind)
    requires s.alive && s.fuel >= 4
    ensures Continues(s, CommitOnce(s, kind), s.d.(
      outputs := s.d.outputs + Unless(kind in s.d.outputs, kind),
      events := s.d.events + Unless(kind in s.d.outputs, OutputCommitted(kind))), 4)
  {
    if kind in s.d.outputs {
      assert s.d.outputs + [] == s.d.outputs && s.d.events + [] == s.d.events;
    } else {
      CommitEffect(s, kind);
    }
    hide Commit;
  }

  lemma CompleteEffect(s: Section, phase: Phase)
    requires s.alive && s.fuel >= 2
    ensures Continues(s, Complete(s, phase), s.d.(
      events := s.d.events + Unless(StageCompleted(phase) in s.d.events, StageCompleted(phase))), 2)
  {
    if StageCompleted(phase) in s.d.events {
      assert s.d.events + [] == s.d.events;
    } else {
      EmitEffect(s, StageCompleted(phase));
    }
    hide Emit;
  }

  /** A phase that was reached already stays, and so does its announcement. */
  lemma TransitionEffect(s: Section, phase: Phase)
    requires s.alive && s.fuel >= 3
    ensures Continues(s, Transition(s, phase), s.d.(
      phase := if Rank(s.d.phase) >= Rank(phase) then s.d.phase else phase,
      status := if Rank(s.d.phase) >= Rank(phase) then s.d.status else RUNNING,
      events := s.d.events + Unless(PhaseChanged(phase, RUNNING) in s.d.events, PhaseChanged(phase, RUNNING))), 3)
  {
    var updated := if Rank(s.d.phase) >= Rank(phase) then s else Enter(s, phase, RUNNING);
    if PhaseChanged(phase, RUNNING) in s.d.events {
      assert s.d.events + [] == s.d.events;
    } else {
      EmitEffect(updated, PhaseChanged(phase, RUNNING));
    }
    hide Emit;
  }

  // ---------------------------------------------------------------- ending and reopening

  /** A failed run has its report, its failed result and its announcement, and is terminal where it stood. */
  lemma EngineErrorEffect(w: World, fuel: nat, settled: bool)
    requires InTraining(w.pc) && w.d.result.None? && fuel >= 5
    ensures var w' := Next(w, EngineError(fuel, settled));
      && w'.pc == IDLE && w'.d.status == TERMINAL && w'.d.result == Some(FAILED) && w'.d.phase == w.d.phase
      && w'.d.revision == w.d.revision + 1 && w'.d.job == (if settled then CLOSED else w.d.job)
      && FAILURE_REPORT in w'.d.outputs && w'.d.outputs == w.d.outputs + Unless(FAILURE_REPORT in w.d.outputs, FAILURE_REPORT)
      && w'.d.events == w.d.events + Unless(FAILURE_REPORT in w.d.outputs, OutputCommitted(FAILURE_REPORT)) + [RunFailed]
  {
    CommitOnceEffect(Lock(w, fuel), FAILURE_REPORT);
    hide CommitOnce;
  }

  /** Canceling a run that is not over and has no result needs one write; otherwise it changes nothing. */
  lemma CancelEffect(w: World, fuel: nat)
    ensures Next(w, Cancel(fuel)) ==
      if w.d.status != TERMINAL && w.d.result.None? && fuel > 0 then
        World(Durable(w.d.outputs, w.d.events + [RunCanceled], w.d.phase, TERMINAL, Some(CANCELED), w.d.revision + 1, w.d.job), w.pc)
      else w
  {
  }

  /** The failure of a dead job is written for the revision it was read at, unless there is a result. */
  lemma DeadFinalizeEffect(w: World, fuel: nat, expected: nat)
    ensures Next(w, DeadFinalize(fuel, expected)) ==
      if expected == w.d.revision && w.d.result.None? && fuel > 0 then
        World(Durable(w.d.outputs, w.d.events + [RunFailed], w.d.phase, TERMINAL, Some(FAILED), w.d.revision + 1, w.d.job), w.pc)
      else w
  {
  }

  /** A dead job's report is created and announced once, on a run that is not over. */
  lemma DeadReportEffect(w: World, fuel: nat)
    requires fuel >= 4
    ensures Next(w, DeadReport(fuel)) ==
      if w.d.status == TERMINAL then w
      else w.(d := w.d.(outputs := w.d.outputs + Unless(FAILURE_REPORT in w.d.outputs, FAILURE_REPORT),
                        events := w.d.events + Unless(FAILURE_REPORT in w.d.outputs, OutputCommitted(FAILURE_REPORT))))
  {
    CommitOnceEffect(Lock(w, fuel), FAILURE_REPORT);
    hide CommitOnce;
  }

  /** An approval writes the successful result with its announcements, in one write, on a run that waits for it. */
  lemma DecideEffect(w: World, fuel: nat)
    ensures Next(w, Decide(fuel)) ==
      if w.d.status == WAITING_APPROVAL && w.d.result.None? && fuel > 0 then
        World(Durable(w.d.outputs, w.d.events + [StageCompleted(PACKAGE), RunCompleted], PACKAGE, TERMINAL,
                      Some(SUCCEEDED), w.d.revision + 1, w.d.job), w.pc)
      else w
  {
  }

  /** An answer puts a run that waits for it back in line, under the next revision. */
  lemma AnswerEffect(w: World, fuel: nat)
    ensures Next(w, Answer(fuel)) ==
      if w.d.status == WAITING_USER && fuel > 0 then
        World(Durable(w.d.outputs, w.d.events, w.d.phase, QUEUED, w.d.result, w.d.revision + 1, w.d.job), w.pc)
      else w
  {
  }

  /** A pause or a resumption sets the status under the next revision, and then announces it. */
  lemma PauseEffect(w: World, fuel: nat)
    requires fuel >= 3
    ensures Next(w, Pause(fuel)) ==
      if w.d.status == TERMINAL || w.d.status == PAUSED then w
      else World(Durable(w.d.outputs, w.d.events + [PhaseChanged(w.d.phase, PAUSED)], w.d.phase, PAUSED, w.d.result,
                         w.d.revision + 1, w.d.job), w.pc)
  {
  }

  lemma ResumeEffect(w: World, fuel: nat, open: bool)
    requires fuel >= 3
    ensures var status := if open then WAITING_USER else RUNNING;
      Next(w, Resume(fuel, open)) ==
      if w.d.status != PAUSED then w
      else World(Durable(w.d.outputs, w.d.events + [PhaseChanged(w.d.phase, status)], w.d.phase, status, w.d.result,
                         w.d.revision + 1, w.d.job), w.pc)
  {
  }

  /** An end that is refused, for a result that is there already, leaves the job open: the report is all that is written. */
  lemma RefusedEndEffect(w: World, fuel: nat, settled: bool)
    requires InTraining(w.pc) && w.d.result.Some? && fuel >= 4
    ensures Next(w, EngineError(fuel, settled)) ==
      World(w.d.(outputs := w.d.outputs + Unless(FAILURE_REPORT in w.d.outputs, FAILURE_REPORT),
                 events := w.d.events + Unless(FAILURE_REPORT in w.d.outputs, OutputCommitted(FAILURE_REPORT))), IDLE)
  {
    CommitOnceEffect(Lock(w, fuel), FAILURE_REPORT);
    hide CommitOnce;
  }

  // ---------------------------------------------------------------- the worker's steps

  /** A training attempt is under way. */
  predicate InTraining(pc: Pc) {
    pc != IDLE && pc != PICKED
  }

  /** The attempt is at the place where the step belongs, and the job is at that step. */
  predicate InPlace(w: World, step: Step) {
    match step
    case Pick(_) => w.pc == IDLE && w.d.job != CLOSED
    case Profile(_, _, _) => w.pc == PICKED && w.d.job == PROFILE_STEP
    case Resolve(_, _) => w.pc == PICKED && w.d.job == RESOLVE_TASK_STEP
    case Begin(_, _) => w.pc == PICKED && w.d.job == TRAIN_STEP
    case PlanCallback(_) => w.pc == STARTED
    case TrainCallback(_, _) => w.pc == PLANNED
    case Publish(_, _, _) => w.pc == TRAINED
    case PositiveClassNeeded(_, _) => InTraining(w.pc)
    case EngineError(_, _) => InTraining(w.pc)
    case _ => true
  }

  /** Out of its place a step of the worker does nothing. */
  lemma OutOfPlace(w: World, step: Step)
    requires !InPlace(w, step)
    ensures Next(w, step) == w
  {
    hide ExecuteProfile, PublishPlan, PublishTrain, PublishResult, RequestDecision, FailRun;
  }

  /** Where each step of the worker leaves the attempt: a callback that dies breaks it, and every other end frees the worker. */
  lemma WhereItLeaves(w: World, step: Step)
    requires InPlace(w, step)
    ensures step.PlanCallback? ==> Next(w, step).pc == PLANNED || Next(w, step).pc == BROKEN
    ensures step.TrainCallback? ==> Next(w, step).pc == TRAINED || Next(w, step).pc == BROKEN
    ensures step.Profile? || step.Resolve? || step.Publish? || step.PositiveClassNeeded? || step.EngineError? || step.Crash? ==> Next(w, step).pc == IDLE
    ensures step.Begin? ==> Next(w, step).pc == IDLE || Next(w, step).pc == STARTED
    ensures step.Cancel? || step.Pause? || step.Resume? || step.Answer? || step.Decide? || step.JobDies? || step.DeadReport? || step.DeadFinalize? ==>
      Next(w, step).pc == w.pc
  {
    hide ExecuteProfile, PublishPlan, PublishTrain, PublishResult, RequestDecision, FailRun, CommitOnce, Finalize;
  }

  /** Without a write left, nothing is durable, the worker is free, or its attempt broken if a callback had a write to make. */
  lemma NoWriteNoEffect(w: World, step: Step)
    requires InPlace(w, step) && !step.Pick? && !step.Crash? && !step.JobDies? && step.fuel == 0 && w.d.status != TERMINAL
    ensures Next(w, step).d == w.d
    ensures step.Begin? || step.Resolve? ==> Next(w, step).pc == IDLE
    ensures step.PlanCallback? && !Completed(w.d, PLAN) && TASK_SPEC !in w.d.outputs ==> Next(w, step).pc == BROKEN
    ensures step.TrainCallback? && !Completed(w.d, TRAIN) && BASELINE_RESULT !in w.d.outputs ==> Next(w, step).pc == BROKEN
  {
    hide ExecuteProfile, PublishPlan, PublishTrain, PublishResult;
    match step {
      case Profile(_, questions, _) => DeadProfile(w, questions);
      case PlanCallback(_) => DeadPlan(w);
      case TrainCallback(_, trials) => DeadTrain(w, trials);
      case Publish(_, approval, _) => DeadResult(w, approval);
      case _ => OtherNoWrite(w, step);
    }
  }

  lemma OtherNoWrite(w: World, step: Step)
    requires !step.Pick? && !step.Crash? && !step.JobDies? && !step.Profile? && !step.PlanCallback? && !step.TrainCallback? && !step.Publish?
    requires step.fuel == 0 && w.d.status != TERMINAL && InPlace(w, step)
    ensures Next(w, step).d == w.d && (step.Begin? || step.Resolve? ==> Next(w, step).pc == IDLE)
  {
    SpentStays(Lock(w, 0), RunFailed, FAILURE_REPORT, PLAN);
    hide Commit, CommitOnce, Complete, Transition;
  }

  /** A section whose writes have come to an end stays where it is. */
  predicate Spent(s: Section) {
    s.fuel == 0
  }

  lemma SpentStays(s: Section, e: Event, kind: Kind, phase: Phase)
    requires Spent(s)
    ensures Emit(s, e) == s.(alive := false) && Touch(s) == s.(alive := false)
    ensures Commit(s, kind) == s.(alive := false)
    ensures CommitOnce(s, kind) == if kind in s.d.outputs then s else s.(alive := false)
    ensures Complete(s, phase) == if StageCompleted(phase) in s.d.events then s else s.(alive := false)
    ensures Transition(s, phase).d == s.d && Transition(s, phase).fuel == 0 && (!s.alive ==> !Transition(s, phase).alive)
  {
  }

  lemma DeadProfile(w: World, questions: bool)
    ensures ExecuteProfile(Lock(w, 0), questions).d == w.d && !ExecuteProfile(Lock(w, 0), questions).alive
  {
  }

  lemma DeadPlan(w: World)
    ensures PublishPlan(Lock(w, 0)).d == w.d
    ensures w.d.status != TERMINAL && !Completed(w.d, PLAN) && TASK_SPEC !in w.d.outputs ==> !PublishPlan(Lock(w, 0)).alive
  {
    hide CommitOnce, Complete, Transition, Emit;
    var s := Lock(w, 0);
    SpentStays(s, RunFailed, TASK_SPEC, PLAN);
    var a := CommitOnce(s, TASK_SPEC);
    SpentStays(a, RunFailed, SPLIT_MANIFEST, PLAN);
    SpentStays(Touch(a), RunFailed, SPLIT_MANIFEST, PLAN);
    var b := CommitOnce(Touch(a), SPLIT_MANIFEST);
    SpentStays(b, RunFailed, SPLIT_MANIFEST, PLAN);
    SpentStays(Touch(b), RunFailed, SPLIT_MANIFEST, PLAN);
    SpentStays(Complete(Touch(b), PLAN), RunFailed, SPLIT_MANIFEST, TRAIN);
    SpentStays(s, RunFailed, TASK_SPEC, TRAIN);
  }

  lemma {:induction false} DeadTrials(s: Section, trials: seq<int>)
    requires Spent(s)
    ensures Trials(s, trials).d == s.d && Spent(Trials(s, trials)) && (!s.alive ==> !Trials(s, trials).alive)
  {
    if trials != [] {
      DeadTrials(s, trials[..|trials| - 1]);
      SpentStays(Trials(s, trials[..|trials| - 1]), RunFailed, TRIAL_RESULT(trials[|trials| - 1]), TRAIN);
    }
  }

  lemma DeadTrain(w: World, trials: seq<int>)
    ensures PublishTrain(Lock(w, 0), trials).d == w.d
    ensures w.d.status != TERMINAL && !Completed(w.d, TRAIN) && BASELINE_RESULT !in w.d.outputs ==> !PublishTrain(Lock(w, 0), trials).alive
  {
    hide CommitOnce, Complete, Transition, Emit, Trials;
    var s := Lock(w, 0);
    SpentStays(s, RunFailed, BASELINE_RESULT, EVALUATE);
    var a := CommitOnce(s, BASELINE_RESULT);
    DeadTrials(a, trials);
    SpentStays(Trials(a, trials), RunFailed, BASELINE_RESULT, TRAIN);
    SpentStays(Complete(Trials(a, trials), TRAIN), RunFailed, BASELINE_RESULT, EVALUATE);
  }

  lemma DeadResult(w: World, approval: bool)
    ensures PublishResult(Lock(w, 0), approval).d == w.d && !PublishResult(Lock(w, 0), approval).alive
  {
    hide CommitOnce, Complete, Transition, Emit;
    var s := Lock(w, 0);
    SpentStays(s, RunFailed, EVALUATION_REPORT, EVALUATE);
    var a := CommitOnce(s, EVALUATION_REPORT);
    SpentStays(a, RunFailed, EVALUATION_REPORT, EVALUATE);
    SpentStays(Complete(a, EVALUATE), RunFailed, EVALUATION_REPORT, PACKAGE);
    var b := Evaluated(s);
    SpentStays(b, RunFailed, MODEL_CARD, PACKAGE);
    var c := CommitOnce(b, MODEL_CARD);
    SpentStays(c, RunFailed, RUN_REPORT, PACKAGE);
  }

  /** A paused run's result is not published. */
  lemma PausedResultEffect(w: World, fuel: nat, approval: bool, settled: bool)
    requires w.pc == TRAINED && w.d.status == PAUSED
    ensures Next(w, Publish(fuel, approval, settled)) == World(w.d, IDLE)
  {
  }

  /** A job is taken up unless its run is over or waits; for a run that is over the job is closed. */
  lemma PickEffect(w: World, settled: bool)
    requires w.pc == IDLE && w.d.job != CLOSED
    ensures var w' := Next(w, Pick(settled));
      && w'.d == w.d.(job := w'.d.job)
      && (w'.pc == PICKED <==> w.d.status == QUEUED || w.d.status == RUNNING) && (w'.pc != PICKED ==> w'.pc == IDLE)
      && (w'.d.job == CLOSED <==> settled && (w.d.status == TERMINAL || w.d.status == WAITING_APPROVAL))
      && (w'.d.job != CLOSED ==> w'.d.job == w.d.job)
  {
  }

  /** A question sets the run waiting in PLAN, under the next revision, and announces both. */
  lemma RequestDecisionEffect(s: Section)
    requires s.alive && s.fuel >= 6
    ensures Continues(s, RequestDecision(s), Durable(s.d.outputs, s.d.events + [PhaseChanged(PLAN, WAITING_USER), DecisionRequested],
                                                     PLAN, WAITING_USER, s.d.result, s.d.revision + 1, s.d.job), 6)
  {
    var asked := Touch(Write(s, s.d.(phase := PLAN, status := WAITING_USER, revision := s.d.revision + 1)));
    EmitEffect(asked, PhaseChanged(PLAN, WAITING_USER));
    EmitEffect(Emit(asked, PhaseChanged(PLAN, WAITING_USER)), DecisionRequested);
    assert s.d.events + [PhaseChanged(PLAN, WAITING_USER)] + [DecisionRequested]
        == s.d.events + [PhaseChanged(PLAN, WAITING_USER), DecisionRequested];
    hide Emit;
  }

  /** A question about the positive class, asked during training: the step to come is the resolved task. */
  lemma PositiveClassEffect(w: World, fuel: nat, settled: bool)
    requires InTraining(w.pc) && fuel >= 6
    ensures Next(w, PositiveClassNeeded(fuel, settled)) ==
      World(Durable(w.d.outputs, w.d.events + [PhaseChanged(PLAN, WAITING_USER), DecisionRequested], PLAN, WAITING_USER,
                    w.d.result, w.d.revision + 1, if settled then RESOLVE_TASK_STEP else w.d.job), IDLE)
  {
    RequestDecisionEffect(Lock(w, fuel));
    hide RequestDecision;
  }

  /** What a profile attempt adds to the log before its last writes. */
  function ProfileEvents(d: Durable): seq<Event> {
    Unless(StageCompleted(INGEST) in d.events, StageCompleted(INGEST))
    + [PhaseChanged(PROFILE, RUNNING), OutputCommitted(DATA_QUALITY_REPORT)]
    + Unless(StageCompleted(PROFILE) in d.events, StageCompleted(PROFILE))
  }

  lemma ProfiledEffect(s: Section)
    requires s.alive && s.fuel >= 12
    ensures var started := Emit(Complete(Enter(s, PROFILE, RUNNING), INGEST), PhaseChanged(PROFILE, RUNNING));
      Continues(s, Complete(Touch(Commit(started, DATA_QUALITY_REPORT)), PROFILE), s.d.(
        outputs := s.d.outputs + [DATA_QUALITY_REPORT], events := s.d.events + ProfileEvents(s.d), phase := PROFILE, status := RUNNING), 12)
  {
    hide Emit, Complete, Commit;
    var a := Enter(s, PROFILE, RUNNING);
    CompleteEffect(a, INGEST);
    var b := Complete(a, INGEST);
    EmitEffect(b, PhaseChanged(PROFILE, RUNNING));
    var c := Emit(b, PhaseChanged(PROFILE, RUNNING));
    CommitEffect(c, DATA_QUALITY_REPORT);
    var e := Touch(Commit(c, DATA_QUALITY_REPORT));
    CompleteEffect(e, PROFILE);
    assert StageCompleted(PROFILE) in e.d.events <==> StageCompleted(PROFILE) in s.d.events;
    assert e.d.events + Unless(StageCompleted(PROFILE) in s.d.events, StageCompleted(PROFILE)) == s.d.events + ProfileEvents(s.d);
  }

  /** A profile attempt leaves its report, INGEST and PROFILE announced, and either questions or the training step. */
  lemma ProfileEffect(w: World, fuel: nat, questions: bool, settled: bool)
    requires w.pc == PICKED && w.d.job == PROFILE_STEP && w.d.status != TERMINAL && fuel >= 18
    ensures Next(w, Profile(fuel, questions, settled)) ==
      World(Durable(
        w.d.outputs + [DATA_QUALITY_REPORT],
        w.d.events + ProfileEvents(w.d) + (if questions then [PhaseChanged(PLAN, WAITING_USER), DecisionRequested] else []),
        PLAN, if questions then WAITING_USER else QUEUED, w.d.result, w.d.revision + 1,
        if !settled then w.d.job else if questions then RESOLVE_TASK_STEP else TRAIN_STEP), IDLE)
  {
    hide Emit, Complete, Commit, RequestDecision;
    var s := Lock(w, fuel);
    ProfiledEffect(s);
    var started := Emit(Complete(Enter(s, PROFILE, RUNNING), INGEST), PhaseChanged(PROFILE, RUNNING));
    var profiled := Complete(Touch(Commit(started, DATA_QUALITY_REPORT)), PROFILE);
    if questions {
      RequestDecisionEffect(profiled);
    } else {
      assert w.d.events + ProfileEvents(w.d) + [] == w.d.events + ProfileEvents(w.d);
    }
  }

  /** A resolved task puts the run in line in PLAN and goes on with training. */
  lemma ResolveEffect(w: World, fuel: nat, settled: bool)
    requires w.pc == PICKED && w.d.job == RESOLVE_TASK_STEP && w.d.status != TERMINAL && fuel >= 2
    ensures Next(w, Resolve(fuel, settled)) ==
      World(Durable(w.d.outputs, w.d.events, PLAN, QUEUED, w.d.result, w.d.revision, if settled then TRAIN_STEP else w.d.job), IDLE)
  {
  }

  /** Training starts in PLAN, running; a paused run is left alone. */
  lemma BeginEffect(w: World, fuel: nat, settled: bool)
    requires w.pc == PICKED && w.d.job == TRAIN_STEP && w.d.status != TERMINAL && fuel >= 1
    ensures Next(w, Begin(fuel, settled)) ==
      if w.d.status == PAUSED then World(w.d, IDLE)
      else World(Durable(w.d.outputs, w.d.events, PLAN, RUNNING, w.d.result, w.d.revision, w.d.job), STARTED)
  {
  }

  /** An attempt that finds its run over closes the job and writes nothing else. */
  lemma LateEffect(w: World, step: Step)
    requires w.d.status == TERMINAL
    requires (step.Profile? && w.pc == PICKED && w.d.job == PROFILE_STEP) || (step.Resolve? && w.pc == PICKED && w.d.job == RESOLVE_TASK_STEP)
      || (step.Begin? && w.pc == PICKED && w.d.job == TRAIN_STEP) || (step.Publish? && w.pc == TRAINED)
    ensures Next(w, step) == World(w.d.(job := if step.settled then CLOSED else w.d.job), IDLE)
  {
  }

  lemma PlanOutputsEffect(s: Section)
    requires s.alive && s.fuel >= 10
    ensures Continues(s, PlanOutputs(s), s.d.(
      outputs := s.d.outputs + Unless(TASK_SPEC in s.d.outputs, TASK_SPEC) + Unless(SPLIT_MANIFEST in s.d.outputs, SPLIT_MANIFEST),
      events := s.d.events + Unless(TASK_SPEC in s.d.outputs, OutputCommitted(TASK_SPEC))
                + Unless(SPLIT_MANIFEST in s.d.outputs, OutputCommitted(SPLIT_MANIFEST))), 10)
  {
    hide CommitOnce;
    CommitOnceEffect(s, TASK_SPEC);
    CommitOnceEffect(Touch(CommitOnce(s, TASK_SPEC)), SPLIT_MANIFEST);
  }

  /** The PLAN callback adds what is missing of its outputs, its announcement and the move to TRAIN, in that order. */
  lemma PlanEffect(w: World, fuel: nat)
    requires w.pc == STARTED && w.d.status != TERMINAL && fuel >= 15
    ensures var w' := Next(w, PlanCallback(fuel)); var planned := StageCompleted(PLAN) in w.d.events;
      && w'.pc == PLANNED
      && w'.d.outputs == w.d.outputs + Unless(planned || TASK_SPEC in w.d.outputs, TASK_SPEC)
                         + Unless(planned || SPLIT_MANIFEST in w.d.outputs, SPLIT_MANIFEST)
      && w'.d.events == w.d.events + Unless(planned || TASK_SPEC in w.d.outputs, OutputCommitted(TASK_SPEC))
                        + Unless(planned || SPLIT_MANIFEST in w.d.outputs, OutputCommitted(SPLIT_MANIFEST))
                        + Unless(planned, StageCompleted(PLAN))
                        + Unless(PhaseChanged(TRAIN, RUNNING) in w.d.events, PhaseChanged(TRAIN, RUNNING))
      && w'.d.phase == (if Rank(w.d.phase) >= Rank(TRAIN) then w.d.phase else TRAIN)
      && w'.d.status == (if Rank(w.d.phase) >= Rank(TRAIN) then w.d.status else RUNNING)
      && w'.d == w.d.(outputs := w'.d.outputs, events := w'.d.events, phase := w'.d.phase, status := w'.d.status)
  {
    hide PlanOutputs, Complete, Transition;
    var s := Lock(w, fuel);
    if StageCompleted(PLAN) in w.d.events {
      TransitionEffect(s, TRAIN);
      assert w.d.outputs + [] + [] == w.d.outputs && w.d.events + [] + [] + [] == w.d.events;
    } else {
      PlanOutputsEffect(s);
      var o := PlanOutputs(s);
      CompleteEffect(o, PLAN);
      TransitionEffect(Complete(o, PLAN), TRAIN);
    }
  }

  /** The outputs of the trials that have none yet, in the order of the trials, each once. */
  function MissingTrials(had: seq<Kind>, trials: seq<int>): seq<Kind> {
    if trials == [] then []
    else
      var before, kind := MissingTrials(had, trials[..|trials| - 1]), TRIAL_RESULT(trials[|trials| - 1]);
      before + Unless(kind in had || kind in before, kind)
  }

  lemma {:induction false} MissingTrialsAre(had: seq<Kind>, trials: seq<int>)
    ensures var missing := MissingTrials(had, trials);
      && (forall kind :: kind in missing <==> kind.TRIAL_RESULT? && kind.number in trials && kind !in had)
      && (forall i, j :: 0 <= i < j < |missing| ==> missing[i] != missing[j])
  {
    if trials != [] {
      var init, last := trials[..|trials| - 1], trials[|trials| - 1];
      MissingTrialsAre(had, init);
      assert trials == init + [last];
    }
  }

  function Announced(kinds: seq<Kind>): seq<Event> {
    seq(|kinds|, i requires 0 <= i < |kinds| => OutputCommitted(kinds[i]))
  }

  lemma AnnouncedNext(kinds: seq<Kind>, present: bool, kind: Kind)
    ensures Announced(kinds + Unless(present, kind)) == Announced(kinds) + Unless(present, OutputCommitted(kind))
  {
    assert kinds + [] == kinds && Announced(kinds) + [] == Announced(kinds);
  }

  lemma {:induction false} TrialsEffect(s: Section, trials: seq<int>)
    requires s.alive && s.fuel >= 4 * |trials|
    ensures var missing := MissingTrials(s.d.outputs, trials);
      Continues(s, Trials(s, trials), s.d.(outputs := s.d.outputs + missing, events := s.d.events + Announced(missing)), 4 * |trials|)
    decreases |trials|
  {
    hide CommitOnce, Announced;
    if trials == [] {
      assert s.d.outputs + [] == s.d.outputs;
      assert s.d.events + Announced([]) == s.d.events by { NothingAnnounced(); }
    } else {
      var init, kind := trials[..|trials| - 1], TRIAL_RESULT(trials[|trials| - 1]);
      var before := MissingTrials(s.d.outputs, init);
      TrialsEffect(s, init);
      CommitOnceEffect(Trials(s, init), kind);
      AnnouncedNext(before, kind in s.d.outputs || kind in before, kind);
    }
  }

  lemma NothingAnnounced()
    ensures Announced([]) == []
  {
  }

  lemma TrainOutputsEffect(s: Section, trials: seq<int>)
    requires s.alive && s.fuel >= 4 + 4 * |trials|
    ensures var d := s.d; var had := d.outputs + Unless(BASELINE_RESULT in d.outputs, BASELINE_RESULT);
      Continues(s, Trials(CommitOnce(s, BASELINE_RESULT), trials), d.(
        outputs := had + MissingTrials(d.outputs, trials),
        events := d.events + Unless(BASELINE_RESULT in d.outputs, OutputCommitted(BASELINE_RESULT))
                  + Announced(MissingTrials(d.outputs, trials))), 4 + 4 * |trials|)
  {
    hide CommitOnce, Trials, Announced, MissingTrials;
    CommitOnceEffect(s, BASELINE_RESULT);
    TrialsEffect(CommitOnce(s, BASELINE_RESULT), trials);
    BaselineIsNoTrial(s.d.outputs, trials);
  }

  lemma {:induction false} BaselineIsNoTrial(had: seq<Kind>, trials: seq<int>)
    ensures MissingTrials(had + Unless(BASELINE_RESULT in had, BASELINE_RESULT), trials) == MissingTrials(had, trials)
  {
    if trials != [] { BaselineIsNoTrial(had, trials[..|trials| - 1]); }
  }

  /** What the TRAIN callback adds to the outputs, as far as it is missing. */
  function TrainOutputs(d: Durable, trials: seq<int>): seq<Kind> {
    if StageCompleted(TRAIN) in d.events then []
    else Unless(BASELINE_RESULT in d.outputs, BASELINE_RESULT) + MissingTrials(d.outputs, trials)
  }

  /** The TRAIN callback adds what is missing of the baseline, the trials, its announcement and the move to EVALUATE. */
  lemma TrainEffect(w: World, fuel: nat, trials: seq<int>)
    requires w.pc == PLANNED && w.d.status != TERMINAL && fuel >= 9 + 4 * |trials|
    ensures var w' := Next(w, TrainCallback(fuel, trials));
      && w'.pc == TRAINED
      && w'.d.outputs == w.d.outputs + TrainOutputs(w.d, trials)
      && w'.d.events == w.d.events + Announced(TrainOutputs(w.d, trials))
                        + Unless(StageCompleted(TRAIN) in w.d.events, StageCompleted(TRAIN))
                        + Unless(PhaseChanged(EVALUATE, RUNNING) in w.d.events, PhaseChanged(EVALUATE, RUNNING))
      && w'.d.phase == (if Rank(w.d.phase) >= Rank(EVALUATE) then w.d.phase else EVALUATE)
      && w'.d.status == (if Rank(w.d.phase) >= Rank(EVALUATE) then w.d.status else RUNNING)
      && w'.d == w.d.(outputs := w'.d.outputs, events := w'.d.events, phase := w'.d.phase, status := w'.d.status)
  {
    hide Trials, CommitOnce, Complete, Transition, TrainOutputs, Announced;
    var s := Lock(w, fuel);
    StageEffect(s, trials);
    var done := Staged(s, trials);
    assert PublishTrain(s, trials) == Transition(done, EVALUATE);
    TransitionEffect(done, EVALUATE);
    NoPhaseAnnounced(w.d, trials);
  }

  function Staged(s: Section, trials: seq<int>): Section {
    if Completed(s.d, TRAIN) then s else Complete(Trials(CommitOnce(s, BASELINE_RESULT), trials), TRAIN)
  }

  lemma StageEffect(s: Section, trials: seq<int>)
    requires s.alive && s.fuel >= 6 + 4 * |trials|
    ensures Continues(s, Staged(s, trials), s.d.(
      outputs := s.d.outputs + TrainOutputs(s.d, trials),
      events := s.d.events + Announced(TrainOutputs(s.d, trials)) + Unless(StageCompleted(TRAIN) in s.d.events, StageCompleted(TRAIN))),
      6 + 4 * |trials|)
  {
    hide CommitOnce, Trials, Complete, MissingTrials, Announced;
    if StageCompleted(TRAIN) in s.d.events {
      NothingAnnounced();
      assert s.d.outputs + [] == s.d.outputs && s.d.events + [] + [] == s.d.events;
    } else {
      TrainOutputsEffect(s, trials);
      var o := Trials(CommitOnce(s, BASELINE_RESULT), trials);
      var missing := MissingTrials(s.d.outputs, trials);
      NoStageAnnounced(missing);
      CompleteEffect(o, TRAIN);
      AnnouncedFirst(BASELINE_RESULT in s.d.outputs, BASELINE_RESULT, missing);
      assert o.d.outputs == s.d.outputs + TrainOutputs(s.d, trials);
      assert o.d.events == s.d.events + Announced(TrainOutputs(s.d, trials));
    }
  }

  lemma AnnouncedFirst(present: bool, kind: Kind, kinds: seq<Kind>)
    ensures Announced(Unless(present, kind) + kinds) == Unless(present, OutputCommitted(kind)) + Announced(kinds)
  {
    assert [] + kinds == kinds && [] + Announced(kinds) == Announced(kinds);
  }

  lemma NoPhaseAnnounced(d: Durable, trials: seq<int>)
    ensures PhaseChanged(EVALUATE, RUNNING) !in Announced(TrainOutputs(d, trials))
  {
    hide TrainOutputs;
  }

  lemma NoStageAnnounced(kinds: seq<Kind>)
    ensures forall e :: e in Announced(kinds) ==> e.OutputCommitted?
  {
  }

  /** What evaluating and packaging add to the log, as far as it is missing. */
  function PackageEvents(d: Durable): seq<Event> {
    Unless(EVALUATION_REPORT in d.outputs, OutputCommitted(EVALUATION_REPORT))
    + Unless(StageCompleted(EVALUATE) in d.events, StageCompleted(EVALUATE))
    + Unless(PhaseChanged(PACKAGE, RUNNING) in d.events, PhaseChanged(PACKAGE, RUNNING))
    + Unless(MODEL_CARD in d.outputs, OutputCommitted(MODEL_CARD))
    + Unless(RUN_REPORT in d.outputs, OutputCommitted(RUN_REPORT))
  }

  function PackageOutputs(d: Durable): seq<Kind> {
    Unless(EVALUATION_REPORT in d.outputs, EVALUATION_REPORT) + Unless(MODEL_CARD in d.outputs, MODEL_CARD)
    + Unless(RUN_REPORT in d.outputs, RUN_REPORT)
  }

  lemma EvaluatedEffect(s: Section)
    requires s.alive && s.fuel >= 9
    ensures Continues(s, Evaluated(s), s.d.(
      outputs := s.d.outputs + Unless(EVALUATION_REPORT in s.d.outputs, EVALUATION_REPORT),
      events := s.d.events + Unless(EVALUATION_REPORT in s.d.outputs, OutputCommitted(EVALUATION_REPORT))
                + Unless(StageCompleted(EVALUATE) in s.d.events, StageCompleted(EVALUATE))
                + Unless(PhaseChanged(PACKAGE, RUNNING) in s.d.events, PhaseChanged(PACKAGE, RUNNING)),
      phase := PACKAGE, status := if s.d.phase == PACKAGE then s.d.status else RUNNING), 9)
  {
    hide CommitOnce, Complete, Transition;
    CommitOnceEffect(s, EVALUATION_REPORT);
    CompleteEffect(CommitOnce(s, EVALUATION_REPORT), EVALUATE);
    TransitionEffect(Complete(CommitOnce(s, EVALUATION_REPORT), EVALUATE), PACKAGE);
  }

  lemma PackagedEffect(s: Section)
    requires s.alive && s.fuel >= 17
    ensures Continues(s, Packaged(s), s.d.(
      outputs := s.d.outputs + PackageOutputs(s.d), events := s.d.events + PackageEvents(s.d),
      phase := PACKAGE, status := if s.d.phase == PACKAGE then s.d.status else RUNNING), 17)
  {
    hide CommitOnce, Evaluated, Unless;
    EvaluatedEffect(s);
    var a := Evaluated(s);
    TwoMoreEffect(a, MODEL_CARD, RUN_REPORT);
    NotThatKind(s.d.outputs, EVALUATION_REPORT in s.d.outputs, EVALUATION_REPORT, MODEL_CARD);
    NotThatKind(s.d.outputs, EVALUATION_REPORT in s.d.outputs, EVALUATION_REPORT, RUN_REPORT);
    ThreePieces(s.d.outputs, Unless(EVALUATION_REPORT in s.d.outputs, EVALUATION_REPORT), Unless(MODEL_CARD in s.d.outputs, MODEL_CARD),
                Unless(RUN_REPORT in s.d.outputs, RUN_REPORT));
    FivePieces(s.d.events, Unless(EVALUATION_REPORT in s.d.outputs, OutputCommitted(EVALUATION_REPORT)),
               Unless(StageCompleted(EVALUATE) in s.d.events, StageCompleted(EVALUATE)),
               Unless(PhaseChanged(PACKAGE, RUNNING) in s.d.events, PhaseChanged(PACKAGE, RUNNING)),
               Unless(MODEL_CARD in s.d.outputs, OutputCommitted(MODEL_CARD)), Unless(RUN_REPORT in s.d.outputs, OutputCommitted(RUN_REPORT)));
  }

  lemma ThreePieces<T>(s: seq<T>, a: seq<T>, b: seq<T>, c: seq<T>)
    ensures s + a + b + c == s + (a + b + c)
  {
  }

  lemma FivePieces<T>(s: seq<T>, a: seq<T>, b: seq<T>, c: seq<T>, d: seq<T>, e: seq<T>)
    ensures s + a + b + c + d + e == s + (a + b + c + d + e)
  {
    ThreePieces(s, a, b, c);
    ThreePieces(s, a + b + c, d, e);
  }

  lemma NotThatKind(outputs: seq<Kind>, present: bool, kind: Kind, other: Kind)
    requires kind != other
    ensures other in outputs + Unless(present, kind) <==> other in outputs
  {
  }

  lemma TwoMoreEffect(s: Section, kind: Kind, other: Kind)
    requires s.alive && s.fuel >= 8 && kind != other
    ensures Continues(s, CommitOnce(CommitOnce(s, kind), other), s.d.(
      outputs := s.d.outputs + Unless(kind in s.d.outputs, kind) + Unless(other in s.d.outputs, other),
      events := s.d.events + Unless(kind in s.d.outputs, OutputCommitted(kind)) + Unless(other in s.d.outputs, OutputCommitted(other))), 8)
  {
    hide CommitOnce;
    CommitOnceEffect(s, kind);
    NotThatKind(s.d.outputs, kind in s.d.outputs, kind, other);
    CommitOnceEffect(CommitOnce(s, kind), other);
  }

  /**
    Publishing a result completes evaluation and packaging; then it writes the successful result with
    its announcements, or, where approval is required, sets the run waiting for it without a result.
  */
  lemma ResultEffect(w: World, fuel: nat, approval: bool, settled: bool)
    requires w.pc == TRAINED && w.d.status != TERMINAL && w.d.status != PAUSED && fuel >= 19
    requires w.d.result.None? && TASK_SPEC in w.d.outputs && SPLIT_MANIFEST in w.d.outputs
    ensures Next(w, Publish(fuel, approval, settled)) ==
      World(Durable(
        w.d.outputs + PackageOutputs(w.d),
        w.d.events + PackageEvents(w.d) + (if approval then [ApprovalRequested] else [StageCompleted(PACKAGE), RunCompleted]),
        PACKAGE, if approval then WAITING_APPROVAL else TERMINAL, if approval then None else Some(SUCCEEDED),
        w.d.revision + 1, if settled then CLOSED else w.d.job), IDLE)
  {
    hide Packaged, PackageOutputs, PackageEvents;
    PackagedEffect(Lock(w, fuel));
  }
}
