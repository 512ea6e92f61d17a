/** Publication over whole runs: crashes anywhere, any number of re-runs, and users acting in between. */
module PublicationRuns {
  import opened Publication

  // ---------------------------------------------------------------- the lock sections

  lemma RequestDecisionIsFine(s: Section)
    requires Consistent(s.d)
    ensures Fine(s, RequestDecision(s))
  {
    hide Consistent, Emit, Write, Fine;
    var a := Write(s, s.d.(phase := PLAN, status := WAITING_USER, revision := s.d.revision + 1));
    StatusIsFine(s, s.d.(phase := PLAN, status := WAITING_USER, revision := s.d.revision + 1));
    FineOk(s, a);
    TouchIsFine(a);
    var b := Touch(a);
    FineOk(a, b);
    EmitIsFine(b, PhaseChanged(PLAN, WAITING_USER));
    var c := Emit(b, PhaseChanged(PLAN, WAITING_USER));
    FineOk(b, c);
    EmitIsFine(c, DecisionRequested);
    FineTransitive(s, a, b);
    FineTransitive(s, b, c);
    FineTransitive(s, c, RequestDecision(s));
  }

  lemma FineOk(s: Section, r: Section)
    requires Fine(s, r)
    ensures Consistent(r.d) && r.d.job == s.d.job && (r.alive ==> s.alive)
    ensures forall kind :: Has(s.d, kind) ==> Has(r.d, kind)
    ensures forall phase :: Completed(s.d, phase) ==> Completed(r.d, phase)
  {
    hide Consistent;
    GrowsKeeps(s.d, r.d);
  }

  lemma ProfileStart(s: Section)
    requires Consistent(s.d)
    ensures var r := Emit(Complete(Enter(s, PROFILE, RUNNING), INGEST), PhaseChanged(PROFILE, RUNNING));
      Fine(s, r) && (r.alive ==> Completed(r.d, INGEST))
  {
    hide Consistent, Emit, Enter, Complete, Fine;
    var a := Enter(s, PROFILE, RUNNING);
    EnterIsFine(s, PROFILE);
    FineOk(s, a);
    CompleteIsFine(a, INGEST);
    var b := Complete(a, INGEST);
    FineOk(a, b);
    EmitIsFine(b, PhaseChanged(PROFILE, RUNNING));
    var c := Emit(b, PhaseChanged(PROFILE, RUNNING));
    FineOk(b, c);
    FineTransitive(s, a, b);
    FineTransitive(s, b, c);
  }

  lemma EnterIsFine(s: Section, phase: Phase)
    requires Consistent(s.d)
    ensures Fine(s, Enter(s, phase, RUNNING))
    ensures Enter(s, phase, RUNNING).d.outputs == s.d.outputs && Enter(s, phase, RUNNING).d.events == s.d.events
  {
    StatusIsFine(s, s.d.(phase := phase, status := RUNNING));
    hide Consistent;
  }

  lemma ExecuteProfileIsFine(s: Section, questions: bool)
    requires Consistent(s.d)
    ensures Fine(s, ExecuteProfile(s, questions))
    ensures ExecuteProfile(s, questions).alive ==> Completed(ExecuteProfile(s, questions).d, PROFILE)
  {
    hide Consistent, Emit, Complete, Commit, Fine, RequestDecision, Completed, Enter, Touch;
    ProfileStart(s);
    var a := Emit(Complete(Enter(s, PROFILE, RUNNING), INGEST), PhaseChanged(PROFILE, RUNNING));
    FineOk(s, a);
    CommitIsFine(a, DATA_QUALITY_REPORT);
    var b := Commit(a, DATA_QUALITY_REPORT);
    FineOk(a, b);
    TouchIsFine(b);
    var c := Touch(b);
    FineOk(b, c);
    CompleteIsFine(c, PROFILE);
    var p := Complete(c, PROFILE);
    FineOk(c, p);
    FineTransitive(s, a, b);
    FineTransitive(s, b, c);
    FineTransitive(s, c, p);
    if questions {
      RequestDecisionIsFine(p);
    } else {
      StatusIsFine(p, p.d.(phase := PLAN, status := QUEUED, revision := p.d.revision + 1));
    }
    var r := ExecuteProfile(s, questions);
    FineOk(p, r);
    FineTransitive(s, p, r);
  }

  lemma PlanOutputsIsFine(s: Section)
    requires Consistent(s.d)
    ensures Fine(s, PlanOutputs(s))
    ensures PlanOutputs(s).alive ==> Has(PlanOutputs(s).d, TASK_SPEC) && Has(PlanOutputs(s).d, SPLIT_MANIFEST)
  {
    hide Consistent, CommitOnce, Fine, Has;
    CommitOnceIsFine(s, TASK_SPEC);
    var a := CommitOnce(s, TASK_SPEC);
    FineOk(s, a);
    TouchIsFine(a);
    var b := Touch(a);
    FineOk(a, b);
    CommitOnceIsFine(b, SPLIT_MANIFEST);
    var c := CommitOnce(b, SPLIT_MANIFEST);
    FineOk(b, c);
    TouchIsFine(c);
    FineOk(c, PlanOutputs(s));
    FineTransitive(s, a, b);
    FineTransitive(s, b, c);
    FineTransitive(s, c, PlanOutputs(s));
  }

  lemma PublishPlanIsFine(s: Section)
    requires Consistent(s.d) && (s.d.status == TERMINAL || Completed(s.d, PROFILE))
    ensures Fine(s, PublishPlan(s))
    ensures PublishPlan(s).alive ==> Completed(PublishPlan(s).d, PLAN) || PublishPlan(s).d.status == TERMINAL
  {
    hide Consistent, PlanOutputs, Complete, Transition, Fine, Has, Completed;
    FineItself(s, s.alive);
    if s.d.status != TERMINAL {
      var done := s;
      if !Completed(s.d, PLAN) {
        PlanOutputsIsFine(s);
        var o := PlanOutputs(s);
        FineOk(s, o);
        CompleteIsFine(o, PLAN);
        done := Complete(o, PLAN);
        FineTransitive(s, o, done);
      }
      FineOk(s, done);
      TransitionIsFine(done, TRAIN);
      FineOk(done, PublishPlan(s));
      FineTransitive(s, done, PublishPlan(s));
    }
  }

  lemma {:induction false} TrialsIsFine(s: Section, trials: seq<int>)
    requires Consistent(s.d)
    ensures Fine(s, Trials(s, trials))
    ensures Trials(s, trials).alive ==> forall n :: n in trials ==> Has(Trials(s, trials).d, TRIAL_RESULT(n))
    decreases |trials|
  {
    hide Consistent, CommitOnce, Fine, Has;
    if trials == [] {
      FineItself(s, s.alive);
    } else {
      var init, last := trials[..|trials| - 1], trials[|trials| - 1];
      TrialsIsFine(s, init);
      var a, r := Trials(s, init), Trials(s, trials);
      FineOk(s, a);
      CommitOnceIsFine(a, TRIAL_RESULT(last));
      FineOk(a, r);
      FineTransitive(s, a, r);
      assert trials == init + [last];
    }
  }

  lemma PublishTrainIsFine(s: Section, trials: seq<int>)
    requires Consistent(s.d) && (s.d.status == TERMINAL || Completed(s.d, PLAN))
    ensures Fine(s, PublishTrain(s, trials))
    ensures PublishTrain(s, trials).alive ==> Completed(PublishTrain(s, trials).d, TRAIN) || PublishTrain(s, trials).d.status == TERMINAL
  {
    hide Consistent, Trials, CommitOnce, Complete, Transition, Fine, Has, Completed;
    FineItself(s, s.alive);
    if s.d.status != TERMINAL {
      var done := s;
      if !Completed(s.d, TRAIN) {
        CommitOnceIsFine(s, BASELINE_RESULT);
        var b := CommitOnce(s, BASELINE_RESULT);
        FineOk(s, b);
        TrialsIsFine(b, trials);
        var t := Trials(b, trials);
        FineOk(b, t);
        CompleteIsFine(t, TRAIN);
        done := Complete(t, TRAIN);
        FineTransitive(s, b, t);
        FineTransitive(s, t, done);
      }
      FineOk(s, done);
      TransitionIsFine(done, EVALUATE);
      FineOk(done, PublishTrain(s, trials));
      FineTransitive(s, done, PublishTrain(s, trials));
    }
  }

  lemma EvaluatedIsFine(s: Section)
    requires Consistent(s.d) && Completed(s.d, TRAIN)
    ensures Fine(s, Evaluated(s)) && (Evaluated(s).alive ==> Completed(Evaluated(s).d, EVALUATE))
  {
    hide Consistent, CommitOnce, Complete, Transition, Fine, Has, Completed;
    CommitOnceIsFine(s, EVALUATION_REPORT);
    var a := CommitOnce(s, EVALUATION_REPORT);
    FineOk(s, a);
    CompleteIsFine(a, EVALUATE);
    var b := Complete(a, EVALUATE);
    FineOk(a, b);
    TransitionIsFine(b, PACKAGE);
    FineOk(b, Evaluated(s));
    FineTransitive(s, a, b);
    FineTransitive(s, b, Evaluated(s));
  }

  lemma PackagedIsFine(s: Section)
    requires Consistent(s.d) && Completed(s.d, TRAIN)
    ensures Fine(s, Packaged(s)) && (Packaged(s).alive ==> Ready(Packaged(s).d, PACKAGE))
  {
    hide Consistent, CommitOnce, Evaluated, Fine, Has, Completed;
    EvaluatedIsFine(s);
    var a := Evaluated(s);
    FineOk(s, a);
    CommitOnceIsFine(a, MODEL_CARD);
    var b := CommitOnce(a, MODEL_CARD);
    FineOk(a, b);
    CommitOnceIsFine(b, RUN_REPORT);
    FineOk(b, Packaged(s));
    FineTransitive(s, a, b);
    FineTransitive(s, b, Packaged(s));
  }

  lemma PublishResultIsFine(s: Section, approval: bool)
    requires Consistent(s.d) && Completed(s.d, TRAIN)
    ensures Fine(s, PublishResult(s, approval))
  {
    hide Consistent, Packaged, Fine, Has, Completed, Finalize, Ready;
    PackagedIsFine(s);
    var p := Packaged(s);
    FineOk(s, p);
    FineItself(s, false);
    if Has(s.d, TASK_SPEC) && Has(s.d, SPLIT_MANIFEST) {
      if approval {
        RequestApprovalIsFine(p);
      } else {
        FinishIsFine(p, p.d.revision);
      }
      FineTransitive(s, p, PublishResult(s, approval));
    }
  }

  lemma RequestApprovalIsFine(p: Section)
    requires Consistent(p.d) && (p.alive ==> Ready(p.d, PACKAGE))
    ensures var f := Touch(p);
      Fine(p, Write(f, f.d.(phase := PACKAGE, status := WAITING_APPROVAL, revision := f.d.revision + 1,
                            events := f.d.events + [ApprovalRequested])))
  {
    hide StagesOk, StatusOk, CreatedOnce, CommittedOnce, Ready;
    GrowsKeeps(p.d, p.d.(phase := PACKAGE, status := WAITING_APPROVAL, revision := p.d.revision + 1));
    var d := p.d.(phase := PACKAGE, status := WAITING_APPROVAL, revision := p.d.revision + 1);
    var d' := d.(events := d.events + [ApprovalRequested]);
    FineItself(p, false);
    if p.alive {
      var s := Section(p.d, 1, true);
      StatusIsFine(s, d);
      OnceAfterEvent(d.outputs, d.events, ApprovalRequested);
      StagesAfterNeutral(d, d', ApprovalRequested);
      StatusAfter(d, d');
    }
  }

  lemma FailRunIsFine(s: Section)
    requires Consistent(s.d)
    ensures Fine(s, FailRun(s)) && FailRun(s).d.status in {s.d.status, TERMINAL}
  {
    hide Consistent, CommitOnce, Fine;
    CommitOnceIsFine(s, FAILURE_REPORT);
    var a := CommitOnce(s, FAILURE_REPORT);
    FineOk(s, a);
    FinalizeIsFine(a, a.d.revision, FAILED, a.d.phase, RunFailed);
    FineTransitive(s, a, FailRun(s));
  }

  lemma ControlIsFine(w: World, fuel: nat, status: Status)
    requires Consistent(w.d) && status !in {TERMINAL, WAITING_APPROVAL}
    ensures Fine(Lock(w, fuel), Section(Control(w, fuel, status).d, 0, true))
  {
    hide Consistent, Emit, Write;
    var s := Lock(w, fuel);
    var d := s.d.(status := status, revision := s.d.revision + 1);
    StatusIsFine(s, d);
    EmitIsFine(Write(s, d), PhaseChanged(s.d.phase, status));
    FineTransitive(s, Write(s, d), Emit(Write(s, d), PhaseChanged(s.d.phase, status)));
  }

  // ---------------------------------------------------------------- one step

  ghost predicate Good(w: World, w': World) {
    Inv(w') && Grows(w.d, w'.d) && Silent(w.d, w'.d)
  }

  lemma OverIsGood(w: World, s: Section, r: Section, settled: bool, job: Job)
    requires s.d == w.d && Fine(s, r)
    requires r.alive && job in {RESOLVE_TASK_STEP, TRAIN_STEP} ==> Completed(r.d, PROFILE)
    ensures Good(w, Over(r, settled, job))
  {
    if r.alive && settled { JobMayMove(r.d, job); }
    hide Consistent;
  }

  lemma JobMayMove(d: Durable, job: Job)
    requires Consistent(d) && (job in {RESOLVE_TASK_STEP, TRAIN_STEP} ==> Completed(d, PROFILE))
    ensures Consistent(d.(job := job))
  {
    var d' := d.(job := job);
    assert forall phase :: Completed(d', phase) <==> Completed(d, phase);
    assert forall phase :: Ready(d', phase) <==> Ready(d, phase);
  }

  lemma FreeIsGood(w: World, s: Section, r: Section)
    requires Inv(w) && s.d == w.d && Fine(s, r)
    requires w.d.status == TERMINAL ==> r.d.status == TERMINAL
    ensures Good(w, Free(w, r))
  {
    hide Consistent, Ready;
    FineOk(s, r);
  }

  lemma CallbackIsGood(w: World, s: Section, r: Section, next: Pc)
    requires Inv(w) && s.d == w.d && Fine(s, r) && Training(w.pc) && next in {PLANNED, TRAINED}
    requires r.alive && next == PLANNED ==> Completed(r.d, PLAN) || r.d.status == TERMINAL
    requires r.alive && next == TRAINED ==> Completed(r.d, TRAIN) || r.d.status == TERMINAL
    ensures Good(w, CallbackStep(w, r, next))
  {
    hide Consistent, Ready;
    FineOk(s, r);
  }

  lemma NextIsGood(w: World, step: Step)
    requires Inv(w)
    ensures Good(w, Next(w, step))
  {
    match step {
      case Pick(settled) => PickIsGood(w, settled);
      case Profile(fuel, questions, settled) => ProfileIsGood(w, fuel, questions, settled);
      case Resolve(fuel, settled) => ResolveIsGood(w, fuel, settled);
      case Begin(fuel, settled) => BeginIsGood(w, fuel, settled);
      case PlanCallback(fuel) => PlanIsGood(w, fuel);
      case TrainCallback(fuel, trials) => TrainIsGood(w, fuel, trials);
      case Publish(fuel, approval, settled) => PublishIsGood(w, fuel, approval, settled);
      case PositiveClassNeeded(fuel, settled) => PositiveClassIsGood(w, fuel, settled);
      case EngineError(fuel, settled) => EngineErrorIsGood(w, fuel, settled);
      case Crash =>
      case JobDies => JobDiesIsGood(w);
      case Cancel(_) => EndingIsGood(w, step);
      case Decide(_) => EndingIsGood(w, step);
      case DeadReport(_) => EndingIsGood(w, step);
      case DeadFinalize(_, _) => EndingIsGood(w, step);
      case Pause(fuel) => ControlIsGood(w, step);
      case Resume(fuel, _) => ControlIsGood(w, step);
      case Answer(fuel) => ControlIsGood(w, step);
    }
    hide Consistent, PickStep, ProfileStep, ResolveStep, BeginStep, PublishStep, Over, PublishPlan, PublishTrain;
    hide FailRun, RequestDecision, Finalize, Control, CommitOnce, Free, CallbackStep;
  }

  lemma PickIsGood(w: World, settled: bool)
    requires Inv(w)
    ensures Good(w, PickStep(w, settled))
  {
    FineItself(Lock(w, 0), true);
    OverIsGood(w, Lock(w, 0), Lock(w, 0), settled, CLOSED);
    hide Consistent, Fine;
  }

  lemma ProfileIsGood(w: World, fuel: nat, questions: bool, settled: bool)
    requires Inv(w)
    ensures Good(w, ProfileStep(w, fuel, questions, settled))
  {
    hide Consistent, Fine, Over, ExecuteProfile;
    var s := Lock(w, fuel);
    FineItself(s, true);
    OverIsGood(w, s, s, settled, CLOSED);
    ExecuteProfileIsFine(s, questions);
    OverIsGood(w, s, ExecuteProfile(s, questions), settled, if questions then RESOLVE_TASK_STEP else TRAIN_STEP);
  }

  lemma JobSaysProfiled(d: Durable)
    requires Consistent(d) && (d.job == RESOLVE_TASK_STEP || d.job == TRAIN_STEP)
    ensures Completed(d, PROFILE)
  {
  }

  lemma ResolveIsGood(w: World, fuel: nat, settled: bool)
    requires Inv(w)
    ensures Good(w, ResolveStep(w, fuel, settled))
  {
    hide Consistent, Fine, Over, Completed, Write, Grows;
    var s := Lock(w, fuel);
    FineItself(s, true);
    OverIsGood(w, s, s, settled, CLOSED);
    if w.d.job == RESOLVE_TASK_STEP {
      JobSaysProfiled(w.d);
      var a := Enter(s, PLAN, QUEUED);
      StatusIsFine(s, s.d.(phase := PLAN, status := QUEUED));
      FineOk(s, a);
      TouchIsFine(a);
      FineOk(a, Touch(a));
      FineTransitive(s, a, Touch(a));
      OverIsGood(w, s, Touch(a), settled, TRAIN_STEP);
    }
    GrowsItself(w.d);
  }

  lemma GrowsItself(d: Durable)
    ensures Grows(d, d)
  {
  }

  lemma BeginIsGood(w: World, fuel: nat, settled: bool)
    requires Inv(w)
    ensures Good(w, BeginStep(w, fuel, settled))
  {
    hide Consistent, Over, Completed;
    var s := Lock(w, fuel);
    FineItself(s, true);
    OverIsGood(w, s, s, settled, CLOSED);
    if w.d.job == TRAIN_STEP {
      JobSaysProfiled(w.d);
      EnterIsFine(s, PLAN);
      FineOk(s, Enter(s, PLAN, RUNNING));
    }
  }

  lemma PlanIsGood(w: World, fuel: nat)
    requires Inv(w)
    ensures Good(w, Next(w, PlanCallback(fuel)))
  {
    hide Consistent, Fine, Completed, PublishPlan, CallbackStep;
    if w.pc == STARTED {
      PublishPlanIsFine(Lock(w, fuel));
      CallbackIsGood(w, Lock(w, fuel), PublishPlan(Lock(w, fuel)), PLANNED);
    }
  }

  lemma TrainIsGood(w: World, fuel: nat, trials: seq<int>)
    requires Inv(w)
    ensures Good(w, Next(w, TrainCallback(fuel, trials)))
  {
    hide Consistent, Fine, Completed, PublishTrain, CallbackStep;
    if w.pc == PLANNED {
      PublishTrainIsFine(Lock(w, fuel), trials);
      CallbackIsGood(w, Lock(w, fuel), PublishTrain(Lock(w, fuel), trials), TRAINED);
    }
  }

  lemma PublishIsGood(w: World, fuel: nat, approval: bool, settled: bool)
    requires Inv(w)
    ensures Good(w, PublishStep(w, fuel, approval, settled))
  {
    hide Consistent, Fine, Over, Completed, PublishResult;
    var s := Lock(w, fuel);
    FineItself(s, true);
    OverIsGood(w, s, s, settled, CLOSED);
    if w.pc == TRAINED && w.d.status != TERMINAL {
      PublishResultIsFine(s, approval);
      OverIsGood(w, s, PublishResult(s, approval), settled, CLOSED);
    }
  }

  lemma PositiveClassIsGood(w: World, fuel: nat, settled: bool)
    requires Inv(w)
    ensures Good(w, Next(w, PositiveClassNeeded(fuel, settled)))
  {
    hide Consistent, Fine, Over, Completed, RequestDecision;
    if Training(w.pc) {
      var s := Lock(w, fuel);
      RequestDecisionIsFine(s);
      FineOk(s, RequestDecision(s));
      OverIsGood(w, s, RequestDecision(s), settled, RESOLVE_TASK_STEP);
    }
  }

  lemma EngineErrorIsGood(w: World, fuel: nat, settled: bool)
    requires Inv(w)
    ensures Good(w, Next(w, EngineError(fuel, settled)))
  {
    hide Consistent, Fine, Over, FailRun;
    if Training(w.pc) {
      FailRunIsFine(Lock(w, fuel));
      OverIsGood(w, Lock(w, fuel), FailRun(Lock(w, fuel)), settled, CLOSED);
    }
  }

  lemma JobDiesIsGood(w: World)
    requires Inv(w)
    ensures Good(w, Next(w, JobDies))
  {
    JobMayMove(w.d, CLOSED);
    hide Consistent;
  }

  lemma ApprovalIsReady(d: Durable)
    requires Consistent(d) && d.status == WAITING_APPROVAL
    ensures Ready(d, PACKAGE)
  {
  }

  lemma EndingIsGood(w: World, step: Step)
    requires Inv(w) && (step.Cancel? || step.Decide? || step.DeadReport? || step.DeadFinalize?)
    ensures Good(w, Next(w, step))
  {
    hide Consistent, Fine, Ready, CommitOnce;
    var s := Lock(w, step.fuel);
    match step {
      case Cancel(fuel) =>
        if w.d.status != TERMINAL {
          FinalizeIsFine(s, w.d.revision, CANCELED, w.d.phase, RunCanceled);
          FreeIsGood(w, s, Finalize(s, w.d.revision, CANCELED, w.d.phase, [RunCanceled]));
        }
      case Decide(fuel) =>
        if w.d.status == WAITING_APPROVAL {
          ApprovalIsReady(w.d);
          FinishIsFine(s, w.d.revision);
          FreeIsGood(w, s, Finalize(s, w.d.revision, SUCCEEDED, PACKAGE, [StageCompleted(PACKAGE), RunCompleted]));
        }
      case DeadReport(fuel) =>
        if w.d.status != TERMINAL {
          CommitOnceIsFine(s, FAILURE_REPORT);
          FreeIsGood(w, s, CommitOnce(s, FAILURE_REPORT));
        }
      case DeadFinalize(fuel, expected) =>
        FinalizeIsFine(s, expected, FAILED, w.d.phase, RunFailed);
        FreeIsGood(w, s, Finalize(s, expected, FAILED, w.d.phase, [RunFailed]));
    }
  }

  lemma ControlIsGood(w: World, step: Step)
    requires Inv(w) && (step.Pause? || step.Resume? || step.Answer?)
    ensures Good(w, Next(w, step))
  {
    hide Consistent, Fine, Ready, Write, Control;
    var s := Lock(w, step.fuel);
    match step {
      case Pause(fuel) =>
        if w.d.status !in {TERMINAL, PAUSED} {
          ControlIsFine(w, fuel, PAUSED);
          FreeIsGood(w, s, Section(Control(w, fuel, PAUSED).d, 0, true));
          ControlKeepsPc(w, fuel, PAUSED);
        }
      case Resume(fuel, open) =>
        if w.d.status == PAUSED {
          var status := if open then WAITING_USER else RUNNING;
          ControlIsFine(w, fuel, status);
          FreeIsGood(w, s, Section(Control(w, fuel, status).d, 0, true));
          ControlKeepsPc(w, fuel, status);
        }
      case Answer(fuel) =>
        if w.d.status == WAITING_USER {
          StatusIsFine(s, w.d.(status := QUEUED, revision := w.d.revision + 1));
          FreeIsGood(w, s, Write(s, w.d.(status := QUEUED, revision := w.d.revision + 1)));
        }
    }
  }

  lemma ControlKeepsPc(w: World, fuel: nat, status: Status)
    ensures Control(w, fuel, status) == Free(w, Section(Control(w, fuel, status).d, 0, true))
  {
  }

  // ---------------------------------------------------------------- all runs

  lemma {:induction false} AlwaysInv(steps: seq<Step>, k: nat)
    requires k <= |steps|
    ensures Inv(After(steps, k))
  {
    hide Next;
    if k == 0 {
      assert Stages([]) == [];
    } else {
      AlwaysInv(steps, k - 1);
      NextIsGood(After(steps, k - 1), steps[k - 1]);
    }
  }

  /** Outputs, events and the result are never taken back or replaced. */
  lemma {:induction false} NothingIsTakenBack(steps: seq<Step>, i: nat, k: nat)
    requires i <= k <= |steps|
    ensures Grows(After(steps, i).d, After(steps, k).d)
    decreases k - i
  {
    hide Next, Inv;
    if i < k {
      NothingIsTakenBack(steps, i, k - 1);
      AlwaysInv(steps, k - 1);
      NextIsGood(After(steps, k - 1), steps[k - 1]);
      GrowsTransitive(After(steps, i).d, After(steps, k - 1).d, After(steps, k).d);
    }
  }

  /**
    Wherever the crashes fall and however often steps are re-run, each kind of output other than
    the data quality report is created at most once, and announced at most once and only if it exists.
  */
  lemma PublishedAtMostOnce(steps: seq<Step>, kind: Kind)
    requires kind != DATA_QUALITY_REPORT
    ensures var d := After(steps, |steps|).d;
      && (forall i, j :: 0 <= i < |d.outputs| && 0 <= j < |d.outputs| && d.outputs[i] == kind && d.outputs[j] == kind ==> i == j)
      && (forall i, j :: 0 <= i < |d.events| && 0 <= j < |d.events| && d.events[i] == OutputCommitted(kind) && d.events[j] == OutputCommitted(kind) ==> i == j)
      && (OutputCommitted(kind) in d.events ==> kind in d.outputs)
  {
    hide StagesOk, StatusOk;
    AlwaysInv(steps, |steps|);
  }

  /** The stages announced so far are the first ones in order, each once. */
  lemma StagesInOrder(steps: seq<Step>)
    ensures Stages(After(steps, |steps|).d.events) <= ORDER
  {
    AlwaysInv(steps, |steps|);
  }

  /** A stage is announced only when its outputs exist and the stages before it are announced. */
  lemma AnnouncedAfterOutputs(steps: seq<Step>, phase: Phase)
    requires Completed(After(steps, |steps|).d, phase)
    ensures var d := After(steps, |steps|).d;
      && (phase == PROFILE ==> Has(d, DATA_QUALITY_REPORT))
      && (phase == PLAN ==> Has(d, TASK_SPEC) && Has(d, SPLIT_MANIFEST))
      && (phase == TRAIN ==> Has(d, BASELINE_RESULT))
      && (phase == EVALUATE ==> Has(d, EVALUATION_REPORT))
      && (phase == PACKAGE ==> Has(d, MODEL_CARD) && Has(d, RUN_REPORT) && d.result.Some?)
      && forall earlier :: Rank(earlier) <= Rank(phase) ==> Completed(d, earlier)
  {
    AlwaysInv(steps, |steps|);
    var d := After(steps, |steps|).d;
    assert Ready(d, phase);
    forall earlier | Rank(earlier) <= Rank(phase) ensures Completed(d, earlier) {
      EarlierToo(d, earlier, phase);
    }
  }

  lemma {:induction false} EarlierToo(d: Durable, earlier: Phase, phase: Phase)
    requires StagesOk(d) && Completed(d, phase) && Rank(earlier) <= Rank(phase)
    ensures Completed(d, earlier)
    decreases Rank(phase)
  {
    if earlier != phase {
      ReadyHasPredecessor(d, phase);
      EarlierToo(d, earlier, ORDER[Rank(phase) - 1]);
    }
  }

  /** When a result is about to be published, the plan outputs it refers to are there: the check for them never fails. */
  lemma PlanOutputsAreDurable(steps: seq<Step>)
    requires var w := After(steps, |steps|); w.pc == TRAINED && w.d.status != TERMINAL
    ensures var d := After(steps, |steps|).d; Has(d, TASK_SPEC) && Has(d, SPLIT_MANIFEST)
  {
    AlwaysInv(steps, |steps|);
    var d := After(steps, |steps|).d;
    EarlierToo(d, PLAN, TRAIN);
    assert Ready(d, PLAN);
  }

  /** Every trial of the snapshot has its output by the time its callback announces TRAIN. */
  lemma TrainAnnouncesItsTrials(w: World, fuel: nat, trials: seq<int>, n: int)
    requires Inv(w) && w.pc == PLANNED && n in trials && !Completed(w.d, TRAIN)
    requires Completed(Next(w, TrainCallback(fuel, trials)).d, TRAIN)
    ensures Has(Next(w, TrainCallback(fuel, trials)).d, TRIAL_RESULT(n))
  {
    hide Consistent, CommitOnce, Trials, Transition, Complete, Completed, Has, Fine;
    var s := Lock(w, fuel);
    CommitOnceIsFine(s, BASELINE_RESULT);
    CommitOnceAddsNoStage(s, BASELINE_RESULT, TRAIN);
    var b := CommitOnce(s, BASELINE_RESULT);
    FineOk(s, b);
    TrialsIsFine(b, trials);
    TrialsAddNoStage(b, trials, TRAIN);
    var t := Trials(b, trials);
    TransitionAddsNoStage(Complete(t, TRAIN), EVALUATE, TRAIN);
    AnnouncingTakesLife(t, TRAIN);
  }

  lemma AnnouncingTakesLife(s: Section, phase: Phase)
    requires !Completed(s.d, phase) && Completed(Complete(s, phase).d, phase)
    ensures s.alive && forall kind :: Has(s.d, kind) ==> Has(Complete(s, phase).d, kind)
  {
  }

  lemma CommitOnceAddsNoStage(s: Section, kind: Kind, phase: Phase)
    ensures Completed(CommitOnce(s, kind).d, phase) <==> Completed(s.d, phase)
    ensures forall k :: Has(s.d, k) ==> Has(CommitOnce(s, kind).d, k)
  {
  }

  lemma {:induction false} TrialsAddNoStage(s: Section, trials: seq<int>, phase: Phase)
    ensures Completed(Trials(s, trials).d, phase) <==> Completed(s.d, phase)
    decreases |trials|
  {
    hide CommitOnce;
    if trials != [] {
      TrialsAddNoStage(s, trials[..|trials| - 1], phase);
      CommitOnceAddsNoStage(Trials(s, trials[..|trials| - 1]), TRIAL_RESULT(trials[|trials| - 1]), phase);
    }
  }

  lemma TransitionAddsNoStage(s: Section, to: Phase, phase: Phase)
    ensures Completed(Transition(s, to).d, phase) <==> Completed(s.d, phase)
    ensures forall kind :: Has(s.d, kind) ==> Has(Transition(s, to).d, kind)
  {
  }

  // ---------------------------------------------------------------- what is not kept

  /**
    A terminal run stays terminal under every step but one: a positive-class question, which does
    not look at the status again, reopens it as soon as its first write succeeds.
  */
  lemma TerminalIsKeptExactly(w: World, step: Step)
    requires Inv(w) && w.d.status == TERMINAL
    ensures Next(w, step).d.status == TERMINAL <==> !(step.PositiveClassNeeded? && Training(w.pc) && step.fuel > 0)
  {
    if step.EngineError? && Training(w.pc) {
      var s := Lock(w, step.fuel);
      CommitOnceIsFine(s, FAILURE_REPORT);
      hide Consistent, CommitOnce;
    }
    hide Consistent, CommitOnce;
  }
}
