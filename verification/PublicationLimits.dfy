/** What re-runs do not promise, and exactly when they do not keep it. */
module PublicationLimits {
  import opened Wrappers
  import opened Publication
  import opened PublicationRuns
  import opened PublicationResume

  // ---------------------------------------------------------------- counting writes

  /** `r` lives on exactly if there were `cost` writes left, and has used that many; phase and job stay. */
  predicate Spends(s: Section, r: Section, cost: nat) {
    (r.alive <==> s.alive && s.fuel >= cost) && (r.alive ==> r.fuel == s.fuel - cost) && r.d.phase == s.d.phase && r.d.job == s.d.job
  }

  lemma EmitSpends(s: Section, e: Event)
    ensures Spends(s, Emit(s, e), 2) && Emit(s, e).d.outputs == s.d.outputs
    ensures forall phase :: e != StageCompleted(phase) ==> (Completed(Emit(s, e).d, phase) <==> Completed(s.d, phase))
  {
  }

  function StageCost(d: Durable, phase: Phase): nat {
    if Completed(d, phase) then 0 else 2
  }

  lemma CompleteSpends(s: Section, phase: Phase)
    requires s.alive
    ensures Spends(s, Complete(s, phase), StageCost(s.d, phase)) && Complete(s, phase).d.outputs == s.d.outputs
    ensures forall other :: other != phase ==> (Completed(Complete(s, phase).d, other) <==> Completed(s.d, other))
  {
    hide Emit;
    if !Completed(s.d, phase) { EmitSpends(s, StageCompleted(phase)); }
  }

  lemma DeadStaysDead(s: Section, phase: Phase, kind: Kind)
    requires !s.alive
    ensures Complete(s, phase) == s && Commit(s, kind) == s && Touch(s) == s
  {
  }

  lemma CommitSpends(s: Section, kind: Kind)
    ensures Spends(s, Commit(s, kind), 4)
    ensures Commit(s, kind).d.outputs == if s.alive && s.fuel > 0 then s.d.outputs + [kind] else s.d.outputs
    ensures forall phase :: Completed(Commit(s, kind).d, phase) <==> Completed(s.d, phase)
  {
    var a := Write(s, s.d.(outputs := s.d.outputs + [kind]));
    EmitSpends(a, OutputCommitted(kind));
    hide Emit;
  }

  // ---------------------------------------------------------------- the data quality report

  function Reports(d: Durable): nat {
    multiset(d.outputs)[DATA_QUALITY_REPORT]
  }

  /** The writes of the profile step before the one that creates the report. */
  function ReportCost(d: Durable): nat {
    3 + StageCost(d, INGEST)
  }

  /** The writes of the profile step before the one that moves the run on to PLAN. */
  function ProfileCost(d: Durable): nat {
    ReportCost(d) + 5 + StageCost(d, PROFILE)
  }

  /** The step is a profile attempt with writes enough to create the report. */
  predicate WritesReport(w: World, step: Step) {
    && step.Profile? && w.pc == PICKED && w.d.job == PROFILE_STEP && w.d.status != TERMINAL
    && step.fuel > ReportCost(w.d)
  }

  function Started(s: Section): Section {
    Emit(Complete(Enter(s, PROFILE, RUNNING), INGEST), PhaseChanged(PROFILE, RUNNING))
  }

  function Profiled(s: Section): Section {
    Complete(Touch(Commit(Started(s), DATA_QUALITY_REPORT)), PROFILE)
  }

  lemma StartedSpends(s: Section)
    requires s.alive
    ensures (Started(s).alive <==> s.fuel >= ReportCost(s.d)) && (Started(s).alive ==> Started(s).fuel == s.fuel - ReportCost(s.d))
    ensures Started(s).d.phase == (if s.fuel > 0 then PROFILE else s.d.phase) && Started(s).d.outputs == s.d.outputs
    ensures (Completed(Started(s).d, PROFILE) <==> Completed(s.d, PROFILE)) && Started(s).d.job == s.d.job
  {
    hide Emit, Complete;
    var a := Enter(s, PROFILE, RUNNING);
    assert Completed(a.d, INGEST) <==> Completed(s.d, INGEST);
    var b := Complete(a, INGEST);
    if a.alive { CompleteSpends(a, INGEST); } else { DeadStaysDead(a, INGEST, DATA_QUALITY_REPORT); }
    EmitSpends(b, PhaseChanged(PROFILE, RUNNING));
  }

  lemma ProfiledSpends(s: Section)
    requires s.alive
    ensures (Profiled(s).alive <==> s.fuel >= ProfileCost(s.d)) && (Profiled(s).alive ==> Profiled(s).fuel == s.fuel - ProfileCost(s.d))
    ensures Profiled(s).d.phase == (if s.fuel > 0 then PROFILE else s.d.phase) && Profiled(s).d.job == s.d.job
    ensures Profiled(s).d.outputs == if s.fuel > ReportCost(s.d) then s.d.outputs + [DATA_QUALITY_REPORT] else s.d.outputs
  {
    hide Emit, Complete, Commit, Started, Completed;
    StartedSpends(s);
    CommitSpends(Started(s), DATA_QUALITY_REPORT);
    var c := Touch(Commit(Started(s), DATA_QUALITY_REPORT));
    if c.alive { CompleteSpends(c, PROFILE); } else { DeadStaysDead(c, PROFILE, DATA_QUALITY_REPORT); }
  }

  lemma EndKeeps(s: Section, questions: bool)
    ensures var r := if questions then RequestDecision(s) else Write(s, s.d.(phase := PLAN, status := QUEUED, revision := s.d.revision + 1));
      r.d.outputs == s.d.outputs && r.d.job == s.d.job && r.d.phase == if s.alive && s.fuel > 0 then PLAN else s.d.phase
  {
    hide Emit;
    var asked := Touch(Write(s, s.d.(phase := PLAN, status := WAITING_USER, revision := s.d.revision + 1)));
    EmitSpends(asked, PhaseChanged(PLAN, WAITING_USER));
    EmitSpends(Emit(asked, PhaseChanged(PLAN, WAITING_USER)), DecisionRequested);
  }

  lemma ProfileOutcome(s: Section, questions: bool)
    requires s.alive
    ensures var r := ExecuteProfile(s, questions);
      && r.d.job == s.d.job
      && r.d.outputs == (if s.fuel > ReportCost(s.d) then s.d.outputs + [DATA_QUALITY_REPORT] else s.d.outputs)
      && r.d.phase == if s.fuel == 0 then s.d.phase else if s.fuel > ProfileCost(s.d) then PLAN else PROFILE
  {
    ProfiledSpends(s);
    EndKeeps(Profiled(s), questions);
    assert ExecuteProfile(s, questions) == if questions then RequestDecision(Profiled(s))
      else Write(Profiled(s), Profiled(s).d.(phase := PLAN, status := QUEUED, revision := Profiled(s).d.revision + 1));
    hide ExecuteProfile, RequestDecision, Profiled;
  }

  // ---------------------------------------------------------------- the other sections

  /** The profile step is not taken up again once it is done. */
  predicate JobLeaves(d: Durable, d': Durable) {
    d'.job == PROFILE_STEP ==> d.job == PROFILE_STEP
  }

  /** No report is added, the phase does not fall and the job does not go back to its first step. */
  predicate Onward(d: Durable, d': Durable) {
    Reports(d') == Reports(d) && Rank(d'.phase) >= Rank(d.phase) && JobLeaves(d, d')
  }

  lemma CommitOnceIsOnward(s: Section, kind: Kind)
    requires kind != DATA_QUALITY_REPORT
    ensures Onward(s.d, CommitOnce(s, kind).d)
  {
    CommitSpends(s, kind);
    hide Commit;
  }

  lemma CompleteIsOnward(s: Section, phase: Phase)
    ensures Onward(s.d, Complete(s, phase).d)
  {
    EmitSpends(s, StageCompleted(phase));
    hide Emit;
  }

  lemma TransitionIsOnward(s: Section, phase: Phase)
    ensures Onward(s.d, Transition(s, phase).d)
  {
    var updated := if Rank(s.d.phase) >= Rank(phase) then s else Enter(s, phase, RUNNING);
    EmitSpends(updated, PhaseChanged(phase, RUNNING));
    hide Emit;
  }

  lemma {:induction false} TrialsIsOnward(s: Section, trials: seq<int>)
    ensures Onward(s.d, Trials(s, trials).d)
    decreases |trials|
  {
    hide CommitOnce;
    if trials != [] {
      TrialsIsOnward(s, trials[..|trials| - 1]);
      CommitOnceIsOnward(Trials(s, trials[..|trials| - 1]), TRIAL_RESULT(trials[|trials| - 1]));
    }
  }

  lemma PlanIsOnward(s: Section)
    ensures Onward(s.d, PublishPlan(s).d)
  {
    hide CommitOnce, Complete, Transition, Completed, Reports;
    CommitOnceIsOnward(s, TASK_SPEC);
    CommitOnceIsOnward(Touch(CommitOnce(s, TASK_SPEC)), SPLIT_MANIFEST);
    CompleteIsOnward(PlanOutputs(s), PLAN);
    TransitionIsOnward(s, TRAIN);
    TransitionIsOnward(Complete(PlanOutputs(s), PLAN), TRAIN);
  }

  lemma TrainIsOnward(s: Section, trials: seq<int>)
    ensures Onward(s.d, PublishTrain(s, trials).d)
  {
    hide CommitOnce, Complete, Transition, Completed, Reports, Trials;
    CommitOnceIsOnward(s, BASELINE_RESULT);
    var b := CommitOnce(s, BASELINE_RESULT);
    TrialsIsOnward(b, trials);
    CompleteIsOnward(Trials(b, trials), TRAIN);
    TransitionIsOnward(s, EVALUATE);
    TransitionIsOnward(Complete(Trials(b, trials), TRAIN), EVALUATE);
  }

  lemma FinalizeIsOnward(s: Section, expected: nat, outcome: Outcome, phase: Phase, events: seq<Event>)
    requires Rank(phase) >= Rank(s.d.phase)
    ensures Onward(s.d, Finalize(s, expected, outcome, phase, events).d)
  {
  }

  lemma ResultIsOnward(s: Section, approval: bool)
    ensures Onward(s.d, PublishResult(s, approval).d)
  {
    hide CommitOnce, Complete, Transition, Reports, Finalize;
    CommitOnceIsOnward(s, EVALUATION_REPORT);
    CompleteIsOnward(CommitOnce(s, EVALUATION_REPORT), EVALUATE);
    TransitionIsOnward(Complete(CommitOnce(s, EVALUATION_REPORT), EVALUATE), PACKAGE);
    CommitOnceIsOnward(Evaluated(s), MODEL_CARD);
    CommitOnceIsOnward(CommitOnce(Evaluated(s), MODEL_CARD), RUN_REPORT);
    var ready := Packaged(s);
    PackageIsLast(ready.d.phase);
    FinalizeIsOnward(ready, ready.d.revision, SUCCEEDED, PACKAGE, [StageCompleted(PACKAGE), RunCompleted]);
    assert forall d: Durable :: Onward(ready.d, d) ==> Onward(s.d, d);
    SameOutputsSameReports(ready.d, PublishResult(s, true).d);
  }

  lemma PackageIsLast(phase: Phase)
    ensures Rank(phase) <= Rank(PACKAGE)
  {
  }

  lemma SameOutputsSameReports(d: Durable, d': Durable)
    ensures d'.outputs == d.outputs ==> Reports(d') == Reports(d)
  {
  }

  lemma FailIsOnward(s: Section)
    ensures Onward(s.d, FailRun(s).d)
  {
    hide CommitOnce, Reports, Finalize;
    CommitOnceIsOnward(s, FAILURE_REPORT);
    var r := CommitOnce(s, FAILURE_REPORT);
    FinalizeIsOnward(r, r.d.revision, FAILED, r.d.phase, [RunFailed]);
  }

  lemma ControlIsOnward(w: World, fuel: nat, status: Status)
    ensures Onward(w.d, Control(w, fuel, status).d)
  {
    hide Emit;
    var s := Lock(w, fuel);
    EmitSpends(Write(s, s.d.(status := status, revision := s.d.revision + 1)), PhaseChanged(s.d.phase, status));
  }

  // ---------------------------------------------------------------- the phase

  /** The phase a step sets whatever was reached before, if it sets one. */
  function Resets(w: World, step: Step): Option<Phase> {
    match step
    case Profile(fuel, _, _) =>
      if w.pc == PICKED && w.d.job == PROFILE_STEP && w.d.status != TERMINAL && fuel > 0 then
        Some(if fuel > ProfileCost(w.d) then PLAN else PROFILE)
      else None
    case Resolve(fuel, _) =>
      if w.pc == PICKED && w.d.job == RESOLVE_TASK_STEP && w.d.status != TERMINAL && fuel > 0 then Some(PLAN) else None
    case Begin(fuel, _) =>
      if w.pc == PICKED && w.d.job == TRAIN_STEP && w.d.status !in {TERMINAL, PAUSED} && fuel > 0 then Some(PLAN) else None
    case PositiveClassNeeded(fuel, _) => if Training(w.pc) && fuel > 0 then Some(PLAN) else None
    case _ => None
  }

  /** What a step does to the reports, to the phase and to the job. */
  predicate Effect(w: World, step: Step, d': Durable) {
    && JobLeaves(w.d, d')
    && Reports(d') == Reports(w.d) + (if WritesReport(w, step) then 1 else 0)
    && (Resets(w, step).Some? ==> d'.phase == Resets(w, step).value)
    && (Resets(w, step).None? ==> Rank(d'.phase) >= Rank(w.d.phase))
  }

  lemma ProfileEffect(w: World, fuel: nat, questions: bool, settled: bool)
    ensures Effect(w, Profile(fuel, questions, settled), ProfileStep(w, fuel, questions, settled).d)
  {
    hide ExecuteProfile;
    ProfileOutcome(Lock(w, fuel), questions);
  }

  lemma QuestionEffect(w: World, fuel: nat, settled: bool)
    ensures Effect(w, PositiveClassNeeded(fuel, settled), Next(w, PositiveClassNeeded(fuel, settled)).d)
  {
    hide RequestDecision;
    EndKeeps(Lock(w, fuel), true);
  }

  lemma OtherEffect(w: World, step: Step)
    requires !step.Profile? && !step.PositiveClassNeeded? && !step.Resolve? && !step.Begin?
    ensures Onward(w.d, Next(w, step).d)
  {
    hide PublishPlan, PublishTrain, PublishResult, FailRun, Control, Finalize, CommitOnce, Reports;
    match step {
      case Pick(settled) => SameOutputsSameReports(w.d, Next(w, step).d);
      case PlanCallback(fuel) => PlanIsOnward(Lock(w, fuel));
      case TrainCallback(fuel, trials) => TrainIsOnward(Lock(w, fuel), trials);
      case Publish(fuel, approval, settled) =>
        ResultIsOnward(Lock(w, fuel), approval);
        SameOutputsSameReports(PublishResult(Lock(w, fuel), approval).d, PublishResult(Lock(w, fuel), approval).d.(job := CLOSED));
        SameOutputsSameReports(w.d, w.d.(job := CLOSED));
      case EngineError(fuel, settled) =>
        FailIsOnward(Lock(w, fuel));
        SameOutputsSameReports(FailRun(Lock(w, fuel)).d, FailRun(Lock(w, fuel)).d.(job := CLOSED));
      case Crash =>
      case JobDies => SameOutputsSameReports(w.d, w.d.(job := CLOSED));
      case Cancel(fuel) => FinalizeIsOnward(Lock(w, fuel), w.d.revision, CANCELED, w.d.phase, [RunCanceled]);
      case Decide(fuel) =>
        PackageIsLast(w.d.phase);
        FinalizeIsOnward(Lock(w, fuel), w.d.revision, SUCCEEDED, PACKAGE, [StageCompleted(PACKAGE), RunCompleted]);
      case DeadReport(fuel) => CommitOnceIsOnward(Lock(w, fuel), FAILURE_REPORT);
      case DeadFinalize(fuel, expected) => FinalizeIsOnward(Lock(w, fuel), expected, FAILED, w.d.phase, [RunFailed]);
      case Pause(fuel) => ControlIsOnward(w, fuel, PAUSED);
      case Resume(fuel, open) => ControlIsOnward(w, fuel, if open then WAITING_USER else RUNNING);
      case Answer(fuel) => SameOutputsSameReports(w.d, Next(w, step).d);
    }
  }

  lemma StepEffect(w: World, step: Step)
    ensures Effect(w, step, Next(w, step).d)
  {
    hide PublishPlan, PublishTrain, PublishResult, FailRun, Control, Finalize, CommitOnce, ExecuteProfile, RequestDecision;
    match step {
      case Profile(fuel, questions, settled) => ProfileEffect(w, fuel, questions, settled);
      case PositiveClassNeeded(fuel, settled) => QuestionEffect(w, fuel, settled);
      case Resolve(_, _) =>
      case Begin(_, _) =>
      case _ => OtherEffect(w, step);
    }
  }

  /** The phase falls in a step exactly when the step sets a phase and a later one had been reached. */
  lemma PhaseFallsExactly(w: World, step: Step)
    ensures Rank(Next(w, step).d.phase) < Rank(w.d.phase) <==>
      Resets(w, step).Some? && Rank(Resets(w, step).value) < Rank(w.d.phase)
  {
    StepEffect(w, step);
    hide Next, Reports;
  }

  /** A step creates one data quality report if it is a profile attempt that gets that far, and none otherwise. */
  lemma ReportsPerStep(w: World, step: Step)
    ensures Reports(Next(w, step).d) == Reports(w.d) + if WritesReport(w, step) then 1 else 0
  {
    StepEffect(w, step);
    hide Next, Reports;
  }

  // ---------------------------------------------------------------- reports over whole runs

  ghost predicate Reported(steps: seq<Step>, k: nat) {
    k < |steps| && WritesReport(After(steps, k), steps[k])
  }

  /** How many of the first `k` steps got as far as creating a report. */
  ghost function ReportedBefore(steps: seq<Step>, k: nat): nat
    requires k <= |steps|
  {
    if k == 0 then 0 else ReportedBefore(steps, k - 1) + if Reported(steps, k - 1) then 1 else 0
  }

  /** There is one report for each attempt that got that far. */
  lemma {:induction false} ReportsAreCounted(steps: seq<Step>, k: nat)
    requires k <= |steps|
    ensures Reports(After(steps, k).d) == ReportedBefore(steps, k)
  {
    hide Next, Reports, WritesReport;
    if k > 0 {
      ReportsAreCounted(steps, k - 1);
      ReportsPerStep(After(steps, k - 1), steps[k - 1]);
    } else {
      NoReportYet();
    }
  }

  lemma NoReportYet()
    ensures Reports(NEW_RUN.d) == 0
  {
  }

  lemma {:induction false} ReportedBeforeGrows(steps: seq<Step>, i: nat, k: nat)
    requires i <= k <= |steps|
    ensures ReportedBefore(steps, i) <= ReportedBefore(steps, k)
    decreases k - i
  {
    if i < k { ReportedBeforeGrows(steps, i, k - 1); }
    hide Reported;
  }

  lemma {:induction false} SomeReported(steps: seq<Step>, k: nat) returns (i: nat)
    requires k <= |steps| && ReportedBefore(steps, k) > 0
    ensures i < k && Reported(steps, i) && ReportedBefore(steps, i + 1) == ReportedBefore(steps, k)
  {
    if Reported(steps, k - 1) { i := k - 1; } else { i := SomeReported(steps, k - 1); }
    hide Reported;
  }

  /**
    The report repeats exactly when an attempt creates it after an earlier one has, and then the
    earlier one did not move its job on: it died, or the job row refused what it returned.
  */
  lemma ReportRepeatsExactly(steps: seq<Step>, k: nat)
    requires k <= |steps|
    ensures Reports(After(steps, k).d) > 1 <==> exists i: nat, j: nat :: i < j < k && Reported(steps, i) && Reported(steps, j)
    ensures forall i: nat, j: nat :: i < j < k && Reported(steps, i) && Reported(steps, j) ==> After(steps, i + 1).d.job == PROFILE_STEP
  {
    hide Reported, After, ReportedBefore;
    ReportsAreCounted(steps, k);
    if ReportedBefore(steps, k) > 1 {
      var i, j := FirstOfTwo(steps, k);
      assert i < j < k && Reported(steps, i) && Reported(steps, j);
    }
    forall i: nat, j: nat | i < j < k && Reported(steps, i) && Reported(steps, j)
      ensures ReportedBefore(steps, k) > 1 && After(steps, i + 1).d.job == PROFILE_STEP {
      TwoReported(steps, i, j, k);
    }
  }

  lemma FirstOfTwo(steps: seq<Step>, k: nat) returns (i: nat, j: nat)
    requires k <= |steps| && ReportedBefore(steps, k) > 1
    ensures i < j < k && Reported(steps, i) && Reported(steps, j)
  {
    hide Reported;
    j := SomeReported(steps, k);
    i := SomeReported(steps, j);
  }

  lemma TwoReported(steps: seq<Step>, i: nat, j: nat, k: nat)
    requires i < j < k <= |steps| && Reported(steps, i) && Reported(steps, j)
    ensures ReportedBefore(steps, k) > 1 && After(steps, i + 1).d.job == PROFILE_STEP
  {
    hide Reported, After;
    ReportedBeforeGrows(steps, i + 1, j);
    ReportedBeforeGrows(steps, j + 1, k);
    ReporterHasTheJob(steps, j);
    JobOnlyLeavesProfile(steps, i + 1, j);
  }

  lemma ReporterHasTheJob(steps: seq<Step>, k: nat)
    requires Reported(steps, k)
    ensures After(steps, k).d.job == PROFILE_STEP
  {
    hide After;
  }

  lemma {:induction false} JobOnlyLeavesProfile(steps: seq<Step>, i: nat, k: nat)
    requires i <= k <= |steps| && After(steps, k).d.job == PROFILE_STEP
    ensures After(steps, i).d.job == PROFILE_STEP
    decreases k - i
  {
    hide Next;
    if i < k {
      NoWayBack(After(steps, k - 1), steps[k - 1]);
      JobOnlyLeavesProfile(steps, i, k - 1);
    }
  }

  lemma NoWayBack(w: World, step: Step)
    requires Next(w, step).d.job == PROFILE_STEP
    ensures w.d.job == PROFILE_STEP
  {
    StepEffect(w, step);
    hide Next, Reports;
  }

  // ---------------------------------------------------------------- announcements

  ghost predicate Unannounced(d: Durable, kind: Kind) {
    Has(d, kind) && OutputCommitted(kind) !in d.events
  }

  /** A first commit leaves the output there and unannounced exactly when it had a single write left. */
  lemma AnnouncementLostExactly(s: Section, kind: Kind)
    requires s.alive && !Has(s.d, kind) && OutputCommitted(kind) !in s.d.events
    ensures Unannounced(CommitOnce(s, kind).d, kind) <==> s.fuel == 1
  {
  }

  /** And what was not announced then never is, whatever happens next: later attempts find the output there. */
  lemma {:induction false} UnannouncedForever(steps: seq<Step>, i: nat, k: nat, kind: Kind)
    requires i <= k <= |steps| && kind != DATA_QUALITY_REPORT && Unannounced(After(steps, i).d, kind)
    ensures Unannounced(After(steps, k).d, kind)
    decreases k - i
  {
    hide Next, Inv, Has;
    if i < k {
      UnannouncedForever(steps, i, k - 1, kind);
      AlwaysInv(steps, k - 1);
      NextIsGood(After(steps, k - 1), steps[k - 1]);
      GrowsKeeps(After(steps, k - 1).d, After(steps, k).d);
    }
  }

  // ---------------------------------------------------------------- one run that shows them

  /** A profile attempt cut after its report, one that succeeds, and three training attempts of which two are cut. */
  const SHOWN := [
    Pick(true), Profile(8, false, true), Pick(true), Profile(20, false, true),
    Pick(true), Begin(20, true), PlanCallback(1), Crash,
    Pick(true), Begin(20, true), PlanCallback(20), Crash,
    Pick(true), Begin(20, true)]

  lemma Unfold(steps: seq<Step>, k: nat)
    requires k < |steps|
    ensures After(steps, k + 1) == Next(After(steps, k), steps[k])
  {
  }

  lemma TwoSteps(steps: seq<Step>, k: nat)
    requires k + 1 < |steps|
    ensures After(steps, k + 2) == Next(Next(After(steps, k), steps[k]), steps[k + 1])
  {
    Unfold(steps, k);
    Unfold(steps, k + 1);
    hide After, Next;
  }

  lemma ProfileTwice()
    ensures Reports(After(SHOWN, 4).d) == 2
    ensures var w := After(SHOWN, 4);
      w.pc == IDLE && w.d.job == TRAIN_STEP && w.d.status == QUEUED && w.d.phase == PLAN
      && w.d.outputs == [DATA_QUALITY_REPORT, DATA_QUALITY_REPORT] && !Completed(w.d, PLAN)
      && OutputCommitted(TASK_SPEC) !in w.d.events
  {
    hide After, Next, Reports, Completed;
    TwoSteps(SHOWN, 0);
    TwoSteps(SHOWN, 2);
    AfterNone(SHOWN);
    FirstProfileDies();
    SecondProfile(After(SHOWN, 2).d);
    TwoReports(After(SHOWN, 4).d);
  }

  lemma TwoReports(d: Durable)
    requires d.outputs == [DATA_QUALITY_REPORT, DATA_QUALITY_REPORT]
    ensures Reports(d) == 2
  {
  }

  lemma AfterNone(steps: seq<Step>)
    ensures After(steps, 0) == NEW_RUN
  {
  }

  /** The state a profile step leaves that is cut after its report was committed. */
  lemma FirstProfileDies()
    ensures var w := Next(Next(NEW_RUN, Pick(true)), Profile(8, false, true));
      && w.pc == IDLE && w.d.outputs == [DATA_QUALITY_REPORT] && w.d.job == PROFILE_STEP && w.d.status == RUNNING
      && w.d.events == [StageCompleted(INGEST), PhaseChanged(PROFILE, RUNNING), OutputCommitted(DATA_QUALITY_REPORT)]
  {
    var s := Lock(Next(NEW_RUN, Pick(true)), 8);
    var a := Enter(s, PROFILE, RUNNING);
    assert a.fuel == 7 && a.d.events == [];
    var b := Complete(a, INGEST);
    assert b.fuel == 5 && b.d.events == [StageCompleted(INGEST)];
    var c := Emit(b, PhaseChanged(PROFILE, RUNNING));
    assert c.fuel == 3 && c.d.events == [StageCompleted(INGEST), PhaseChanged(PROFILE, RUNNING)];
    var q := Commit(c, DATA_QUALITY_REPORT);
    assert !q.alive;
    assert Touch(q) == q && Complete(q, PROFILE) == q;
  }

  lemma SecondProfile(d: Durable)
    requires d.outputs == [DATA_QUALITY_REPORT] && d.job == PROFILE_STEP && d.status == RUNNING
    requires d.events == [StageCompleted(INGEST), PhaseChanged(PROFILE, RUNNING), OutputCommitted(DATA_QUALITY_REPORT)]
    ensures var w := Next(Next(World(d, IDLE), Pick(true)), Profile(20, false, true));
      && w.pc == IDLE && w.d.outputs == [DATA_QUALITY_REPORT, DATA_QUALITY_REPORT] && w.d.job == TRAIN_STEP
      && w.d.status == QUEUED && w.d.phase == PLAN && !Completed(w.d, PLAN) && OutputCommitted(TASK_SPEC) !in w.d.events
  {
    var s := Section(d, 20, true);
    var b := Complete(Enter(s, PROFILE, RUNNING), INGEST);
    assert b.alive && b.fuel == 19;
    var c := Emit(b, PhaseChanged(PROFILE, RUNNING));
    var q := Touch(Commit(c, DATA_QUALITY_REPORT));
    assert q.alive && q.fuel == 12 && q.d.outputs == [DATA_QUALITY_REPORT, DATA_QUALITY_REPORT];
    assert q.d.events == d.events + [PhaseChanged(PROFILE, RUNNING), OutputCommitted(DATA_QUALITY_REPORT)];
    var p := Complete(q, PROFILE);
    assert p.alive && p.fuel >= 10 && p.d.events == q.d.events + [StageCompleted(PROFILE)];
  }

  /** The first training attempt is cut by its PLAN callback between creating the task spec and announcing it. */
  lemma TaskSpecGoesUnannounced()
    ensures Unannounced(After(SHOWN, 7).d, TASK_SPEC)
    ensures var w := After(SHOWN, 8);
      w.pc == IDLE && w.d.job == TRAIN_STEP && w.d.status == RUNNING && w.d.phase == PLAN && !Completed(w.d, PLAN)
  {
    hide After, Next, Reports, Completed, Unannounced;
    ProfileTwice();
    TwoSteps(SHOWN, 4);
    Unfold(SHOWN, 6);
    Unfold(SHOWN, 7);
    CutPlan(After(SHOWN, 4));
    CrashKeeps(After(SHOWN, 7));
  }

  lemma CrashKeeps(w: World)
    ensures Next(w, Crash) == World(w.d, IDLE)
  {
  }

  lemma CutPlan(w: World)
    requires w.pc == IDLE && w.d.job == TRAIN_STEP && w.d.status == QUEUED && !Completed(w.d, PLAN)
    requires !Has(w.d, TASK_SPEC) && OutputCommitted(TASK_SPEC) !in w.d.events
    ensures var r := Next(Next(Next(w, Pick(true)), Begin(20, true)), PlanCallback(1));
      && Unannounced(r.d, TASK_SPEC)
      && r.d.job == TRAIN_STEP && r.d.status == RUNNING && r.d.phase == PLAN && !Completed(r.d, PLAN)
  {
    var b := Next(Next(w, Pick(true)), Begin(20, true));
    var s := Lock(b, 1);
    var a := CommitOnce(s, TASK_SPEC);
    assert !a.alive && a.d == b.d.(outputs := b.d.outputs + [TASK_SPEC]);
    assert PublishPlan(s).d.(phase := PLAN, status := RUNNING) == a.d;
  }

  /** The second one gets as far as TRAIN, and the third puts the phase back to PLAN. */
  lemma PhaseGoesBack()
    ensures After(SHOWN, 12).d.phase == TRAIN && After(SHOWN, 14).d.phase == PLAN
    ensures Resets(After(SHOWN, 13), SHOWN[13]) == Some(PLAN)
  {
    hide After, Next, Completed, Unannounced, Reports;
    TaskSpecGoesUnannounced();
    TwoSteps(SHOWN, 8);
    Unfold(SHOWN, 10);
    Unfold(SHOWN, 11);
    Unfold(SHOWN, 12);
    Unfold(SHOWN, 13);
    WholePlan(After(SHOWN, 8));
    CrashKeeps(After(SHOWN, 11));
    BeginsAgain(After(SHOWN, 12));
  }

  lemma BeginsAgain(w: World)
    requires w.pc == IDLE && w.d.job == TRAIN_STEP && w.d.status == RUNNING
    ensures var picked := Next(w, Pick(true));
      Resets(picked, Begin(20, true)) == Some(PLAN) && Next(picked, Begin(20, true)).d.phase == PLAN
  {
  }

  lemma WholePlan(w: World)
    requires w.pc == IDLE && w.d.job == TRAIN_STEP && w.d.status == RUNNING && w.d.phase == PLAN
    ensures var r := Next(Next(Next(w, Pick(true)), Begin(20, true)), PlanCallback(20));
      r.d.phase == TRAIN && r.d.job == TRAIN_STEP && r.d.status == RUNNING
  {
    hide PublishPlan;
    var b := Next(Next(w, Pick(true)), Begin(20, true));
    assert b.d == w.d;
    PlanReaches(Lock(b, 20));
    PlanEndsInTrain(Lock(b, 20));
  }

  lemma PlanEndsInTrain(s: Section)
    requires s.d.status == RUNNING && s.d.phase == PLAN && PublishPlan(s).alive
    ensures PublishPlan(s).d.phase == TRAIN
  {
    hide CommitOnce, Complete, Transition;
    if Completed(s.d, PLAN) {
      EntersTrain(s);
    } else {
      PlanOutputsKeepPhase(s);
      CompleteKeepsPhase(PlanOutputs(s));
      EntersTrain(Complete(PlanOutputs(s), PLAN));
    }
  }

  lemma PlanOutputsKeepPhase(s: Section)
    ensures PlanOutputs(s).d.phase == s.d.phase
  {
    CommitSpends(s, TASK_SPEC);
    CommitSpends(Touch(CommitOnce(s, TASK_SPEC)), SPLIT_MANIFEST);
    hide Commit;
  }

  lemma CompleteKeepsPhase(s: Section)
    ensures Complete(s, PLAN).d.phase == s.d.phase
  {
  }

  lemma EntersTrain(s: Section)
    requires s.d.phase == PLAN && Transition(s, TRAIN).alive
    ensures Transition(s, TRAIN).d.phase == TRAIN
  {
  }
}
