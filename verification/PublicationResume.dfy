/** A re-run that is left alone finishes what earlier attempts began. */
module PublicationResume {
  import opened Wrappers
  import opened Publication
  import opened PublicationRuns

  // ---------------------------------------------------------------- enough writes

  /** `r` is reached from `s` with at most `cost` writes, without ending the run or moving its job. */
  predicate Reaches(s: Section, r: Section, cost: nat) {
    && r.alive && r.fuel + cost >= s.fuel
    && r.d.result == s.d.result && r.d.job == s.d.job && (r.d.status == s.d.status || r.d.status == RUNNING)
  }

  lemma CommitOnceReaches(s: Section, kind: Kind)
    requires s.alive && s.fuel >= 4
    ensures Reaches(s, CommitOnce(s, kind), 4) && Has(CommitOnce(s, kind).d, kind)
  {
  }

  lemma CompleteReaches(s: Section, phase: Phase)
    requires s.alive && s.fuel >= 2
    ensures Reaches(s, Complete(s, phase), 2) && Completed(Complete(s, phase).d, phase)
  {
  }

  lemma TransitionReaches(s: Section, phase: Phase)
    requires s.alive && s.fuel >= 3
    ensures Reaches(s, Transition(s, phase), 3)
  {
  }

  lemma {:induction false} TrialsReach(s: Section, trials: seq<int>)
    requires s.alive && s.fuel >= 4 * |trials|
    ensures Reaches(s, Trials(s, trials), 4 * |trials|)
    decreases |trials|
  {
    hide CommitOnce;
    if trials != [] {
      var init, last := trials[..|trials| - 1], trials[|trials| - 1];
      TrialsReach(s, init);
      CommitOnceReaches(Trials(s, init), TRIAL_RESULT(last));
    }
  }

  lemma PlanReaches(s: Section)
    requires s.alive && s.fuel >= 15 && s.d.status == RUNNING
    ensures Reaches(s, PublishPlan(s), 15)
  {
    hide CommitOnce, Complete, Transition, Completed;
    var done := s;
    if !Completed(s.d, PLAN) {
      CommitOnceReaches(s, TASK_SPEC);
      var a := Touch(CommitOnce(s, TASK_SPEC));
      CommitOnceReaches(a, SPLIT_MANIFEST);
      var b := Touch(CommitOnce(a, SPLIT_MANIFEST));
      CompleteReaches(b, PLAN);
      done := Complete(b, PLAN);
    }
    TransitionReaches(done, TRAIN);
  }

  lemma TrainReaches(s: Section, trials: seq<int>)
    requires s.alive && s.fuel >= 9 + 4 * |trials| && s.d.status == RUNNING
    ensures Reaches(s, PublishTrain(s, trials), 9 + 4 * |trials|)
  {
    hide CommitOnce, Complete, Transition, Completed, Trials;
    var done := s;
    if !Completed(s.d, TRAIN) {
      CommitOnceReaches(s, BASELINE_RESULT);
      TrialsReach(CommitOnce(s, BASELINE_RESULT), trials);
      CompleteReaches(Trials(CommitOnce(s, BASELINE_RESULT), trials), TRAIN);
      done := Complete(Trials(CommitOnce(s, BASELINE_RESULT), trials), TRAIN);
    }
    TransitionReaches(done, EVALUATE);
  }

  lemma PackagedReaches(s: Section)
    requires s.alive && s.fuel >= 17
    ensures Reaches(s, Packaged(s), 17)
  {
    hide CommitOnce, Complete, Transition;
    CommitOnceReaches(s, EVALUATION_REPORT);
    CompleteReaches(CommitOnce(s, EVALUATION_REPORT), EVALUATE);
    TransitionReaches(Complete(CommitOnce(s, EVALUATION_REPORT), EVALUATE), PACKAGE);
    CommitOnceReaches(Evaluated(s), MODEL_CARD);
    CommitOnceReaches(CommitOnce(Evaluated(s), MODEL_CARD), RUN_REPORT);
  }

  lemma ResultReaches(s: Section)
    requires s.alive && s.fuel >= 18 && s.d.result.None? && Has(s.d, TASK_SPEC) && Has(s.d, SPLIT_MANIFEST)
    ensures var r := PublishResult(s, false);
      r.alive && r.d.status == TERMINAL && r.d.result == Some(SUCCEEDED) && Completed(r.d, PACKAGE)
  {
    hide Packaged, Has;
    PackagedReaches(s);
    var p := Packaged(s);
    assert StageCompleted(PACKAGE) in p.d.events + [StageCompleted(PACKAGE), RunCompleted];
  }

  // ---------------------------------------------------------------- one undisturbed attempt

  /** A training attempt up to its last callback. */
  function Trained(w: World, fuel: nat, trials: seq<int>): World {
    var begun := Next(Next(w, Pick(true)), Begin(fuel, true));
    Next(Next(begun, PlanCallback(fuel)), TrainCallback(fuel, trials))
  }

  lemma TrainedReaches(w: World, fuel: nat, trials: seq<int>)
    requires Inv(w) && w.pc == IDLE && w.d.job == TRAIN_STEP && w.d.status in {QUEUED, RUNNING} && w.d.result.None?
    requires fuel >= 18 + 4 * |trials|
    ensures var c := Trained(w, fuel, trials);
      && Inv(c) && Grows(w.d, c.d) && c.pc == TRAINED && c.d.status == RUNNING && c.d.result.None?
      && Has(c.d, TASK_SPEC) && Has(c.d, SPLIT_MANIFEST)
  {
    hide Inv, Consistent, PublishPlan, PublishTrain, Has, Completed, Grows;
    var a := Next(Next(w, Pick(true)), Begin(fuel, true));
    NextIsGood(w, Pick(true));
    NextIsGood(Next(w, Pick(true)), Begin(fuel, true));
    assert a.pc == STARTED && a.d.status == RUNNING && a.d.result.None?;
    var b := Next(a, PlanCallback(fuel));
    NextIsGood(a, PlanCallback(fuel));
    PlanReaches(Lock(a, fuel));
    assert b.pc == PLANNED && b.d.status == RUNNING && b.d.result.None?;
    var c := Next(b, TrainCallback(fuel, trials));
    NextIsGood(b, TrainCallback(fuel, trials));
    TrainReaches(Lock(b, fuel), trials);
    assert c.pc == TRAINED && c.d.status == RUNNING && c.d.result.None?;
    TrainedHasPlan(c);
    GrowsTransitive(w.d, Next(w, Pick(true)).d, a.d);
    GrowsTransitive(w.d, a.d, b.d);
    GrowsTransitive(w.d, b.d, c.d);
  }

  /** The lock sections of one training attempt, one after the other. */
  function Attempt(w: World, fuel: nat, trials: seq<int>): World {
    Next(Trained(w, fuel, trials), Publish(fuel, false, true))
  }

  /**
    Whatever earlier attempts left behind: one attempt that is not disturbed and has enough writes
    ends with the successful result and all stages announced, every output there, and the job closed.
  */
  lemma ResumedRunCompletes(w: World, fuel: nat, trials: seq<int>)
    requires Inv(w) && w.pc == IDLE && w.d.job == TRAIN_STEP && w.d.status in {QUEUED, RUNNING} && w.d.result.None?
    requires fuel >= 18 + 4 * |trials|
    ensures var d := Attempt(w, fuel, trials).d;
      && d.status == TERMINAL && d.result == Some(SUCCEEDED) && d.job == CLOSED
      && Stages(d.events) == ORDER
      && Has(d, TASK_SPEC) && Has(d, SPLIT_MANIFEST) && Has(d, BASELINE_RESULT) && Has(d, EVALUATION_REPORT)
      && Has(d, MODEL_CARD) && Has(d, RUN_REPORT)
      && Inv(Attempt(w, fuel, trials)) && Grows(w.d, d)
  {
    hide Inv, Consistent, PublishPlan, PublishTrain, PublishResult, Has, Completed, Grows, Stages;
    var c := Trained(w, fuel, trials);
    TrainedReaches(w, fuel, trials);
    ResultReaches(Lock(c, fuel));
    NextIsGood(c, Publish(fuel, false, true));
    var e := Attempt(w, fuel, trials);
    assert e == Next(c, Publish(fuel, false, true));
    GrowsTransitive(w.d, c.d, e.d);
    JobClosedIsComplete(PublishResult(Lock(c, fuel), false).d, e.d);
    AllStages(e);
  }

  /** The same attempt for a run whose result waits for approval, and the approval. */
  function ApprovedAttempt(w: World, fuel: nat, trials: seq<int>): (World, World) {
    var waiting := Next(Trained(w, fuel, trials), Publish(fuel, true, true));
    (waiting, Next(waiting, Decide(1)))
  }

  /** With approval required the attempt stops before the result, which the decision then writes. */
  lemma ResumedRunAwaitsApproval(w: World, fuel: nat, trials: seq<int>)
    requires Inv(w) && w.pc == IDLE && w.d.job == TRAIN_STEP && w.d.status in {QUEUED, RUNNING} && w.d.result.None?
    requires fuel >= 19 + 4 * |trials|
    ensures var (waiting, decided) := ApprovedAttempt(w, fuel, trials);
      && waiting.d.status == WAITING_APPROVAL && waiting.d.result.None? && waiting.d.job == CLOSED && waiting.d.phase == PACKAGE
      && decided.d.status == TERMINAL && decided.d.result == Some(SUCCEEDED) && Stages(decided.d.events) == ORDER
      && Inv(decided)
  {
    hide Inv, Consistent, PublishPlan, PublishTrain, PublishResult, Has, Completed, Grows, Stages;
    var c := Trained(w, fuel, trials);
    TrainedReaches(w, fuel, trials);
    ApprovalReaches(Lock(c, fuel));
    NextIsGood(c, Publish(fuel, true, true));
    var waiting := Next(c, Publish(fuel, true, true));
    assert waiting == ApprovedAttempt(w, fuel, trials).0;
    NextIsGood(waiting, Decide(1));
    DecideCompletes(waiting);
    AllStages(Next(waiting, Decide(1)));
  }

  lemma ApprovalReaches(s: Section)
    requires s.alive && s.fuel >= 19 && s.d.result.None? && Has(s.d, TASK_SPEC) && Has(s.d, SPLIT_MANIFEST)
    ensures var r := PublishResult(s, true);
      r.alive && r.d.status == WAITING_APPROVAL && r.d.result.None? && r.d.phase == PACKAGE
  {
    hide Packaged, Has;
    PackagedReaches(s);
  }

  lemma DecideCompletes(w: World)
    requires w.d.status == WAITING_APPROVAL && w.d.result.None?
    ensures var d := Next(w, Decide(1)).d;
      d.status == TERMINAL && d.result == Some(SUCCEEDED) && Completed(d, PACKAGE)
  {
    assert StageCompleted(PACKAGE) in w.d.events + [StageCompleted(PACKAGE), RunCompleted];
  }

  lemma JobClosedIsComplete(d: Durable, d': Durable)
    requires Completed(d, PACKAGE) && d' == d.(job := CLOSED)
    ensures Completed(d', PACKAGE)
  {
  }

  lemma TrainedHasPlan(w: World)
    requires Inv(w) && w.pc == TRAINED && w.d.status != TERMINAL
    ensures Has(w.d, TASK_SPEC) && Has(w.d, SPLIT_MANIFEST)
  {
    EarlierToo(w.d, PLAN, TRAIN);
    assert Ready(w.d, PLAN);
  }

  /** Once PACKAGE is announced, everything is. */
  lemma AllStages(w: World)
    requires Inv(w) && Completed(w.d, PACKAGE)
    ensures Stages(w.d.events) == ORDER
    ensures Has(w.d, TASK_SPEC) && Has(w.d, SPLIT_MANIFEST) && Has(w.d, BASELINE_RESULT) && Has(w.d, EVALUATION_REPORT)
    ensures Has(w.d, MODEL_CARD) && Has(w.d, RUN_REPORT)
  {
    EarlierToo(w.d, PLAN, PACKAGE);
    EarlierToo(w.d, TRAIN, PACKAGE);
    EarlierToo(w.d, EVALUATE, PACKAGE);
    assert Ready(w.d, PLAN) && Ready(w.d, TRAIN) && Ready(w.d, EVALUATE) && Ready(w.d, PACKAGE);
    StagesMember(w.d.events, PACKAGE);
    var i :| 0 <= i < |Stages(w.d.events)| && Stages(w.d.events)[i] == PACKAGE;
    assert ORDER[i] == PACKAGE;
  }
}
