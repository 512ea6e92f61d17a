/** How runs end: the stored outcome, the event that announces it, and the one such event a log can hold. */
module PublicationOutcomes {
  import opened Wrappers
  import opened Publication

  predicate IsEnd(e: Event) {
    e in {RunCompleted, RunFailed, RunCanceled}
  }

  /** The event that announces an outcome. */
  function EndOf(outcome: Outcome): Event {
    match outcome case SUCCEEDED => RunCompleted case FAILED => RunFailed case CANCELED => RunCanceled
  }

  /** Events that come with the end of a run: the announcement of its outcome, and of its last stage. */
  predicate Closes(e: Event) {
    IsEnd(e) || e == StageCompleted(PACKAGE)
  }

  /** Nothing about the end of the run has changed. */
  predicate Mild(d: Durable, d': Durable) {
    && d.events <= d'.events && d'.result == d.result
    && forall i :: |d.events| <= i < |d'.events| ==> !Closes(d'.events[i])
  }

  /** The run has got its outcome, announced by the last event; PACKAGE is announced just with success. */
  predicate Ended(d: Durable, d': Durable, outcome: Outcome) {
    && d.result.None? && d'.result == Some(outcome)
    && |d.events| < |d'.events| && d.events <= d'.events && d'.events[|d'.events| - 1] == EndOf(outcome)
    && (forall i :: |d.events| <= i < |d'.events| - 1 && Closes(d'.events[i]) ==> outcome == SUCCEEDED && d'.events[i] == StageCompleted(PACKAGE))
    && (outcome == SUCCEEDED ==> StageCompleted(PACKAGE) in d'.events)
  }

  lemma MildTransitive(a: Durable, b: Durable, c: Durable)
    requires Mild(a, b) && Mild(b, c)
    ensures Mild(a, c)
  {
    hide Closes;
  }

  lemma MildThenEnded(a: Durable, b: Durable, c: Durable, outcome: Outcome)
    requires Mild(a, b) && Ended(b, c, outcome)
    ensures Ended(a, c, outcome)
  {
    hide Closes;
  }

  // ---------------------------------------------------------------- the sections that end nothing

  lemma EmitIsMild(s: Section, e: Event)
    requires !Closes(e)
    ensures Mild(s.d, Emit(s, e).d)
  {
    hide Closes;
  }

  lemma CommitOnceIsMild(s: Section, kind: Kind)
    ensures Mild(s.d, CommitOnce(s, kind).d) && Mild(s.d, Commit(s, kind).d)
  {
    var a := Write(s, s.d.(outputs := s.d.outputs + [kind]));
    EmitIsMild(a, OutputCommitted(kind));
    hide Emit;
  }

  lemma CompleteIsMild(s: Section, phase: Phase)
    requires phase != PACKAGE
    ensures Mild(s.d, Complete(s, phase).d)
  {
    EmitIsMild(s, StageCompleted(phase));
    hide Emit;
  }

  lemma TransitionIsMild(s: Section, phase: Phase)
    ensures Mild(s.d, Transition(s, phase).d)
  {
    var updated := if Rank(s.d.phase) >= Rank(phase) then s else Enter(s, phase, RUNNING);
    EmitIsMild(updated, PhaseChanged(phase, RUNNING));
    hide Emit;
  }

  lemma RequestDecisionIsMild(s: Section)
    ensures Mild(s.d, RequestDecision(s).d)
  {
    hide Emit, Closes, Mild;
    var asked := Touch(Write(s, s.d.(phase := PLAN, status := WAITING_USER, revision := s.d.revision + 1)));
    SameEventsAreMild(s.d, asked.d);
    NeutralEvents();
    var b := Emit(asked, PhaseChanged(PLAN, WAITING_USER));
    EmitIsMild(asked, PhaseChanged(PLAN, WAITING_USER));
    EmitIsMild(b, DecisionRequested);
    MildTransitive(s.d, asked.d, b.d);
    MildTransitive(s.d, b.d, RequestDecision(s).d);
  }

  lemma NeutralEvents()
    ensures !Closes(DecisionRequested) && !Closes(ApprovalRequested) && forall p, status :: !Closes(PhaseChanged(p, status))
  {
  }

  lemma SameEventsAreMild(d: Durable, d': Durable)
    requires d'.events == d.events && d'.result == d.result
    ensures Mild(d, d')
  {
    hide Closes;
  }

  lemma ProfileIsMild(s: Section, questions: bool)
    ensures Mild(s.d, ExecuteProfile(s, questions).d)
  {
    hide Emit, Complete, Commit, RequestDecision, Mild, Closes;
    NeutralEvents();
    var a := Enter(s, PROFILE, RUNNING);
    SameEventsAreMild(s.d, a.d);
    var b := Complete(a, INGEST);
    CompleteIsMild(a, INGEST);
    MildTransitive(s.d, a.d, b.d);
    var c := Emit(b, PhaseChanged(PROFILE, RUNNING));
    EmitIsMild(b, PhaseChanged(PROFILE, RUNNING));
    MildTransitive(s.d, b.d, c.d);
    var e := Commit(c, DATA_QUALITY_REPORT);
    CommitOnceIsMild(c, DATA_QUALITY_REPORT);
    MildTransitive(s.d, c.d, e.d);
    var p := Complete(Touch(e), PROFILE);
    assert Touch(e).d == e.d;
    CompleteIsMild(Touch(e), PROFILE);
    MildTransitive(s.d, e.d, p.d);
    var r := ExecuteProfile(s, questions);
    if questions { RequestDecisionIsMild(p); } else { SameEventsAreMild(p.d, r.d); }
    MildTransitive(s.d, p.d, r.d);
  }

  lemma PlanIsMild(s: Section)
    ensures Mild(s.d, PublishPlan(s).d)
  {
    hide CommitOnce, Complete, Transition, Mild, Completed;
    SameEventsAreMild(s.d, s.d);
    var done := s;
    if !Completed(s.d, PLAN) {
      var a := CommitOnce(s, TASK_SPEC);
      CommitOnceIsMild(s, TASK_SPEC);
      var b := CommitOnce(Touch(a), SPLIT_MANIFEST);
      assert Touch(a).d == a.d && Touch(b).d == b.d;
      CommitOnceIsMild(Touch(a), SPLIT_MANIFEST);
      MildTransitive(s.d, a.d, b.d);
      done := Complete(Touch(b), PLAN);
      CompleteIsMild(Touch(b), PLAN);
      MildTransitive(s.d, b.d, done.d);
    }
    TransitionIsMild(done, TRAIN);
    MildTransitive(s.d, done.d, Transition(done, TRAIN).d);
  }

  lemma {:induction false} TrialsIsMild(s: Section, trials: seq<int>)
    ensures Mild(s.d, Trials(s, trials).d)
    decreases |trials|
  {
    hide CommitOnce, Mild;
    SameEventsAreMild(s.d, s.d);
    if trials != [] {
      var init := trials[..|trials| - 1];
      TrialsIsMild(s, init);
      CommitOnceIsMild(Trials(s, init), TRIAL_RESULT(trials[|trials| - 1]));
      MildTransitive(s.d, Trials(s, init).d, Trials(s, trials).d);
    }
  }

  lemma TrainIsMild(s: Section, trials: seq<int>)
    ensures Mild(s.d, PublishTrain(s, trials).d)
  {
    hide CommitOnce, Complete, Transition, Trials, Mild, Completed;
    SameEventsAreMild(s.d, s.d);
    var done := s;
    if !Completed(s.d, TRAIN) {
      var a := CommitOnce(s, BASELINE_RESULT);
      CommitOnceIsMild(s, BASELINE_RESULT);
      var b := Trials(a, trials);
      TrialsIsMild(a, trials);
      MildTransitive(s.d, a.d, b.d);
      done := Complete(b, TRAIN);
      CompleteIsMild(b, TRAIN);
      MildTransitive(s.d, b.d, done.d);
    }
    TransitionIsMild(done, EVALUATE);
    MildTransitive(s.d, done.d, Transition(done, EVALUATE).d);
  }

  lemma PackagedIsMild(s: Section)
    ensures Mild(s.d, Packaged(s).d)
  {
    hide CommitOnce, Complete, Transition, Mild;
    var a := CommitOnce(s, EVALUATION_REPORT);
    CommitOnceIsMild(s, EVALUATION_REPORT);
    var b := Complete(a, EVALUATE);
    CompleteIsMild(a, EVALUATE);
    MildTransitive(s.d, a.d, b.d);
    var c := Transition(b, PACKAGE);
    TransitionIsMild(b, PACKAGE);
    MildTransitive(s.d, b.d, c.d);
    var e := CommitOnce(c, MODEL_CARD);
    CommitOnceIsMild(c, MODEL_CARD);
    MildTransitive(s.d, c.d, e.d);
    CommitOnceIsMild(e, RUN_REPORT);
    MildTransitive(s.d, e.d, Packaged(s).d);
  }

  lemma ControlIsMild(w: World, fuel: nat, status: Status)
    ensures Mild(w.d, Control(w, fuel, status).d)
  {
    hide Emit, Mild, Closes;
    NeutralEvents();
    var s := Lock(w, fuel);
    var a := Write(s, s.d.(status := status, revision := s.d.revision + 1));
    SameEventsAreMild(s.d, a.d);
    EmitIsMild(a, PhaseChanged(s.d.phase, status));
    MildTransitive(s.d, a.d, Emit(a, PhaseChanged(s.d.phase, status)).d);
  }

  // ---------------------------------------------------------------- the sections that end the run

  predicate MildOrEnded(d: Durable, d': Durable, outcome: Outcome) {
    Mild(d, d') || Ended(d, d', outcome)
  }

  /** The events written with an outcome. */
  function Last(outcome: Outcome): seq<Event> {
    if outcome == SUCCEEDED then [StageCompleted(PACKAGE), RunCompleted] else [EndOf(outcome)]
  }

  lemma FinalizeEnds(s: Section, expected: nat, outcome: Outcome, phase: Phase)
    ensures MildOrEnded(s.d, Finalize(s, expected, outcome, phase, Last(outcome)).d, outcome)
  {
    var events := s.d.events + Last(outcome);
    assert outcome == SUCCEEDED ==> events[|s.d.events|] == StageCompleted(PACKAGE);
  }

  lemma FailRunEnds(s: Section)
    ensures MildOrEnded(s.d, FailRun(s).d, FAILED)
  {
    hide CommitOnce, Mild, Ended, Finalize;
    CommitOnceIsMild(s, FAILURE_REPORT);
    var a := CommitOnce(s, FAILURE_REPORT);
    FinalizeEnds(a, a.d.revision, FAILED, a.d.phase);
    assert Last(FAILED) == [RunFailed];
    EndsAfterMild(s.d, a.d, FailRun(s).d, FAILED);
  }

  lemma EndsAfterMild(a: Durable, b: Durable, c: Durable, outcome: Outcome)
    requires Mild(a, b) && MildOrEnded(b, c, outcome)
    ensures MildOrEnded(a, c, outcome)
  {
    if Mild(b, c) { MildTransitive(a, b, c); } else { MildThenEnded(a, b, c, outcome); }
    hide Mild, Ended;
  }

  lemma ResultEnds(s: Section, approval: bool)
    ensures MildOrEnded(s.d, PublishResult(s, approval).d, SUCCEEDED) && (approval ==> Mild(s.d, PublishResult(s, approval).d))
  {
    hide Packaged, Mild, Ended, Finalize, Has;
    SameEventsAreMild(s.d, s.d);
    PackagedIsMild(s);
    var p := Packaged(s);
    if approval {
      ApprovalIsMild(p);
      if Has(s.d, TASK_SPEC) && Has(s.d, SPLIT_MANIFEST) { MildTransitive(s.d, p.d, PublishResult(s, true).d); }
    } else {
      FinalizeEnds(p, p.d.revision, SUCCEEDED, PACKAGE);
    }
    if Has(s.d, TASK_SPEC) && Has(s.d, SPLIT_MANIFEST) { EndsAfterMild(s.d, p.d, PublishResult(s, approval).d, SUCCEEDED); }
  }

  lemma ApprovalIsMild(p: Section)
    ensures var f := Touch(p);
      Mild(p.d, Write(f, f.d.(phase := PACKAGE, status := WAITING_APPROVAL, revision := f.d.revision + 1,
                              events := f.d.events + [ApprovalRequested])).d)
  {
  }

  // ---------------------------------------------------------------- one step

  /** The outcome a step gives when it gives one. */
  function Gives(step: Step): Option<Outcome> {
    match step
    case Publish(_, approval, _) => if approval then None else Some(SUCCEEDED)
    case Decide(_) => Some(SUCCEEDED)
    case EngineError(_, _) => Some(FAILED)
    case DeadFinalize(_, _) => Some(FAILED)
    case Cancel(_) => Some(CANCELED)
    case _ => None
  }

  /** A step ends the run with the outcome it stands for, or leaves its end alone. */
  predicate Ends(d: Durable, d': Durable, given: Option<Outcome>) {
    Mild(d, d') || (given.Some? && Ended(d, d', given.value))
  }

  lemma JobIsMild(d: Durable, mid: Durable, job: Job, given: Option<Outcome>)
    requires Ends(d, mid, given)
    ensures Ends(d, mid.(job := job), given)
  {
    hide Closes;
  }

  lemma NextEnds(w: World, step: Step)
    ensures Ends(w.d, Next(w, step).d, Gives(step))
  {
    hide Mild, Ended, ExecuteProfile, PublishPlan, PublishTrain, PublishResult, FailRun, RequestDecision, Finalize, Control, CommitOnce, Closes;
    SameEventsAreMild(w.d, w.d);
    JobIsMild(w.d, w.d, CLOSED, Gives(step));
    match step {
      case Profile(fuel, questions, settled) =>
        ProfileIsMild(Lock(w, fuel), questions);
        JobIsMild(w.d, ExecuteProfile(Lock(w, fuel), questions).d, if questions then RESOLVE_TASK_STEP else TRAIN_STEP, None);
      case PlanCallback(fuel) => PlanIsMild(Lock(w, fuel));
      case TrainCallback(fuel, trials) => TrainIsMild(Lock(w, fuel), trials);
      case Publish(fuel, approval, settled) =>
        ResultEnds(Lock(w, fuel), approval);
        JobIsMild(w.d, PublishResult(Lock(w, fuel), approval).d, CLOSED, Gives(step));
      case PositiveClassNeeded(fuel, settled) =>
        RequestDecisionIsMild(Lock(w, fuel));
        JobIsMild(w.d, RequestDecision(Lock(w, fuel)).d, RESOLVE_TASK_STEP, None);
      case EngineError(fuel, settled) =>
        FailRunEnds(Lock(w, fuel));
        JobIsMild(w.d, FailRun(Lock(w, fuel)).d, CLOSED, Gives(step));
      case Cancel(fuel) => FinalizeEnds(Lock(w, fuel), w.d.revision, CANCELED, w.d.phase);
      case Decide(fuel) => FinalizeEnds(Lock(w, fuel), w.d.revision, SUCCEEDED, PACKAGE);
      case DeadReport(fuel) => CommitOnceIsMild(Lock(w, fuel), FAILURE_REPORT);
      case DeadFinalize(fuel, expected) => FinalizeEnds(Lock(w, fuel), expected, FAILED, w.d.phase);
      case Pause(fuel) => ControlIsMild(w, fuel, PAUSED);
      case Resume(fuel, open) => ControlIsMild(w, fuel, if open then WAITING_USER else RUNNING);
      case Pick(_) =>
      case Crash =>
      case JobDies =>
      case Resolve(_, _) => OtherIsMild(w, step);
      case Begin(_, _) => OtherIsMild(w, step);
      case Answer(_) => OtherIsMild(w, step);
    }
  }

  lemma OtherIsMild(w: World, step: Step)
    requires step.Resolve? || step.Begin? || step.Answer?
    ensures Mild(w.d, Next(w, step).d)
  {
    SameEventsAreMild(w.d, Next(w, step).d);
    hide Mild;
  }

  // ---------------------------------------------------------------- whole runs

  /** The log holds the announcement of the stored outcome, once, and no other; PACKAGE is announced just with success. */
  predicate Told(d: Durable) {
    && (forall i, j :: 0 <= i < j < |d.events| ==> !(IsEnd(d.events[i]) && IsEnd(d.events[j])))
    && (forall e :: e in d.events && IsEnd(e) ==> d.result.Some? && e == EndOf(d.result.value))
    && (d.result.Some? ==> EndOf(d.result.value) in d.events)
    && (Completed(d, PACKAGE) <==> d.result == Some(SUCCEEDED))
  }

  lemma EndsKeepTold(d: Durable, d': Durable, given: Option<Outcome>)
    requires Told(d) && Ends(d, d', given)
    ensures Told(d')
  {
    if Mild(d, d') { MildKeepsTold(d, d'); } else { EndedIsTold(d, d', given.value); }
    hide Told, Mild, Ended;
  }

  lemma MildKeepsTold(d: Durable, d': Durable)
    requires Told(d) && Mild(d, d')
    ensures Told(d')
  {
    assert forall i :: 0 <= i < |d'.events| && Closes(d'.events[i]) ==> i < |d.events| && d'.events[i] == d.events[i];
  }

  lemma EndedIsTold(d: Durable, d': Durable, outcome: Outcome)
    requires Told(d) && Ended(d, d', outcome)
    ensures Told(d')
  {
    var n := |d'.events| - 1;
    assert d'.events[n] == EndOf(outcome);
    assert forall i :: 0 <= i < |d.events| ==> d'.events[i] == d.events[i] && d.events[i] in d.events;
    assert forall i :: 0 <= i < n ==> !IsEnd(d'.events[i]);
  }

  lemma {:induction false} AlwaysTold(steps: seq<Step>, k: nat)
    requires k <= |steps|
    ensures Told(After(steps, k).d)
  {
    hide Next, Told;
    if k == 0 {
      NothingToTell();
    } else {
      AlwaysTold(steps, k - 1);
      NextEnds(After(steps, k - 1), steps[k - 1]);
      EndsKeepTold(After(steps, k - 1).d, After(steps, k).d, Gives(steps[k - 1]));
    }
  }

  lemma NothingToTell()
    ensures Told(NEW_RUN.d)
  {
  }

  /** In every reachable state the stored outcome is the one announced in the log, and the other way round. */
  lemma OutcomeIsTold(steps: seq<Step>)
    ensures var d := After(steps, |steps|).d;
      && (d.result == Some(SUCCEEDED) <==> RunCompleted in d.events)
      && (d.result == Some(FAILED) <==> RunFailed in d.events)
      && (d.result == Some(CANCELED) <==> RunCanceled in d.events)
      && (d.result == Some(SUCCEEDED) <==> Completed(d, PACKAGE))
  {
    hide After;
    AlwaysTold(steps, |steps|);
  }

  /** A log announces an outcome once at most. */
  lemma OneEndPerLog(steps: seq<Step>, i: nat, j: nat)
    requires var events := After(steps, |steps|).d.events; i < |events| && j < |events| && IsEnd(events[i]) && IsEnd(events[j])
    ensures i == j
  {
    hide After, IsEnd;
    AlwaysTold(steps, |steps|);
  }

  /** Which step gave a run its outcome. */
  lemma {:induction false} OutcomeOrigin(steps: seq<Step>, k: nat) returns (i: nat)
    requires k <= |steps| && After(steps, k).d.result.Some?
    ensures i < k && After(steps, i).d.result.None? && After(steps, i + 1).d.result == After(steps, k).d.result == Gives(steps[i])
  {
    hide Next, Closes;
    NextEnds(After(steps, k - 1), steps[k - 1]);
    if After(steps, k - 1).d.result.None? { i := k - 1; } else { i := OutcomeOrigin(steps, k - 1); }
  }
}
