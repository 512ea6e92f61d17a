/** The workflow service as it runs: fields overwritten one durable write at a time, ended early by the first write that fails. */
module PublicationService {
  import opened Wrappers
  import opened Publication

  /** What a durable write returns: it succeeded, or it ended the attempt. */
  datatype Life = Alive | Died {
    predicate IsFailure() { Died? }
    function PropagateFailure(): Life { Died }
  }

  // ---------------------------------------------------------------- an ended attempt writes nothing

  lemma DeadWrites(s: Section, phase: Phase, kind: Kind, e: Event)
    requires !s.alive
    ensures Touch(s) == s && Emit(s, e) == s && Commit(s, kind) == s && CommitOnce(s, kind) == s
    ensures Complete(s, phase) == s && Transition(s, phase) == s
  {
  }

  lemma AllDeadWrites()
    ensures forall s: Section :: !s.alive ==> Touch(s) == s
    ensures forall s: Section, e :: !s.alive ==> Emit(s, e) == s
    ensures forall s: Section, kind :: !s.alive ==> Commit(s, kind) == s
    ensures forall s: Section, kind :: !s.alive ==> CommitOnce(s, kind) == s
    ensures forall s: Section, phase :: !s.alive ==> Complete(s, phase) == s
    ensures forall s: Section, phase :: !s.alive ==> Transition(s, phase) == s
    ensures forall s: Section :: !s.alive ==> RequestDecision(s) == s
    ensures forall s: Section, trials :: !s.alive ==> Trials(s, trials) == s
  {
    hide Touch, Emit, Commit, CommitOnce, Complete, Transition, RequestDecision, Trials;
    forall s: Section | !s.alive ensures Touch(s) == s { DeadWrites(s, PLAN, TASK_SPEC, RunFailed); }
    forall s: Section, e | !s.alive ensures Emit(s, e) == s { DeadWrites(s, PLAN, TASK_SPEC, e); }
    forall s: Section, kind | !s.alive ensures Commit(s, kind) == s { DeadWrites(s, PLAN, kind, RunFailed); }
    forall s: Section, kind | !s.alive ensures CommitOnce(s, kind) == s { DeadWrites(s, PLAN, kind, RunFailed); }
    forall s: Section, phase | !s.alive ensures Complete(s, phase) == s { DeadWrites(s, phase, TASK_SPEC, RunFailed); }
    forall s: Section, phase | !s.alive ensures Transition(s, phase) == s { DeadWrites(s, phase, TASK_SPEC, RunFailed); }
    forall s: Section | !s.alive ensures RequestDecision(s) == s { DeadDecision(s); }
    forall s: Section, trials | !s.alive ensures Trials(s, trials) == s { DeadTrials(s, trials); }
  }

  lemma {:induction false} DeadTrials(s: Section, trials: seq<int>)
    requires !s.alive
    ensures Trials(s, trials) == s
    decreases |trials|
  {
    if trials != [] { DeadTrials(s, trials[..|trials| - 1]); }
  }

  lemma {:induction false} TrialsStop(s: Section, trials: seq<int>, i: nat)
    requires i <= |trials| && !Trials(s, trials[..i]).alive
    ensures Trials(s, trials) == Trials(s, trials[..i])
    decreases |trials|
  {
    if i == |trials| {
      assert trials[..i] == trials;
    } else {
      var init := trials[..|trials| - 1];
      assert init[..i] == trials[..i];
      TrialsStop(s, init, i);
    }
  }

  class DurableWorkflowService {
    var outputs: seq<Kind>
    var events: seq<Event>
    var phase: Phase
    var status: Status
    var result: Option<Outcome>
    var revision: nat
    var job: Job
    var fuel: nat

    function State(): Durable
      reads this
    {
      Durable(outputs, events, phase, status, result, revision, job)
    }

    function Now(life: Life): Section
      reads this
    {
      Section(State(), fuel, life.Alive?)
    }

    constructor (fuel: nat)
      ensures State() == NEW_RUN.d && this.fuel == fuel
    {
      outputs, events, phase, status, result, revision, job := [], [], INGEST, QUEUED, None, 1, PROFILE_STEP;
      this.fuel := fuel;
    }

    /** Whether the next durable write goes through. */
    method Spend() returns (life: Life)
      modifies this`fuel
      ensures life.Alive? <==> old(fuel) > 0
      ensures fuel == if old(fuel) > 0 then old(fuel) - 1 else 0
    {
      if fuel == 0 { return Died; }
      fuel := fuel - 1;
      life := Alive;
    }

    method UpdateStatus(newPhase: Phase, newStatus: Status) returns (life: Life)
      modifies this`fuel, this`phase, this`status
      ensures Now(life) == Enter(old(Now(Alive)), newPhase, newStatus)
    {
      life := Spend();
      if life.Died? { return; }
      phase, status := newPhase, newStatus;
      life := Alive;
    }

    method UpdateRun() returns (life: Life)
      modifies this`fuel
      ensures Now(life) == Publication.Touch(old(Now(Alive)))
    {
      life := Spend();
      if life.Died? { return; }
      life := Alive;
    }

    method EmitEvent(e: Event) returns (life: Life)
      modifies this`fuel, this`events
      ensures Now(life) == Emit(old(Now(Alive)), e)
    {
      life := Spend();
      if life.Died? { return; }
      events := events + [e];
      life := UpdateRun();
    }

    method CommitOutput(kind: Kind) returns (life: Life)
      modifies this`fuel, this`outputs, this`events
      ensures Now(life) == Commit(old(Now(Alive)), kind)
    {
      life := Spend();
      if life.Died? { return; }
      outputs := outputs + [kind];
      :- EmitEvent(OutputCommitted(kind));
      life := UpdateRun();
    }

    /** Looks for the output first, and commits it only if it is not there. */
    method EnsureOutput(kind: Kind) returns (life: Life)
      modifies this`fuel, this`outputs, this`events
      ensures Now(life) == CommitOnce(old(Now(Alive)), kind)
    {
      if kind in outputs { return Alive; }
      life := CommitOutput(kind);
    }

    method CompleteStage(stage: Phase) returns (life: Life)
      modifies this`fuel, this`events
      ensures Now(life) == Complete(old(Now(Alive)), stage)
    {
      if StageCompleted(stage) in events { return Alive; }
      life := EmitEvent(StageCompleted(stage));
    }

    method TransitionRunningPhase(next: Phase) returns (life: Life)
      modifies this`fuel, this`events, this`phase, this`status
      ensures Now(life) == Transition(old(Now(Alive)), next)
    {
      if Rank(phase) < Rank(next) {
        var entered := UpdateStatus(next, RUNNING);
        if entered.Died? {
          return Died;
        }
      }
      if PhaseChanged(next, RUNNING) in events { return Alive; }
      life := EmitEvent(PhaseChanged(next, RUNNING));
    }

    method RequestUserDecision() returns (life: Life)
      modifies this`fuel, this`events, this`phase, this`status, this`revision
      ensures Now(life) == RequestDecision(old(Now(Alive)))
    {
      life := Spend();
      if life.Died? { return; }
      phase, status, revision := PLAN, WAITING_USER, revision + 1;
      :- UpdateRun();
      :- EmitEvent(PhaseChanged(PLAN, WAITING_USER));
      life := EmitEvent(DecisionRequested);
    }

    method FinalizeRunWithResult(expected: nat, outcome: Outcome, last: Phase, batch: seq<Event>) returns (life: Life)
      modifies this`fuel, this`events, this`phase, this`status, this`result, this`revision
      ensures Now(life) == Finalize(old(Now(Alive)), expected, outcome, last, batch)
    {
      if expected != revision || result.Some? { return Died; }
      :- Spend();
      result, status, phase, revision := Some(outcome), TERMINAL, last, revision + 1;
      events := events + batch;
      life := Alive;
    }

    /** The locked part of the profile step, for a run that is not terminal. */
    method RunProfile(questions: bool) returns (life: Life)
      modifies this
      ensures Now(life) == ExecuteProfile(old(Now(Alive)), questions)
    {
      hide Commit, Complete, RequestDecision;
      AllDeadWrites();
      :- UpdateStatus(PROFILE, RUNNING);
      :- CompleteStage(INGEST);
      :- EmitEvent(PhaseChanged(PROFILE, RUNNING));
      :- CommitOutput(DATA_QUALITY_REPORT);
      :- UpdateRun();
      :- CompleteStage(PROFILE);
      if questions {
        life := RequestUserDecision();
      } else {
        :- Spend();
        phase, status, revision := PLAN, QUEUED, revision + 1;
        life := Alive;
      }
    }

    method PublishPlanStage() returns (life: Life)
      modifies this
      ensures Now(life) == PublishPlan(old(Now(Alive)))
    {
      hide CommitOnce, Complete, Transition;
      AllDeadWrites();
      if status == TERMINAL { return Alive; }
      if StageCompleted(PLAN) !in events {
        :- EnsureOutput(TASK_SPEC);
        :- UpdateRun();
        :- EnsureOutput(SPLIT_MANIFEST);
        :- UpdateRun();
        :- CompleteStage(PLAN);
      }
      life := TransitionRunningPhase(TRAIN);
    }

    method PublishTrials(trials: seq<int>) returns (life: Life)
      modifies this`fuel, this`outputs, this`events
      ensures Now(life) == Trials(old(Now(Alive)), trials)
    {
      hide CommitOnce;
      ghost var start := Now(Alive);
      assert trials[..0] == [];
      for i := 0 to |trials|
        invariant Now(Alive) == Trials(start, trials[..i])
      {
        assert trials[..i + 1][..i] == trials[..i];
        var published := EnsureOutput(TRIAL_RESULT(trials[i]));
        if published.Died? {
          TrialsStop(start, trials, i + 1);
          return Died;
        }
      }
      assert trials[..|trials|] == trials;
      life := Alive;
    }

    method PublishTrainStage(trials: seq<int>) returns (life: Life)
      modifies this
      ensures Now(life) == PublishTrain(old(Now(Alive)), trials)
    {
      hide CommitOnce, Complete, Transition, Trials;
      AllDeadWrites();
      if status == TERMINAL { return Alive; }
      if StageCompleted(TRAIN) !in events {
        :- EnsureOutput(BASELINE_RESULT);
        :- PublishTrials(trials);
        :- CompleteStage(TRAIN);
      }
      life := TransitionRunningPhase(EVALUATE);
    }

    method PublishRunResult(approval: bool) returns (life: Life)
      modifies this
      ensures Now(life) == PublishResult(old(Now(Alive)), approval)
    {
      hide CommitOnce, Complete, Transition;
      AllDeadWrites();
      if TASK_SPEC !in outputs || SPLIT_MANIFEST !in outputs { return Died; }
      :- EnsureOutput(EVALUATION_REPORT);
      :- CompleteStage(EVALUATE);
      :- TransitionRunningPhase(PACKAGE);
      :- EnsureOutput(MODEL_CARD);
      :- EnsureOutput(RUN_REPORT);
      if approval {
        :- UpdateRun();
        :- Spend();
        phase, status, revision := PACKAGE, WAITING_APPROVAL, revision + 1;
        events := events + [ApprovalRequested];
        life := Alive;
      } else {
        life := FinalizeRunWithResult(revision, SUCCEEDED, PACKAGE, [StageCompleted(PACKAGE), RunCompleted]);
      }
    }

    method FailThisRun() returns (life: Life)
      modifies this
      ensures Now(life) == FailRun(old(Now(Alive)))
    {
      hide CommitOnce;
      :- EnsureOutput(FAILURE_REPORT);
      life := FinalizeRunWithResult(revision, FAILED, phase, [RunFailed]);
    }
  }

  lemma DeadDecision(s: Section)
    requires !s.alive
    ensures RequestDecision(s) == s
  {
  }
}
