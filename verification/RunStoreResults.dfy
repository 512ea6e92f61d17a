/** Finalisation, write-once results and identifier uniqueness in the run store. */
module RunStoreResults {
  import opened Wrappers
  import opened RunStore
  import opened RunStoreRuns

  /** The manifest a call would store. */
  function Proposed(s: Core, run: Id, m: NewManifest): Manifest {
    Manifest(run, if m.id.Some? then m.id.value else NextId(s, RESULT).1, m.body)
  }

  /** A run after a patch: what the patch names has its values, and everything else is as it was. */
  predicate TookPatch(r: Run, p: Patch, r': Run) {
    && r'.tenant == r.tenant
    && (p.endpoints.Some? ==> r'.endpoints == p.endpoints.value) && (p.endpoints.None? ==> r'.endpoints == r.endpoints)
    && (forall name :: name in p.fields ==> name in r'.fields && r'.fields[name] == p.fields[name])
    && (forall name :: name in r.fields && name !in p.fields ==> name in r'.fields && r'.fields[name] == r.fields[name])
    && (forall name :: name in r'.fields ==> name in r.fields || name in p.fields)
  }

  /** Runs after events have been appended to one of them: only that one's last number may have moved. */
  predicate OnlyNumbers(runs: map<Id, Run>, runs': map<Id, Run>, run: Id) {
    && runs'.Keys == runs.Keys
    && (forall r :: r in runs && r != run ==> runs'[r] == runs[r])
    && (run in runs ==> runs'[run] == runs[run].(snapshotSeq := runs'[run].snapshotSeq))
  }

  lemma AppendOnlyNumbers(s: Core, run: Id, v: NewEvent, order: Order)
    ensures OnlyNumbers(s.runs, Append(s, run, v, order).0.runs, run)
    ensures Append(s, run, v, order).0.results == s.results && Append(s, run, v, order).0.endpoints == s.endpoints
  {
    hide AppendLocked, EnqueueAll;
    LockedOnlyNumbers(s, run, v);
  }

  lemma LockedOnlyNumbers(s: Core, run: Id, v: NewEvent)
    ensures var (s', q) := AppendLocked(s, run, v);
      && OnlyNumbers(s.runs, s'.runs, run) && s'.results == s.results && s'.endpoints == s.endpoints
      && (q.Ok? && q.value.1 ==> q.value.0.run in s'.runs)
  {
  }

  lemma {:induction false} BatchOnlyNumbers(s: Core, run: Id, events: seq<NewEvent>, revision: nat, order: Order)
    ensures OnlyNumbers(s.runs, AppendBatch(s, run, events, revision, order).0.runs, run)
    ensures AppendBatch(s, run, events, revision, order).0.results == s.results
    ensures AppendBatch(s, run, events, revision, order).0.endpoints == s.endpoints
    decreases |events|
  {
    hide Append;
    if events != [] {
      var init := events[..|events| - 1];
      BatchOnlyNumbers(s, run, init, revision, order);
      AppendOnlyNumbers(AppendBatch(s, run, init, revision, order).0, run, events[|events| - 1].(revision := Some(revision)), order);
    }
  }

  /** What finalize checks before it writes anything. */
  predicate MayFinalize(s: Core, run: Id, m: NewManifest, expected: Option<nat>) {
    && run in s.runs
    && (expected.Some? ==> expected.value == s.runs[run].revision)
    && (m.run.Some? ==> m.run.value == run)
    && (run in s.results ==> s.results[run] == Proposed(s, run, m))
  }

  /** A finalize refused for an unknown run, a stale revision or a differing result changes nothing but a drawn identifier. */
  lemma RefusedFinalizeKeepsState(s: Core, run: Id, m: NewManifest, p: Patch, events: seq<NewEvent>, expected: Option<nat>, order: Order)
    requires !MayFinalize(s, run, m, expected)
    ensures var (s', r) := Finalize(s, run, m, p, events, expected, order);
      && r.Err? && s' == s.(counters := s'.counters)
      && (run in s.runs && expected.Some? && expected.value != s.runs[run].revision ==>
            r == Err(RevisionConflict(expected.value, s.runs[run].revision)) && s' == s)
  {
  }

  /** An event that leaves its identifier to the store. */
  predicate Plain(run: Id, v: NewEvent) {
    v.id.None? && (v.run.Some? ==> v.run.value == run)
  }

  lemma PlainAppendSucceeds(s: Core, run: Id, v: NewEvent, order: Order)
    requires CoreOk(s) && run in s.runs && Plain(run, v)
    ensures var (s', r) := Append(s, run, v, order);
      && r.Ok? && run in s'.runs && run in s'.events
      && s'.events[run] == s.events[run] + [r.value]
      && r.value.kind == v.kind && r.value.body == v.body && r.value.run == run
  {
    AppendLockedLogs(s, run, v);
    hide CoreOk;
  }

  /** `stored` answers `events` one by one. */
  predicate Answers(events: seq<NewEvent>, stored: seq<Event>) {
    |stored| == |events| && forall i :: 0 <= i < |events| ==> stored[i].kind == events[i].kind && stored[i].body == events[i].body
  }

  lemma {:induction false} PlainBatchSucceeds(s: Core, run: Id, events: seq<NewEvent>, revision: nat, order: Order)
    requires CoreOk(s) && OrderOk(order) && run in s.runs
    requires forall i :: 0 <= i < |events| ==> Plain(run, events[i])
    ensures var (s', r) := AppendBatch(s, run, events, revision, order);
      && r.Ok? && run in s'.runs && run in s'.events
      && s'.events[run] == s.events[run] + r.value && Answers(events, r.value)
    decreases |events|
  {
    hide CoreOk, Sound, OrderOk, Append;
    if events == [] {
      CoreHasLogs(s, run);
      assert s.events[run] + [] == s.events[run];
    } else {
      var init := events[..|events| - 1];
      PlainBatchSucceeds(s, run, init, revision, order);
      BatchIsSound(s, run, init, revision, order);
      var (before, done) := AppendBatch(s, run, init, revision, order);
      SoundKeepsCoreOk(s, before);
      CoreHasLogs(s, run);
      var last := events[|events| - 1].(revision := Some(revision));
      PlainAppendSucceeds(before, run, last, order);
      var event := Append(before, run, last, order).1.value;
      assert s.events[run] + done.value + [event] == s.events[run] + (done.value + [event]);
    }
  }

  lemma CoreHasLogs(s: Core, run: Id)
    requires CoreOk(s) && run in s.runs
    ensures run in s.events && run in s.index
  {
  }

  /**
    Finalize is all or nothing when its events leave their identifiers to the store: either it is
    refused by its opening checks and nothing changes, or the result, the raised revision and the
    whole batch of events are there together.
  */
  lemma FinalizeIsAllOrNothing(s: Core, run: Id, m: NewManifest, p: Patch, events: seq<NewEvent>, expected: Option<nat>, order: Order)
    requires CoreOk(s) && OrderOk(order)
    requires forall i :: 0 <= i < |events| ==> Plain(run, events[i])
    requires p.run.Some? ==> p.run.value == run
    ensures var (s', r) := Finalize(s, run, m, p, events, expected, order);
      if MayFinalize(s, run, m, expected) then
        && r.Ok? && run in s'.results && s'.results[run] == Proposed(s, run, m)
        && run in s'.runs && s'.runs[run].revision == s.runs[run].revision + 1 && TookPatch(s.runs[run], p, s'.runs[run])
        && run in s.events && run in s'.events && s'.events[run] == s.events[run] + r.value && Answers(events, r.value)
      else r.Err? && s' == s.(counters := s'.counters)
  {
    hide CoreOk, AppendBatch, Quiet, OrderOk, StoreResult, TookPatch;
    if !MayFinalize(s, run, m, expected) {
      RefusedFinalizeKeepsState(s, run, m, p, events, expected, order);
    } else {
      CoreHasResultsOk(s);
      StoreResultIsQuiet(s, run, m);
      StoreResultAccepts(s, run, m);
      FinalizeWrites(s, StoreResult(s, run, m).0, run, p, events, s.runs[run].revision + 1, order);
      FinalizePatches(s, StoreResult(s, run, m).0, run, p, events, s.runs[run].revision + 1, order);
    }
  }

  lemma FinalizePatches(s: Core, kept: Core, run: Id, p: Patch, events: seq<NewEvent>, revision: nat, order: Order)
    requires run in s.runs && kept.runs == s.runs
    ensures var s' := AppendBatch(PatchRun(kept, run, p, revision), run, events, revision, order).0;
      run in s'.runs && TookPatch(s.runs[run], p, s'.runs[run])
  {
    BatchOnlyNumbers(PatchRun(kept, run, p, revision), run, events, revision, order);
    hide AppendBatch;
  }

  lemma StoreResultAccepts(s: Core, run: Id, m: NewManifest)
    requires MayFinalize(s, run, m, None)
    ensures var (s', r) := StoreResult(s, run, m);
      r.Ok? && s'.runs == s.runs && s'.events == s.events && s'.results == s.results[run := Proposed(s, run, m)]
  {
  }

  lemma FinalizeWrites(s: Core, kept: Core, run: Id, p: Patch, events: seq<NewEvent>, revision: nat, order: Order)
    requires CoreOk(s) && OrderOk(order) && Quiet(s, kept) && kept.runs == s.runs && kept.events == s.events
    requires run in s.runs && revision == s.runs[run].revision + 1 && run in kept.results
    requires forall i :: 0 <= i < |events| ==> Plain(run, events[i])
    ensures var (s', r) := AppendBatch(PatchRun(kept, run, p, revision), run, events, revision, order);
      && r.Ok? && run in s'.runs && s'.runs[run].revision == revision
      && run in s'.results && s'.results[run] == kept.results[run]
      && run in s.events && run in s'.events && s'.events[run] == s.events[run] + r.value && Answers(events, r.value)
  {
    hide CoreOk, Sound, Quiet, OrderOk, AppendBatch;
    QuietIsSound(s, kept);
    SoundKeepsCoreOk(s, kept);
    PatchIsQuiet(kept, run, p, revision);
    var mid := PatchRun(kept, run, p, revision);
    QuietIsSound(kept, mid);
    SoundKeepsCoreOk(kept, mid);
    PlainBatchSucceeds(mid, run, events, revision, order);
    BatchKeepsRevision(mid, run, events, revision, order, run);
    BatchIsSound(mid, run, events, revision, order);
    SoundExtends(mid, AppendBatch(mid, run, events, revision, order).0);
    CoreHasLogs(s, run);
  }

  lemma SoundExtends(s: Core, s': Core)
    requires Sound(s, s')
    ensures Extends(s, s')
  {
  }

  /** A store with one run whose log holds one event, named by its caller. */
  function OneEventStore(): Core {
    var stored := Event(Named("e"), Named("r"), 1, 1, "k", 0, "old");
    EMPTY.(runs := map[Named("r") := Run(1, 1, "t", {}, map[])],
           events := map[Named("r") := [stored]],
           index := map[Named("r") := map[Named("e") := stored]])
  }

  const CLASH := NewEvent(Some(Named("e")), None, None, "k", 0, "new")

  lemma ClashIsRefused(s: Core, order: Order)
    requires Named("r") in s.runs && s.events == OneEventStore().events && s.index == OneEventStore().index
    ensures AppendBatch(s, Named("r"), [CLASH], 2, order) == (s, Err(AlreadyExists))
  {
    assert [CLASH][..0] == [];
    assert "new"[0] != "old"[0];
    assert Append(s, Named("r"), CLASH.(revision := Some(2)), order) == (s, Err(AlreadyExists));
  }

  /**
    With an event that clashes with a stored one, finalize raises after it has written: the result
    and the raised revision stay although the call failed.
  */
  lemma FinalizeCanTear(order: Order)
    ensures LogsOk(OneEventStore())
    ensures var (s', r) := Finalize(OneEventStore(), Named("r"), NewManifest(None, None, "m"), Patch(None, None, map[]), [CLASH], None, order);
      r == Err(AlreadyExists) && Named("r") in s'.results && Named("r") in s'.runs && s'.runs[Named("r")].revision == 2
  {
    var s, m := OneEventStore(), NewManifest(None, None, "m");
    var stored := s.events[Named("r")][0];
    assert IndexOf([stored]) == map[Named("e") := stored] by { assert [stored][..0] == []; }
    assert RunOk(s, Named("r"));
    var kept := StoreResult(s, Named("r"), m).0;
    StoreResultAccepts(s, Named("r"), m);
    assert kept.index == s.index;
    ClashIsRefused(PatchRun(kept, Named("r"), Patch(None, None, map[]), 2), order);
    hide AppendBatch, StoreResult;
  }

  /** A second result without an identifier of its own is refused for ever, even when it says the same. */
  lemma RepeatWithoutIdIsRefused(s: Core, later: Core, run: Id, m: NewManifest)
    requires m.id.None? && StoreResult(s, run, m).1.Ok? && run !in s.results
    requires Extends(StoreResult(s, run, m).0, later)
    ensures StoreResult(later, run, m).1 == Err(AlreadyExists)
  {
    var first := StoreResult(s, run, m).0;
    assert Counter(first, RESULT) <= Counter(later, RESULT);
    assert later.results[run] == first.results[run];
  }

  /** A result that names its identifier may be stored again, and stays what it is. */
  lemma RepeatWithIdIsAccepted(s: Core, later: Core, run: Id, m: NewManifest)
    requires m.id.Some? && StoreResult(s, run, m).1.Ok?
    requires Extends(StoreResult(s, run, m).0, later)
    ensures StoreResult(later, run, m).1 == StoreResult(s, run, m).1
  {
    var first := StoreResult(s, run, m).0;
    assert later.results[run] == first.results[run];
  }

  // ---------------------------------------------------------------- identifiers in a log

  predicate UniqueIds(log: seq<Event>) {
    forall i, j :: 0 <= i < j < |log| ==> log[i].id != log[j].id
  }

  lemma {:induction false} IndexKeys(log: seq<Event>, id: Id)
    ensures id in IndexOf(log) <==> exists i :: 0 <= i < |log| && log[i].id == id
  {
    if log != [] {
      var n := |log| - 1;
      IndexKeys(log[..n], id);
      if id in IndexOf(log[..n]) {
        var i :| 0 <= i < n && log[..n][i].id == id;
        assert log[i].id == id;
      }
    }
  }

  /**
    Appending keeps the identifiers of a log distinct exactly when the caller brought the
    identifier or the next one from the counter is not in the log already.
  */
  lemma DistinctIdsExactly(s: Core, run: Id, v: NewEvent)
    requires CoreOk(s) && run in s.runs && UniqueIds(s.events[run])
    requires AppendLocked(s, run, v).1.Ok? && AppendLocked(s, run, v).1.value.1
    ensures UniqueIds(AppendLocked(s, run, v).0.events[run]) <==> v.id.Some? || NextId(s, EVENT).1 !in s.index[run]
  {
    hide CoreOk, AppendLocked;
    AppendedIdentifier(s, run, v);
    CoreHasIndex(s, run);
    var event, log := AppendLocked(s, run, v).1.value.0, s.events[run];
    IndexKeys(log, event.id);
    DistinctAfter(log, event);
  }

  lemma CoreHasIndex(s: Core, run: Id)
    requires CoreOk(s) && run in s.runs
    ensures run in s.events && run in s.index && s.index[run] == IndexOf(s.events[run])
  {
    hide BoxOk;
    assert RunOk(s, run);
  }

  lemma AppendedIdentifier(s: Core, run: Id, v: NewEvent)
    requires CoreOk(s) && run in s.runs && AppendLocked(s, run, v).1.Ok? && AppendLocked(s, run, v).1.value.1
    ensures var (s', r) := AppendLocked(s, run, v); var event := r.value.0;
      && run in s.events && run in s.index && run in s'.events && s'.events[run] == s.events[run] + [event]
      && (if v.id.Some? then event.id == v.id.value && event.id !in s.index[run] else event.id == NextId(s, EVENT).1)
  {
    hide BoxOk, RunOk, IndexOf;
  }

  lemma DistinctAfter(log: seq<Event>, event: Event)
    requires UniqueIds(log)
    ensures UniqueIds(log + [event]) <==> forall i :: 0 <= i < |log| ==> log[i].id != event.id
  {
    if i :| 0 <= i < |log| && log[i].id == event.id {
      assert (log + [event])[i].id == (log + [event])[|log|].id;
    }
  }
}
