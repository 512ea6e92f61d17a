/** Exactly when a mutation of the run store is refused half way, and what a refused one leaves behind. */
module RunStoreRefusals {
  import opened Wrappers
  import opened RunStore
  import opened RunStoreRuns
  import opened RunStoreResults

  // ---------------------------------------------------------------- which refusals leave something behind

  predicate Names(run: Id, given: Option<Id>) {
    given.Some? ==> given.value == run
  }

  /** What a caller can check beforehand: the call gets past the guards that stand before its first write. */
  predicate WritesFirst(s: Core, op: Op) {
    match op
    case SetResultOp(run, m) => run in s.runs && Names(run, m.run)
    case FinalizeOp(run, m, _, _, expected) => RevisionCheck(s, run, expected).Ok? && Names(run, m.run)
    case MutateOp(run, p, _, expected, bump) =>
      RevisionCheck(s, run, expected).Ok? && (bump || Patched(s.runs[run], p) != s.runs[run])
    case _ => false
  }

  /** A refused mutation has changed the store if and only if it got past those guards. */
  lemma RefusalLeavesExactly(s: Core, op: Op, order: Order)
    requires CoreOk(s) && OrderOk(order) && Apply(s, op, order).1.Some?
    ensures Apply(s, op, order).0 != s <==> WritesFirst(s, op)
  {
    match op
    case MutateOp(run, p, v, expected, bump) => RefusedMutate(s, run, p, v, expected, bump, order);
    case FinalizeOp(run, m, p, events, expected) =>
      if RevisionCheck(s, run, expected).Ok? && Names(run, m.run) {
        FinalizeDraws(s, run, m, p, events, expected, order);
      }
    case SetResultOp(run, m) =>
      if run in s.runs && Names(run, m.run) { StoreResultDraws(s, run, m); }
    case _ =>
    hide CoreOk, OrderOk, Append, AppendBatch, StoreResult, CreateRun;
  }

  lemma RefusedMutate(s: Core, run: Id, p: Patch, v: NewEvent, expected: Option<nat>, bump: bool, order: Order)
    requires Mutate(s, run, p, v, expected, bump, order).1.Err?
    ensures Mutate(s, run, p, v, expected, bump, order).0 != s <==>
      RevisionCheck(s, run, expected).Ok? && (bump || Patched(s.runs[run], p) != s.runs[run])
  {
    hide EnqueueAll;
    if RevisionCheck(s, run, expected).Ok? {
      var revision := s.runs[run].revision;
      var updated := Patched(s.runs[run], p).(revision := if bump then revision + 1 else revision);
      var mid := s.(runs := s.runs[run := updated]);
      RefusedAppendKeeps(mid, run, v.(revision := Some(updated.revision)), order);
      assert mid.runs[run] == updated;
      assert updated == s.runs[run] ==> mid.runs == s.runs;
    }
  }

  lemma RefusedAppendKeeps(s: Core, run: Id, v: NewEvent, order: Order)
    requires Append(s, run, v, order).1.Err?
    ensures Append(s, run, v, order).0 == s
  {
  }

  lemma StoreResultDraws(s: Core, run: Id, m: NewManifest)
    requires run in s.runs && Names(run, m.run)
    ensures Counter(StoreResult(s, run, m).0, RESULT) == Counter(s, RESULT) + 1
  {
  }

  lemma FinalizeDraws(s: Core, run: Id, m: NewManifest, p: Patch, events: seq<NewEvent>, expected: Option<nat>, order: Order)
    requires CoreOk(s) && OrderOk(order) && RevisionCheck(s, run, expected).Ok? && Names(run, m.run)
    ensures Counter(Finalize(s, run, m, p, events, expected, order).0, RESULT) > Counter(s, RESULT)
  {
    hide CoreOk, Sound, Quiet, AppendBatch, OrderOk, StoreResult;
    StoreResultDraws(s, run, m);
    var (kept, stored) := StoreResult(s, run, m);
    if stored.Ok? && Names(run, p.run) {
      var revision := s.runs[run].revision + 1;
      CoreHasResultsOk(s);
      StoreResultIsQuiet(s, run, m);
      QuietIsSound(s, kept);
      SoundKeepsCoreOk(s, kept);
      StoreResultKeepsRuns(s, run, m);
      PatchIsQuiet(kept, run, p, revision);
      var mid := PatchRun(kept, run, p, revision);
      QuietIsSound(kept, mid);
      SoundKeepsCoreOk(kept, mid);
      BatchIsSound(mid, run, events, revision, order);
      CountersGrow(mid, AppendBatch(mid, run, events, revision, order).0);
    }
  }

  lemma StoreResultKeepsRuns(s: Core, run: Id, m: NewManifest)
    ensures StoreResult(s, run, m).0.runs == s.runs && StoreResult(s, run, m).0.index == s.index
    ensures StoreResult(s, run, m).0.events == s.events
  {
    var minted := NextId(s, RESULT).0;
    assert minted.runs == s.runs && minted.index == s.index && minted.events == s.events;
    hide NextId;
  }

  lemma CountersGrow(s: Core, s': Core)
    requires Sound(s, s')
    ensures Counter(s, RESULT) <= Counter(s', RESULT)
  {
    hide CoreOk, OutboxMatches;
  }

  // ---------------------------------------------------------------- which batches are refused

  predicate SameContent(a: NewEvent, b: NewEvent) {
    a.kind == b.kind && a.occurredAt == b.occurredAt && a.body == b.body
  }

  /** Identifiers the counter has yet to hand out. */
  predicate Ahead(s: Core, id: Id) {
    id.Minted? && id.kind == EVENT && id.n > Counter(s, EVENT)
  }

  predicate NoneAhead(s: Core, events: seq<NewEvent>) {
    forall i :: 0 <= i < |events| && events[i].id.Some? ==> !Ahead(s, events[i].id.value)
  }

  /** No identifier in the log of this run is one the counter has yet to hand out. */
  ghost predicate Drawn(s: Core, run: Id) {
    run in s.index && forall id :: id in s.index[run] ==> !Ahead(s, id)
  }

  /**
    The event does not belong to the run, has an empty identifier, or one under which something else
    is stored already or comes earlier in the batch.
  */
  predicate Clashes(index: map<Id, Event>, run: Id, events: seq<NewEvent>, revision: nat, i: nat)
    requires i < |events|
  {
    var v := events[i];
    || !Names(run, v.run)
    || v.id == Some(Named(""))
    || (v.id.Some? && v.id.value in index && !SameEvent(run, v.(revision := Some(revision)), index[v.id.value]))
    || (v.id.Some? && v.id.value !in index && exists j :: 0 <= j < i && events[j].id == v.id && !SameContent(events[j], v))
  }

  predicate Clashless(index: map<Id, Event>, run: Id, events: seq<NewEvent>, revision: nat) {
    forall i :: 0 <= i < |events| ==> !Clashes(index, run, events, revision, i)
  }

  /** The refusals of a single append. */
  predicate Refuses(index: map<Id, Event>, run: Id, v: NewEvent) {
    || !Names(run, v.run)
    || v.id == Some(Named(""))
    || (v.id.Some? && v.id.value in index && !SameEvent(run, v, index[v.id.value]))
  }

  lemma AppendRefuses(s: Core, run: Id, v: NewEvent, order: Order)
    requires run in s.runs && run in s.events && run in s.index
    ensures Append(s, run, v, order).1.Err? <==> Refuses(s.index[run], run, v)
  {
  }

  /** Appending overwrites no entry of the index and adds the event's own at most. */
  ghost predicate Adds(s: Core, s': Core, run: Id, v: NewEvent) {
    && run in s.index && run in s'.index
    && Counter(s, EVENT) <= Counter(s', EVENT)
    && (forall id :: id in s.index[run] ==> id in s'.index[run] && s'.index[run][id] == s.index[run][id])
    && (forall id :: id in s'.index[run] && id !in s.index[run] ==>
          !Ahead(s', id) && (Some(id) == v.id || Ahead(s, id)))
    && (v.id.Some? ==> v.id.value in s'.index[run] && SameEvent(run, v, s'.index[run][v.id.value]))
  }

  lemma AppendLockedAdds(s: Core, run: Id, v: NewEvent)
    requires Drawn(s, run) && (v.id.Some? ==> !Ahead(s, v.id.value)) && AppendLocked(s, run, v).1.Ok?
    ensures Adds(s, AppendLocked(s, run, v).0, run, v)
  {
  }

  lemma AppendLockedStaysInRun(s: Core, run: Id, v: NewEvent)
    requires AppendLocked(s, run, v).1.Ok?
    ensures run in AppendLocked(s, run, v).0.runs
    ensures AppendLocked(s, run, v).1.value.1 ==> AppendLocked(s, run, v).1.value.0.run == run
  {
  }

  lemma EnqueueKeepsIndex(s: Core, run: Id, v: NewEvent, order: Order)
    requires AppendLocked(s, run, v).1.Ok?
    ensures var s', locked := Append(s, run, v, order).0, AppendLocked(s, run, v).0;
      s'.index == locked.index && Counter(s', EVENT) == Counter(locked, EVENT)
  {
    AppendLockedStaysInRun(s, run, v);
    hide AppendLocked;
    var (locked, q) := AppendLocked(s, run, v);
    if q.value.1 {
      EnqueueCounts(locked, q.value.0, order(locked.runs[run].endpoints));
    }
  }

  lemma {:induction false} EnqueueCounts(s: Core, event: Event, order: seq<Id>)
    requires event.run in s.runs
    ensures Counter(EnqueueAll(s, event, order), EVENT) == Counter(s, EVENT)
    decreases |order|
  {
    if order != [] { EnqueueCounts(s, event, order[..|order| - 1]); }
    hide Queued, Subscribed;
  }

  lemma AppendAdds(s: Core, run: Id, v: NewEvent, order: Order)
    requires Drawn(s, run) && (v.id.Some? ==> !Ahead(s, v.id.value)) && Append(s, run, v, order).1.Ok?
    ensures Adds(s, Append(s, run, v, order).0, run, v)
  {
    AppendLockedAdds(s, run, v);
    EnqueueKeepsIndex(s, run, v, order);
    hide AppendLocked, EnqueueAll, SameEvent;
  }

  /** What the index knows after a batch. */
  ghost predicate Indexed(s: Core, s': Core, run: Id, events: seq<NewEvent>, revision: nat) {
    && run in s.index && run in s'.index
    && Counter(s, EVENT) <= Counter(s', EVENT)
    && (forall id :: id in s.index[run] ==> id in s'.index[run] && s'.index[run][id] == s.index[run][id])
    && (forall id :: id in s'.index[run] && id !in s.index[run] ==> !Ahead(s', id) && (Brought(events, id) || Ahead(s, id)))
    && (forall j :: 0 <= j < |events| && events[j].id.Some? ==> HasOne(s', run, events[j], revision))
  }

  predicate Brought(events: seq<NewEvent>, id: Id) {
    exists j :: 0 <= j < |events| && events[j].id == Some(id)
  }

  predicate HasOne(s: Core, run: Id, v: NewEvent, revision: nat)
    requires v.id.Some?
  {
    run in s.index && v.id.value in s.index[run] && SameEvent(run, v.(revision := Some(revision)), s.index[run][v.id.value])
  }

  lemma IndexedThenAdds(s: Core, before: Core, s': Core, run: Id, events: seq<NewEvent>, revision: nat)
    requires events != [] && Drawn(s, run)
    requires Indexed(s, before, run, events[..|events| - 1], revision)
    requires Adds(before, s', run, events[|events| - 1].(revision := Some(revision)))
    ensures Indexed(s, s', run, events, revision)
  {
    var n := |events| - 1;
    forall id | id in s'.index[run] && id !in s.index[run] ensures !Ahead(s', id) && (Brought(events, id) || Ahead(s, id)) {
      if id in before.index[run] {
        if Brought(events[..n], id) {
          var j :| 0 <= j < n && events[..n][j].id == Some(id);
          assert events[j].id == Some(id);
        }
      } else if Some(id) == events[n].id {
        assert Brought(events, id);
      }
    }
    forall j | 0 <= j < |events| && events[j].id.Some? ensures HasOne(s', run, events[j], revision) {
      if j < n { assert events[..n][j] == events[j]; assert HasOne(before, run, events[j], revision); }
    }
    hide SameEvent;
  }

  /** Whether the next event of a batch is refused is what Clashes says. */
  lemma RefusedIsClash(s: Core, before: Core, run: Id, events: seq<NewEvent>, revision: nat)
    requires events != [] && Drawn(s, run) && NoneAhead(s, events)
    requires Indexed(s, before, run, events[..|events| - 1], revision)
    ensures run in s.index && run in before.index
    ensures Refuses(before.index[run], run, events[|events| - 1].(revision := Some(revision)))
      <==> Clashes(s.index[run], run, events, revision, |events| - 1)
  {
    var n := |events| - 1;
    var v := events[n];
    if v.id.Some? && v.id.value !in s.index[run] {
      var id := v.id.value;
      assert !Ahead(s, id);
      forall j | 0 <= j < n && events[j].id == v.id
        ensures HasOne(before, run, events[j], revision) {
        assert events[..n][j] == events[j];
      }
      if id in before.index[run] {
        assert Brought(events[..n], id);
        var j :| 0 <= j < n && events[..n][j].id == Some(id);
        assert events[j].id == Some(id);
      }
    }
  }

  lemma {:induction false} BatchIndexes(s: Core, run: Id, events: seq<NewEvent>, revision: nat, order: Order)
    requires CoreOk(s) && OrderOk(order) && run in s.runs && Drawn(s, run) && NoneAhead(s, events)
    ensures var (s', r) := AppendBatch(s, run, events, revision, order);
      && (r.Ok? <==> Clashless(s.index[run], run, events, revision))
      && (r.Ok? ==> Indexed(s, s', run, events, revision))
    decreases |events|
  {
    hide CoreOk, OrderOk, Sound, Append, Clashes, Refuses, Indexed, Adds;
    if events == [] {
      NothingIndexed(s, run, revision);
    } else {
      var init, n := events[..|events| - 1], |events| - 1;
      BatchIndexes(s, run, init, revision, order);
      forall i | 0 <= i < n
        ensures Clashes(s.index[run], run, init, revision, i) <==> Clashes(s.index[run], run, events, revision, i) {
        PrefixClash(s.index[run], run, events, revision, i, n);
      }
      var (before, done) := AppendBatch(s, run, init, revision, order);
      if done.Ok? {
        BatchIsSound(s, run, init, revision, order);
        SoundKeepsCoreOk(s, before);
        RunStays(s, before, run);
        CoreHasLogs(before, run);
        RefusedIsClash(s, before, run, events, revision);
        var last := events[n].(revision := Some(revision));
        AppendRefuses(before, run, last, order);
        if Append(before, run, last, order).1.Ok? {
          IndexedStaysDrawn(s, before, run, init, revision);
          AppendAdds(before, run, last, order);
          IndexedThenAdds(s, before, Append(before, run, last, order).0, run, events, revision);
        }
      }
    }
  }

  lemma NothingIndexed(s: Core, run: Id, revision: nat)
    requires run in s.index
    ensures Indexed(s, s, run, [], revision)
  {
  }

  lemma IndexedStaysDrawn(s: Core, s': Core, run: Id, events: seq<NewEvent>, revision: nat)
    requires Drawn(s, run) && Indexed(s, s', run, events, revision)
    ensures Drawn(s', run) && forall id :: Ahead(s', id) ==> Ahead(s, id)
  {
  }

  lemma RunStays(s: Core, s': Core, run: Id)
    requires Sound(s, s') && run in s.runs
    ensures run in s'.runs
  {
  }

  // ---------------------------------------------------------------- a finalize that fails half way

  /** What finalize has stored by the time it comes to its events. */
  function Opened(s: Core, run: Id, m: NewManifest, p: Patch): Core
    requires run in s.runs
  {
    PatchRun(StoreResult(s, run, m).0, run, p, s.runs[run].revision + 1)
  }

  lemma FinalizeOpens(s: Core, run: Id, m: NewManifest, p: Patch, events: seq<NewEvent>, expected: Option<nat>, order: Order)
    requires MayFinalize(s, run, m, expected) && Names(run, p.run)
    ensures Finalize(s, run, m, p, events, expected, order)
         == AppendBatch(Opened(s, run, m, p), run, events, s.runs[run].revision + 1, order)
  {
    hide AppendBatch, StoreResult;
    StoreResultAccepts(s, run, m);
  }

  lemma OpenedIsOk(s: Core, run: Id, m: NewManifest, p: Patch)
    requires CoreOk(s) && MayFinalize(s, run, m, None)
    ensures CoreOk(Opened(s, run, m, p))
  {
    hide CoreOk, Sound, Quiet, StoreResult;
    CoreHasResultsOk(s);
    StoreResultIsQuiet(s, run, m);
    StoreResultKeepsRuns(s, run, m);
    var kept := StoreResult(s, run, m).0;
    QuietIsSound(s, kept);
    SoundKeepsCoreOk(s, kept);
    PatchIsQuiet(kept, run, p, s.runs[run].revision + 1);
    QuietIsSound(kept, Opened(s, run, m, p));
    SoundKeepsCoreOk(kept, Opened(s, run, m, p));
  }

  lemma OpenedKeepsLog(s: Core, run: Id, m: NewManifest, p: Patch)
    requires MayFinalize(s, run, m, None)
    ensures var mid := Opened(s, run, m, p);
      && mid.index == s.index && Counter(mid, EVENT) == Counter(s, EVENT)
      && run in mid.runs && mid.runs[run].revision == s.runs[run].revision + 1
      && run in mid.results && mid.results[run] == Proposed(s, run, m)
  {
  }

  /**
    Finalize raises exactly when an opening check fails, the patch names another run, or some event
    of the batch clashes.
  */
  lemma FinalizeRaisesExactly(s: Core, run: Id, m: NewManifest, p: Patch, events: seq<NewEvent>, expected: Option<nat>, order: Order)
    requires CoreOk(s) && OrderOk(order) && NoneAhead(s, events) && (run in s.runs ==> Drawn(s, run))
    ensures Finalize(s, run, m, p, events, expected, order).1.Ok? <==>
      && MayFinalize(s, run, m, expected)
      && Names(run, p.run)
      && run in s.index && Clashless(s.index[run], run, events, s.runs[run].revision + 1)
  {
    hide CoreOk, AppendBatch, StoreResult, OrderOk, Clashes;
    if !MayFinalize(s, run, m, expected) {
      RefusedFinalizeKeepsState(s, run, m, p, events, expected, order);
    } else if Names(run, p.run) {
      FinalizeOpens(s, run, m, p, events, expected, order);
      OpenedIsOk(s, run, m, p);
      OpenedKeepsLog(s, run, m, p);
      BatchIndexes(Opened(s, run, m, p), run, events, s.runs[run].revision + 1, order);
      CoreHasLogs(s, run);
    }
  }

  /**
    At the first event that clashes the call raises and undoes nothing: it leaves the store that a
    finalize with the events before it, which succeeds, would have left, with the result and the
    raised revision in place.
  */
  lemma FinalizeTears(s: Core, run: Id, m: NewManifest, p: Patch, events: seq<NewEvent>, expected: Option<nat>, order: Order, i: nat)
    requires CoreOk(s) && OrderOk(order) && NoneAhead(s, events) && MayFinalize(s, run, m, expected) && Names(run, p.run)
    requires Drawn(s, run) && i < |events|
    requires Clashes(s.index[run], run, events, s.runs[run].revision + 1, i)
    requires Clashless(s.index[run], run, events[..i], s.runs[run].revision + 1)
    ensures var (s', r) := Finalize(s, run, m, p, events, expected, order);
      && r.Err?
      && Finalize(s, run, m, p, events[..i], expected, order).1.Ok?
      && s' == Finalize(s, run, m, p, events[..i], expected, order).0
      && run in s'.results && s'.results[run] == Proposed(s, run, m)
      && run in s'.runs && s'.runs[run].revision == s.runs[run].revision + 1
  {
    hide CoreOk, AppendBatch, StoreResult, OrderOk, Clashes;
    var revision, mid := s.runs[run].revision + 1, Opened(s, run, m, p);
    FinalizeOpens(s, run, m, p, events, expected, order);
    FinalizeOpens(s, run, m, p, events[..i], expected, order);
    OpenedIsOk(s, run, m, p);
    OpenedKeepsLog(s, run, m, p);
    PrefixClash(s.index[run], run, events, revision, i, i + 1);
    BatchIndexes(mid, run, events[..i], revision, order);
    BatchIndexes(mid, run, events[..i + 1], revision, order);
    BatchStops(mid, run, events, revision, order, i);
    BatchIsSound(mid, run, events[..i], revision, order);
    BatchKeepsRevision(mid, run, events[..i], revision, order, run);
    ResultsStay(mid, AppendBatch(mid, run, events[..i], revision, order).0, run);
    RunStays(mid, AppendBatch(mid, run, events[..i], revision, order).0, run);
  }

  /** A patch that names another run is noticed after the result has been stored. */
  lemma MismatchTears(s: Core, run: Id, m: NewManifest, p: Patch, events: seq<NewEvent>, expected: Option<nat>, order: Order)
    requires MayFinalize(s, run, m, expected) && !Names(run, p.run)
    ensures var (s', r) := Finalize(s, run, m, p, events, expected, order);
      r == Err(BadValue) && s'.runs == s.runs && s'.events == s.events && s'.results == s.results[run := Proposed(s, run, m)]
  {
    StoreResultAccepts(s, run, m);
    hide StoreResult;
  }

  lemma PrefixClash(index: map<Id, Event>, run: Id, events: seq<NewEvent>, revision: nat, i: nat, k: nat)
    requires i < k <= |events|
    ensures Clashes(index, run, events[..k], revision, i) <==> Clashes(index, run, events, revision, i)
  {
    hide SameEvent, SameContent, Names;
    assert forall j :: 0 <= j <= i ==> events[..k][j] == events[j];
  }

  lemma ResultsStay(s: Core, s': Core, run: Id)
    requires Sound(s, s') && run in s.results
    ensures run in s'.results && s'.results[run] == s.results[run]
  {
  }

  lemma {:induction false} BatchStops(s: Core, run: Id, events: seq<NewEvent>, revision: nat, order: Order, i: nat)
    requires i < |events|
    requires AppendBatch(s, run, events[..i], revision, order).1.Ok?
    requires AppendBatch(s, run, events[..i + 1], revision, order).1.Err?
    ensures AppendBatch(s, run, events, revision, order).1.Err?
    ensures AppendBatch(s, run, events, revision, order).0 == AppendBatch(s, run, events[..i], revision, order).0
    decreases |events|
  {
    hide Append;
    if i == |events| - 1 {
      assert events[..i + 1] == events;
      RefusedAppendKeeps(AppendBatch(s, run, events[..i], revision, order).0, run, events[i].(revision := Some(revision)), order);
    } else {
      var init := events[..|events| - 1];
      assert init[..i] == events[..i] && init[..i + 1] == events[..i + 1];
      BatchStops(s, run, init, revision, order, i);
    }
  }

  // ---------------------------------------------------------------- what a caller can check beforehand

  /** A finalize whose caller, and everyone before it in this run, left undrawn identifiers alone. */
  ghost predicate LeavesUndrawn(s: Core, op: Op) {
    op.FinalizeOp? ==> NoneAhead(s, op.events) && (op.run in s.runs ==> Drawn(s, op.run))
  }

  /** What makes a mutation that gets past its first guards raise all the same. */
  predicate RefusedLate(s: Core, op: Op) {
    match op
    case SetResultOp(run, m) => run in s.results && s.results[run] != Proposed(s, run, m)
    case MutateOp(run, p, v, _, bump) =>
      && run in s.runs && run in s.index
      && Refuses(s.index[run], run, v.(revision := Some(if bump then s.runs[run].revision + 1 else s.runs[run].revision)))
    case FinalizeOp(run, m, p, events, expected) =>
      || !MayFinalize(s, run, m, expected)
      || !Names(run, p.run)
      || run !in s.index || !Clashless(s.index[run], run, events, s.runs[run].revision + 1)
    case _ => false
  }

  /** Whether a mutation that gets past its first guards raises can be told from the store and the call alone. */
  lemma RaisesLateExactly(s: Core, op: Op, order: Order)
    requires CoreOk(s) && OrderOk(order) && WritesFirst(s, op) && LeavesUndrawn(s, op)
    ensures Apply(s, op, order).1.Some? <==> RefusedLate(s, op)
  {
    hide CoreOk, OrderOk, Append, Finalize, Refuses, MayFinalize, Clashless, NoneAhead, Drawn;
    match op
    case MutateOp(run, p, v, _, bump) =>
      CoreHasLogs(s, run);
      var updated := Patched(s.runs[run], p).(revision := if bump then s.runs[run].revision + 1 else s.runs[run].revision);
      AppendRefuses(s.(runs := s.runs[run := updated]), run, v.(revision := Some(updated.revision)), order);
    case FinalizeOp(run, m, p, events, expected) =>
      FinalizeRaisesExactly(s, run, m, p, events, expected, order);
    case SetResultOp(_, _) =>
  }
}
