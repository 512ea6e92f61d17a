/** Event identifiers over whole runs of mutations: when they tell events apart, and what follows for readers and the outbox. */
module RunStoreIdentity {
  import opened Wrappers
  import opened RunStore
  import opened RunStoreRuns
  import opened RunStoreResults
  import opened RunStoreRefusals
  import opened RunStoreTraces

  // ---------------------------------------------------------------- one append

  /** The identifier under which an event would be appended. */
  function Chosen(s: Core, v: NewEvent): Id {
    if v.id.Some? then v.id.value else NextId(s, EVENT).1
  }

  predicate Elsewhere(s: Core, run: Id, id: Id) {
    exists other :: other in s.index && other != run && id in s.index[other]
  }

  /** What callers owe the store: no identifier that the counter has yet to hand out, and none of another run. */
  predicate Fresh(s: Core, run: Id, v: NewEvent) {
    v.id.Some? ==> !Ahead(s, v.id.value) && !Elsewhere(s, run, v.id.value)
  }

  /** Across all runs an identifier is in one log at most, and none is ahead of the counter. */
  ghost predicate Tidy(s: Core) {
    && (forall run :: run in s.index ==> Drawn(s, run))
    && (forall run, id :: run in s.index && id in s.index[run] ==> !Elsewhere(s, run, id))
  }

  ghost predicate Neat(s: Core) {
    CoreOk(s) && Tidy(s) && forall run :: run in s.events ==> UniqueIds(s.events[run])
  }

  /** A store after an append: nothing new, or one event more under the identifier chosen. */
  ghost predicate Appended(s: Core, s': Core, run: Id, v: NewEvent, event: Event) {
    && run in s.events && run in s.index && event.id == Chosen(s, v)
    && s'.events == s.events[run := s.events[run] + [event]]
    && s'.index == s.index[run := s.index[run][event.id := event]]
    && Counter(s', EVENT) == Counter(s, EVENT) + (if v.id.Some? then 0 else 1)
    && (v.id.Some? ==> event.id !in s.index[run])
  }

  lemma AppendShape(s: Core, run: Id, v: NewEvent, order: Order)
    ensures var (s', r) := Append(s, run, v, order);
      || (s'.events == s.events && s'.index == s.index && Counter(s', EVENT) == Counter(s, EVENT))
      || (r.Ok? && Appended(s, s', run, v, r.value))
  {
    var (locked, q) := AppendLocked(s, run, v);
    if q.Ok? {
      EnqueueKeepsIndex(s, run, v, order);
      AppendLockedStaysInRun(s, run, v);
      if q.value.1 { LockedShape(s, run, v); } else { LockedRepeat(s, run, v); }
    } else {
      RefusedAppendKeeps(s, run, v, order);
    }
    hide AppendLocked, Appended, EnqueueAll;
  }

  lemma LockedRepeat(s: Core, run: Id, v: NewEvent)
    requires AppendLocked(s, run, v).1.Ok? && !AppendLocked(s, run, v).1.value.1
    ensures AppendLocked(s, run, v).0 == s
  {
  }

  lemma LockedShape(s: Core, run: Id, v: NewEvent)
    requires AppendLocked(s, run, v).1.Ok? && AppendLocked(s, run, v).1.value.1
    ensures var (s', r) := AppendLocked(s, run, v); forall t: Core ::
      t.events == s'.events && t.index == s'.index && Counter(t, EVENT) == Counter(s', EVENT) ==> Appended(s, t, run, v, r.value.0)
  {
  }

  lemma AppendedIsTidy(s: Core, s': Core, run: Id, v: NewEvent, event: Event)
    requires Tidy(s) && Fresh(s, run, v) && Appended(s, s', run, v, event)
    ensures Tidy(s')
  {
    forall r | r in s'.index ensures Drawn(s', r) {
      assert Drawn(s, r);
    }
    assert Drawn(s, run);
    assert forall id :: id in s.index[run] ==> !Elsewhere(s, run, id);
  }

  lemma AppendedIsUnique(s: Core, s': Core, run: Id, v: NewEvent, event: Event)
    requires CoreOk(s) && run in s.runs && Tidy(s) && Appended(s, s', run, v, event) && UniqueIds(s.events[run])
    ensures run in s'.events && UniqueIds(s'.events[run])
  {
    hide CoreOk, Elsewhere;
    CoreHasIndex(s, run);
    assert Drawn(s, run);
    assert event.id !in s.index[run] by { if v.id.None? { assert Ahead(s, event.id); } }
    IndexKeys(s.events[run], event.id);
    DistinctAfter(s.events[run], event);
  }

  /** What stays of a caller's freshness while events are appended to the same run. */
  ghost predicate SameElsewhere(s: Core, s': Core, run: Id) {
    && Counter(s, EVENT) <= Counter(s', EVENT) && s.index.Keys <= s'.index.Keys
    && forall other :: other in s'.index && other != run ==> other in s.index && s'.index[other] == s.index[other]
  }

  lemma StaysFresh(s: Core, s': Core, run: Id, v: NewEvent)
    requires SameElsewhere(s, s', run) && Fresh(s, run, v)
    ensures Fresh(s', run, v)
  {
  }

  lemma AppendKeepsNeat(s: Core, run: Id, v: NewEvent, order: Order)
    requires Neat(s) && OrderOk(order) && Fresh(s, run, v) && run in s.runs
    ensures Neat(Append(s, run, v, order).0) && SameElsewhere(s, Append(s, run, v, order).0, run)
  {
    hide CoreOk, Sound, OrderOk, Append, Elsewhere, Drawn, UniqueIds;
    var (s', r) := Append(s, run, v, order);
    AppendIsSound(s, run, v, order);
    SoundKeepsCoreOk(s, s');
    AppendShape(s, run, v, order);
    if s'.events == s.events && s'.index == s.index && Counter(s', EVENT) == Counter(s, EVENT) {
      SameIndexIsTidy(s, s');
    } else {
      AppendedIsTidy(s, s', run, v, r.value);
      AppendedIsUnique(s, s', run, v, r.value);
    }
  }

  lemma SameIndexIsTidy(s: Core, s': Core)
    requires Tidy(s) && s'.index == s.index && Counter(s, EVENT) <= Counter(s', EVENT)
    ensures Tidy(s')
  {
    forall run | run in s'.index ensures Drawn(s', run) { assert Drawn(s, run); }
    forall run, id | run in s'.index && id in s'.index[run] ensures !Elsewhere(s', run, id) { assert !Elsewhere(s, run, id); }
  }

  lemma QuietIsNeat(s: Core, s': Core, run: Id)
    requires Neat(s) && Quiet(s, s')
    ensures Neat(s') && SameElsewhere(s, s', run)
  {
    hide CoreOk, Sound, Tidy, ResultsOk, SameSubject;
    QuietIsSound(s, s');
    SoundKeepsCoreOk(s, s');
    SameIndexIsTidy(s, s');
  }

  // ---------------------------------------------------------------- one mutation

  predicate AllFresh(s: Core, run: Id, events: seq<NewEvent>) {
    forall i :: 0 <= i < |events| ==> Fresh(s, run, events[i])
  }

  lemma {:induction false} BatchKeepsNeat(s: Core, run: Id, events: seq<NewEvent>, revision: nat, order: Order)
    requires Neat(s) && OrderOk(order) && AllFresh(s, run, events) && run in s.runs
    ensures var s' := AppendBatch(s, run, events, revision, order).0;
      Neat(s') && SameElsewhere(s, s', run) && run in s'.runs
    decreases |events|
  {
    hide Neat, OrderOk, Append, Fresh, SameElsewhere;
    if events == [] {
      Unchanged(s, run);
    } else {
      var n := |events| - 1;
      BatchKeepsNeat(s, run, events[..n], revision, order);
      var (before, done) := AppendBatch(s, run, events[..n], revision, order);
      if done.Ok? {
        var last := events[n].(revision := Some(revision));
        RevisionIsNoMatter(s, run, events[n], revision);
        StaysFresh(s, before, run, last);
        AppendKeepsNeat(before, run, last, order);
        SameElsewhereTwice(s, before, Append(before, run, last, order).0, run);
        AppendKeepsRun(before, run, last, order);
      }
    }
  }

  lemma AppendKeepsRun(s: Core, run: Id, v: NewEvent, order: Order)
    requires Neat(s) && OrderOk(order) && run in s.runs
    ensures run in Append(s, run, v, order).0.runs
  {
    AppendIsSound(s, run, v, order);
    RunStays(s, Append(s, run, v, order).0, run);
    hide Append, CoreOk, Sound, OrderOk;
  }

  lemma RevisionIsNoMatter(s: Core, run: Id, v: NewEvent, revision: nat)
    ensures Fresh(s, run, v) <==> Fresh(s, run, v.(revision := Some(revision)))
  {
  }

  lemma Unchanged(s: Core, run: Id)
    ensures SameElsewhere(s, s, run)
  {
  }

  lemma SameElsewhereTwice(s: Core, mid: Core, s': Core, run: Id)
    requires SameElsewhere(s, mid, run) && SameElsewhere(mid, s', run)
    ensures SameElsewhere(s, s', run)
  {
  }

  /** The events a mutation brings, and the run they are for. */
  function Brings(op: Op): (Id, seq<NewEvent>) {
    match op
    case AppendOp(run, v) => (run, [v])
    case MutateOp(run, _, v, _, _) => (run, [v])
    case FinalizeOp(run, _, _, events, _) => (run, events)
    case _ => (Named(""), [])
  }

  predicate BringsFresh(s: Core, op: Op) {
    AllFresh(s, Brings(op).0, Brings(op).1)
  }

  lemma MutateKeepsNeat(s: Core, op: Op, order: Order)
    requires Neat(s) && OrderOk(order) && BringsFresh(s, op) && op.MutateOp?
    ensures Neat(Apply(s, op, order).0)
  {
    hide Neat, OrderOk, Append, Fresh, SameElsewhere, Quiet;
    var run, v := op.run, op.event;
    if RevisionCheck(s, run, op.expected).Ok? {
      var revision := if op.bump then s.runs[run].revision + 1 else s.runs[run].revision;
      PatchIsQuietHere(s, run, op.patch, revision);
      var mid := PatchRun(s, run, op.patch, revision);
      QuietIsNeat(s, mid, run);
      assert op.event == [v][0];
      assert Brings(op).1[0] == v;
      RevisionIsNoMatter(s, run, v, revision);
      StaysFresh(s, mid, run, v.(revision := Some(revision)));
      AppendKeepsNeat(mid, run, v.(revision := Some(revision)), order);
    }
  }

  lemma PatchIsQuietHere(s: Core, run: Id, p: Patch, revision: nat)
    requires Neat(s) && run in s.runs && s.runs[run].revision <= revision
    ensures Quiet(s, PatchRun(s, run, p, revision)) && run in PatchRun(s, run, p, revision).runs
  {
    CoreHasResultsOk(s);
    PatchIsQuiet(s, run, p, revision);
    hide CoreOk, Tidy, Quiet;
  }

  lemma FinalizeKeepsNeat(s: Core, op: Op, order: Order)
    requires Neat(s) && OrderOk(order) && BringsFresh(s, op) && op.FinalizeOp?
    ensures Neat(Apply(s, op, order).0)
  {
    hide Neat, OrderOk, AppendBatch, Fresh, SameElsewhere, Quiet, StoreResult, AllFresh;
    var run := op.run;
    if RevisionCheck(s, run, op.expected).Ok? {
      var kept := StoreResult(s, run, op.manifest).0;
      ResultIsQuietHere(s, run, op.manifest);
      QuietIsNeat(s, kept, run);
      StoreResultKeepsRuns(s, run, op.manifest);
      var revision := s.runs[run].revision + 1;
      PatchIsQuietHere(kept, run, op.patch, revision);
      var mid := PatchRun(kept, run, op.patch, revision);
      QuietIsNeat(kept, mid, run);
      SameElsewhereTwice(s, kept, mid, run);
      AllStayFresh(s, mid, run, op.events);
      BatchKeepsNeat(mid, run, op.events, revision, order);
    }
  }

  lemma AllStayFresh(s: Core, s': Core, run: Id, events: seq<NewEvent>)
    requires SameElsewhere(s, s', run) && AllFresh(s, run, events)
    ensures AllFresh(s', run, events)
  {
    forall i | 0 <= i < |events| ensures Fresh(s', run, events[i]) { StaysFresh(s, s', run, events[i]); }
  }

  lemma ResultIsQuietHere(s: Core, run: Id, m: NewManifest)
    requires Neat(s)
    ensures Quiet(s, StoreResult(s, run, m).0)
  {
    CoreHasResultsOk(s);
    StoreResultIsQuiet(s, run, m);
    hide CoreOk, Tidy, Quiet, StoreResult;
  }

  lemma NewRunIsNeat(s: Core, op: Op, order: Order)
    requires Neat(s) && OrderOk(order) && op.CreateRunOp?
    ensures Neat(Apply(s, op, order).0)
  {
    hide CoreOk, Sound, OrderOk, Elsewhere, LogsOk;
    var s' := CreateRun(s, op.run, op.tenant, op.endpoints, op.fields).0;
    assert s' == Apply(s, op, order).0;
    CoreHasLogsOk(s);
    CreateRunIsSound(s, op.run, op.tenant, op.endpoints, op.fields);
    SoundKeepsCoreOk(s, s');
    assert UniqueIds([]);
    forall run | run in s'.index ensures Drawn(s', run) { if run in s.index { assert Drawn(s, run); } }
    forall run, id | run in s'.index && id in s'.index[run] ensures !Elsewhere(s', run, id) {
      NewRunIsNowhere(s, op, run, id);
    }
  }

  lemma CoreHasLogsOk(s: Core)
    requires CoreOk(s)
    ensures LogsOk(s)
  {
  }

  lemma NewRunIsNowhere(s: Core, op: Op, run: Id, id: Id)
    requires LogsOk(s) && op.CreateRunOp?
    requires var s' := CreateRun(s, op.run, op.tenant, op.endpoints, op.fields).0; run in s'.index && id in s'.index[run]
    ensures run in s.index && id in s.index[run]
    ensures Elsewhere(CreateRun(s, op.run, op.tenant, op.endpoints, op.fields).0, run, id) ==> Elsewhere(s, run, id)
  {
    hide RunOk;
  }

  lemma NeatHasCore(s: Core)
    requires Neat(s)
    ensures CoreOk(s)
  {
  }

  lemma ApplyKeepsNeat(s: Core, op: Op, order: Order)
    requires Neat(s) && OrderOk(order) && BringsFresh(s, op)
    ensures Neat(Apply(s, op, order).0)
  {
    hide Neat, OrderOk, BringsFresh, Quiet, CoreOk, Append;
    match op
    case CreateRunOp(_, _, _, _) => NewRunIsNeat(s, op, order);
    case AppendOp(run, v) => AppendOpKeepsNeat(s, run, v, order);
    case MutateOp(_, _, _, _, _) => MutateKeepsNeat(s, op, order);
    case FinalizeOp(_, _, _, _, _) => FinalizeKeepsNeat(s, op, order);
    case _ =>
      assert CoreOk(s) by { NeatHasCore(s); }
      OtherOpIsQuiet(s, op, order);
      QuietIsNeat(s, Apply(s, op, order).0, Named(""));
  }

  lemma AppendOpKeepsNeat(s: Core, run: Id, v: NewEvent, order: Order)
    requires Neat(s) && OrderOk(order) && BringsFresh(s, AppendOp(run, v))
    ensures Neat(Append(s, run, v, order).0)
  {
    hide Neat, OrderOk, Append, Fresh;
    assert Brings(AppendOp(run, v)).1[0] == v;
    if run in s.runs { AppendKeepsNeat(s, run, v, order); } else { UnknownRunIsRefused(s, run, v, order); }
  }

  lemma UnknownRunIsRefused(s: Core, run: Id, v: NewEvent, order: Order)
    requires run !in s.runs
    ensures Append(s, run, v, order).0 == s
  {
  }

  lemma NeatLeavesUndrawn(s: Core, op: Op)
    requires Neat(s) && BringsFresh(s, op) && op.FinalizeOp?
    ensures LeavesUndrawn(s, op)
  {
    hide CoreOk, Elsewhere;
    forall i | 0 <= i < |op.events| && op.events[i].id.Some? ensures !Ahead(s, op.events[i].id.value) {
      assert Fresh(s, op.run, op.events[i]);
    }
    if op.run in s.runs {
      CoreHasLogs(s, op.run);
      assert Drawn(s, op.run);
    }
  }

  // ---------------------------------------------------------------- whole runs

  /** Every caller brings fresh identifiers, or leaves them to the store. */
  ghost predicate AlwaysFresh(ops: seq<Op>, orders: Orders) {
    forall k: nat :: k < |ops| ==> BringsFresh(After(ops, k, orders), ops[k])
  }

  lemma FreshAt(ops: seq<Op>, k: nat, orders: Orders)
    requires k < |ops| && AlwaysFresh(ops, orders)
    ensures BringsFresh(After(ops, k, orders), ops[k])
  {
    hide BringsFresh, After;
  }

  /** Identifiers then tell all events of all runs apart. */
  lemma {:induction false} IdsStayDistinct(ops: seq<Op>, k: nat, orders: Orders)
    requires k <= |ops| && OrdersOk(orders) && AlwaysFresh(ops, orders)
    ensures Neat(After(ops, k, orders))
  {
    hide Apply, Neat, BringsFresh, OrderOk, AlwaysFresh;
    if k == 0 {
      NothingIsNeat();
    } else {
      IdsStayDistinct(ops, k - 1, orders);
      FreshAt(ops, k - 1, orders);
      ApplyKeepsNeat(After(ops, k - 1, orders), ops[k - 1], orders(k - 1));
    }
  }

  lemma NothingIsNeat()
    ensures Neat(EMPTY)
  {
  }

  predicate IsAt(s: Core, run: Id, i: nat, id: Id) {
    run in s.events && i < |s.events[run]| && s.events[run][i].id == id
  }

  /** An identifier names one position of one log. */
  lemma OneNameOneEvent(s: Core, run: Id, i: nat, other: Id, j: nat, id: Id)
    requires Neat(s) && IsAt(s, run, i, id) && IsAt(s, other, j, id)
    ensures run == other && i == j
  {
    NameIsIndexed(s, run, i, id);
    NameIsIndexed(s, other, j, id);
    assert !Elsewhere(s, run, id);
    hide CoreOk;
  }

  lemma NameIsIndexed(s: Core, run: Id, i: nat, id: Id)
    requires CoreOk(s) && IsAt(s, run, i, id)
    ensures run in s.index && id in s.index[run]
  {
    CoreHasIndex(s, run);
    IndexKeys(s.events[run], id);
    hide BoxOk, RunOk, ResultsOk;
  }

  // ---------------------------------------------------------------- the outbox, event by event

  /** The mutation that appended position `i` of the log did so while the endpoint was selected and subscribed. */
  ghost predicate OwedAt(ops: seq<Op>, k: nat, orders: Orders, endpoint: Id, run: Id, i: nat)
    requires k < |ops|
  {
    var before, after := After(ops, k, orders), After(ops, k + 1, orders);
    && LogLength(before, run) <= i < LogLength(after, run)
    && run in after.runs && endpoint in after.runs[run].endpoints
    && Subscribed(after, endpoint, after.runs[run].tenant, after.events[run][i].kind)
  }

  ghost predicate OwesAt(ops: seq<Op>, k: nat, orders: Orders, endpoint: Id, id: Id)
    requires k < |ops|
  {
    NewlyOwed(After(ops, k, orders), After(ops, k + 1, orders), endpoint, id)
  }

  /** With fresh identifiers an endpoint has a delivery for an event exactly if the append of that very event owed it one. */
  lemma OutboxPerPosition(ops: seq<Op>, orders: Orders, endpoint: Id, run: Id, i: nat, id: Id)
    requires OrdersOk(orders) && AlwaysFresh(ops, orders) && IsAt(After(ops, |ops|, orders), run, i, id)
    ensures Queued(After(ops, |ops|, orders), endpoint, id) <==> exists k: nat :: k < |ops| && OwedAt(ops, k, orders, endpoint, run, i)
  {
    hide After, OwedAt, OwesAt, Neat, OrderOk, AlwaysFresh, Queued, IsAt, Owed;
    QueuedIsOwed(ops, |ops|, orders, endpoint, id);
    IdsStayDistinct(ops, |ops|, orders);
    OwedAtSomeStep(ops, |ops|, orders, endpoint, id);
    forall k: nat | k < |ops|
      ensures OwesAt(ops, k, orders, endpoint, id) <==> OwedAt(ops, k, orders, endpoint, run, i) {
      OwedByThatAppend(ops, k, orders, endpoint, run, i, id);
    }
  }

  lemma {:induction false} OwedAtSomeStep(ops: seq<Op>, n: nat, orders: Orders, endpoint: Id, id: Id)
    requires n <= |ops|
    ensures Owed(ops, n, orders, endpoint, id) <==>
      exists k: nat :: k < n && OwesAt(ops, k, orders, endpoint, id)
  {
    hide After, NewlyOwed;
    if n > 0 {
      OwedAtSomeStep(ops, n - 1, orders, endpoint, id);
      assert OwesAt(ops, n - 1, orders, endpoint, id) <==>
        NewlyOwed(After(ops, n - 1, orders), After(ops, n, orders), endpoint, id);
    }
  }

  lemma OwedByThatAppend(ops: seq<Op>, k: nat, orders: Orders, endpoint: Id, run: Id, i: nat, id: Id)
    requires OrdersOk(orders) && k < |ops| && Neat(After(ops, |ops|, orders)) && IsAt(After(ops, |ops|, orders), run, i, id)
    ensures OwesAt(ops, k, orders, endpoint, id) <==> OwedAt(ops, k, orders, endpoint, run, i)
  {
    hide After, Neat, OrderOk, Subscribed;
    var before, after, last := After(ops, k, orders), After(ops, k + 1, orders), After(ops, |ops|, orders);
    StoreOnlyGrows(ops, k + 1, |ops|, orders);
    if NewlyOwed(before, after, endpoint, id) {
      var other :| OwedIn(after, other, LogLength(before, other), endpoint, id);
      var j :| LogLength(before, other) <= j < |after.events[other]| && after.events[other][j].id == id
        && Subscribed(after, endpoint, after.runs[other].tenant, after.events[other][j].kind);
      assert after.events[other] <= last.events[other];
      assert IsAt(last, other, j, id);
      OneNameOneEvent(last, run, i, other, j, id);
    }
    if OwedAt(ops, k, orders, endpoint, run, i) {
      assert after.events[run] <= last.events[run];
      assert after.events[run][i].id == id;
      assert OwedIn(after, run, LogLength(before, run), endpoint, id);
    }
  }
}
