/** What accepted changes to runs, results, endpoints and deliveries record, field by field. */
module RunStorePatches {
  import opened Wrappers
  import opened RunStore
  import opened RunStoreRuns
  import opened RunStoreResults
  import RunStoreRefusals

  predicate OthersStay<T(==)>(m: map<Id, T>, m': map<Id, T>, id: Id) {
    && (forall other :: other in m' && other != id ==> other in m)
    && (forall other :: other in m && other != id ==> other in m' && m'[other] == m[other])
  }

  /** Why a change that expects a revision is refused before anything else is looked at. */
  predicate Stale(s: Core, run: Id, expected: Option<nat>) {
    run !in s.runs || (expected.Some? && expected.value != s.runs[run].revision)
  }

  function StaleError(s: Core, run: Id, expected: Option<nat>): Error {
    if run in s.runs && expected.Some? then RevisionConflict(expected.value, s.runs[run].revision) else NotFound
  }

  /** A new run has revision 1, an empty log, and the tenant, endpoints and fields it was given. */
  lemma CreateRecords(s: Core, id: Id, tenant: string, endpoints: set<Id>, fields: Fields)
    ensures var (s', r) := CreateRun(s, id, tenant, endpoints, fields);
      && (r.Ok? <==> id != Named("") && id !in s.runs)
      && (r.Err? ==> s' == s && r.error == if id == Named("") then BadValue else AlreadyExists)
      && (r.Ok? ==>
            && OthersStay(s.runs, s'.runs, id) && id in s'.runs && s'.runs[id] == r.value
            && r.value.revision == 1 && r.value.snapshotSeq == 0 && r.value.tenant == tenant
            && r.value.endpoints == endpoints && r.value.fields == fields
            && OthersStay(s.events, s'.events, id) && id in s'.events && s'.events[id] == []
            && s'.results == s.results && s'.endpoints == s.endpoints && s'.deliveries == s.deliveries && s'.counters == s.counters)
  {
  }

  /** An update takes the patch, raises the revision if asked to, and changes nothing but this run. */
  lemma UpdateRecords(s: Core, run: Id, p: Patch, expected: Option<nat>, bump: bool)
    ensures var (s', r) := UpdateRun(s, run, p, expected, bump);
      && (r.Ok? <==> !Stale(s, run, expected) && (p.run.Some? ==> p.run.value == run))
      && (r.Err? ==> s' == s && r.error == if Stale(s, run, expected) then StaleError(s, run, expected) else BadValue)
      && (r.Ok? ==>
            && OthersStay(s.runs, s'.runs, run) && run in s'.runs && s'.runs[run] == r.value
            && TookPatch(s.runs[run], p, s'.runs[run])
            && s'.runs[run].revision == s.runs[run].revision + (if bump then 1 else 0)
            && s'.runs[run].snapshotSeq == s.runs[run].snapshotSeq
            && s' == s.(runs := s'.runs))
  {
  }

  /** A mutation with its event takes the patch, and its event is the last of the log, under the run's new revision. */
  lemma MutateRecords(s: Core, run: Id, p: Patch, v: NewEvent, expected: Option<nat>, bump: bool, order: Order)
    requires CoreOk(s) && OrderOk(order) && Mutate(s, run, p, v, expected, bump, order).1.Ok?
    ensures var (s', r) := Mutate(s, run, p, v, expected, bump, order);
      && !Stale(s, run, expected)
      && OthersStay(s.runs, s'.runs, run) && run in s'.runs && TookPatch(s.runs[run], p, s'.runs[run])
      && s'.runs[run].revision == s.runs[run].revision + (if bump then 1 else 0)
      && run in s'.events && s'.runs[run].snapshotSeq == |s'.events[run]|
      && s'.results == s.results && s'.endpoints == s.endpoints
      && r.value in s'.events[run] && r.value.revision == s'.runs[run].revision
      && r.value.run == run && r.value.kind == v.kind && r.value.body == v.body && r.value.occurredAt == v.occurredAt
  {
    hide CoreOk, OrderOk, Sound, Append, TookPatch, IndexOf;
    MutateIsSound(s, run, p, v, expected, bump, order);
    var revision := s.runs[run].revision + if bump then 1 else 0;
    var mid := PatchRun(s, run, p, revision);
    var e := v.(revision := Some(revision));
    AppendOnlyNumbers(mid, run, e, order);
    NumbersKeepPatch(s, run, p, revision, Append(mid, run, e, order).0);
    SoundCounts(s, Mutate(s, run, p, v, expected, bump, order).0, run);
    CoreHasIndex(s, run);
    assert mid.events == s.events && mid.index == s.index;
    AppendAnswers(mid, run, e, order);
  }

  lemma SoundCounts(s: Core, s': Core, run: Id)
    requires Sound(s, s') && run in s.runs
    ensures run in s'.runs && run in s'.events && s'.runs[run].snapshotSeq == |s'.events[run]|
  {
    assert RunOk(s', run);
  }

  /** The event an append answers with is in the log, and is the one submitted. */
  lemma AppendAnswers(s: Core, run: Id, v: NewEvent, order: Order)
    requires run in s.events && run in s.index && s.index[run] == IndexOf(s.events[run]) && v.revision.Some?
    requires Append(s, run, v, order).1.Ok?
    ensures var (s', r) := Append(s, run, v, order);
      && run in s'.events && r.value in s'.events[run] && r.value.revision == v.revision.value
      && r.value.run == run && r.value.kind == v.kind && r.value.body == v.body && r.value.occurredAt == v.occurredAt
  {
    hide EnqueueAll;
    if v.id.Some? && v.id.value in s.index[run] { IndexedIsLogged(s.events[run], v.id.value); }
    hide IndexOf;
  }

  /**
    An append either answers with the stored event that it repeats, changing nothing, or adds one event
    that says what was submitted, under the next number and the given revision or the run's own.
  */
  lemma AppendRecords(s: Core, run: Id, v: NewEvent, order: Order)
    requires CoreOk(s) && run in s.runs && Append(s, run, v, order).1.Ok?
    ensures var (s', r) := Append(s, run, v, order);
      && run in s.events && run in s.index
      && (if v.id.Some? && v.id.value in s.index[run] then s' == s && r.value in s.events[run] && SameSubmission(run, v, r.value)
          else
            && OthersStay(s.events, s'.events, run) && run in s'.events && s'.events[run] == s.events[run] + [r.value]
            && r.value.run == run && r.value.seqNo == |s.events[run]| + 1
            && r.value.kind == v.kind && r.value.body == v.body && r.value.occurredAt == v.occurredAt
            && r.value.revision == (if v.revision.Some? then v.revision.value else s.runs[run].revision)
            && (v.id.Some? ==> r.value.id == v.id.value)
            && (v.id.None? ==> r.value.id == Minted(EVENT, Counter(s, EVENT) + 1) && Counter(s', EVENT) == Counter(s, EVENT) + 1))
  {
    hide CoreOk, EnqueueAll, IndexOf;
    CoreHasIndex(s, run);
    if v.id.Some? && v.id.value in s.index[run] { IndexedIsLogged(s.events[run], v.id.value); } else { EnqueueKeepsDrawn(s, run, v, order); }
  }

  lemma EnqueueKeepsDrawn(s: Core, run: Id, v: NewEvent, order: Order)
    requires AppendLocked(s, run, v).1.Ok?
    ensures Counter(Append(s, run, v, order).0, EVENT) == Counter(AppendLocked(s, run, v).0, EVENT)
  {
    RunStoreRefusals.EnqueueKeepsIndex(s, run, v, order);
    hide AppendLocked, EnqueueAll;
  }

  lemma {:induction false} IndexedIsLogged(log: seq<Event>, id: Id)
    requires id in IndexOf(log)
    ensures IndexOf(log)[id] in log && IndexOf(log)[id].id == id
  {
    var n := |log| - 1;
    if log[n].id != id { IndexedIsLogged(log[..n], id); }
  }

  /** A successful finalize takes the terminal patch under the next revision, whatever identifiers its events carry. */
  lemma FinalizeRecords(s: Core, run: Id, m: NewManifest, p: Patch, events: seq<NewEvent>, expected: Option<nat>, order: Order)
    requires CoreOk(s) && OrderOk(order) && Finalize(s, run, m, p, events, expected, order).1.Ok?
    ensures var (s', r) := Finalize(s, run, m, p, events, expected, order);
      && !Stale(s, run, expected)
      && OthersStay(s.runs, s'.runs, run) && run in s'.runs && TookPatch(s.runs[run], p, s'.runs[run])
      && s'.runs[run].revision == s.runs[run].revision + 1
      && run in s'.events && s'.runs[run].snapshotSeq == |s'.events[run]|
      && OthersStay(s.results, s'.results, run) && run in s'.results && s'.results[run] == Proposed(s, run, m)
      && s'.endpoints == s.endpoints
  {
    hide CoreOk, OrderOk, Sound, AppendBatch, StoreResult, Proposed, TookPatch;
    FinalizeIsSound(s, run, m, p, events, expected, order);
    ResultRecords(s, run, m);
    var kept, revision := StoreResult(s, run, m).0, s.runs[run].revision + 1;
    BatchOnlyNumbers(PatchRun(kept, run, p, revision), run, events, revision, order);
    NumbersKeepPatch(kept, run, p, revision, AppendBatch(PatchRun(kept, run, p, revision), run, events, revision, order).0);
    SoundCounts(s, Finalize(s, run, m, p, events, expected, order).0, run);
  }

  /** Why an append is refused, in the order of its checks; a refusal changes nothing. */
  lemma AppendErrors(s: Core, run: Id, v: NewEvent, order: Order)
    requires CoreOk(s)
    ensures var (s', r) := Append(s, run, v, order);
      && (r.Err? ==> s' == s)
      && (r == Err(NotFound) <==> run !in s.runs)
      && (r == Err(BadValue) <==> run in s.runs && ((v.run.Some? && v.run.value != run) || v.id == Some(Named(""))))
      && (r == Err(AlreadyExists) <==>
            && run in s.runs && (v.run.Some? ==> v.run.value == run) && v.id != Some(Named(""))
            && v.id.Some? && run in s.index && v.id.value in s.index[run] && !SameSubmission(run, v, s.index[run][v.id.value]))
      && (r.Err? ==> r.error.NotFound? || r.error.BadValue? || r.error.AlreadyExists?)
  {
    hide CoreOk, EnqueueAll;
    if run in s.runs { CoreHasIndex(s, run); }
    CoreHasKeys(s, run);
  }

  lemma CoreHasKeys(s: Core, run: Id)
    requires CoreOk(s)
    ensures run in s.runs <==> run in s.events && run in s.index
  {
    hide BoxOk, RunOk, ResultsOk;
  }

  /** The event that is stored says what was submitted; a submission without a revision leaves it open. */
  predicate SameSubmission(run: Id, v: NewEvent, stored: Event) {
    && stored.run == run && stored.kind == v.kind && stored.occurredAt == v.occurredAt && stored.body == v.body
    && (v.revision.Some? ==> stored.revision == v.revision.value)
  }

  /** The endpoint is selected by the run, of its tenant, not disabled, and subscribed to this kind of event or to all. */
  predicate Wants(s: Core, run: Id, endpoint: Id, kind: string)
    requires run in s.runs
  {
    && endpoint in s.runs[run].endpoints && endpoint in s.endpoints
    && s.endpoints[endpoint].tenant == s.runs[run].tenant
    && (s.endpoints[endpoint].status == ACTIVE || s.endpoints[endpoint].status == PAUSED_DELIVERY_FAILURES)
    && (kind in s.endpoints[endpoint].kinds || "*" in s.endpoints[endpoint].kinds)
  }

  /** An append that adds an event owes it to exactly the endpoints that want it; nothing else is queued. */
  lemma OutboxRecords(s: Core, run: Id, v: NewEvent, order: Order, endpoint: Id, event: Id)
    requires CoreOk(s) && OrderOk(order) && run in s.runs
    requires Append(s, run, v, order).1.Ok? && !(v.id.Some? && run in s.index && v.id.value in s.index[run])
    ensures var (s', r) := Append(s, run, v, order);
      Queued(s', endpoint, event) <==> Queued(s, endpoint, event) || (event == r.value.id && Wants(s, run, endpoint, v.kind))
  {
    hide CoreOk, OrderOk, EnqueueAll, Queued, Subscribed, OutboxMatches, IndexOf;
    var (s', r) := Append(s, run, v, order);
    AppendIsSound(s, run, v, order);
    AppendRecords(s, run, v, order);
    AppendOnlyNumbers(s, run, v, order);
    SoundQueues(s, s', endpoint, event);
    SubscribedIs(s', endpoint, s.runs[run].tenant, v.kind);
    OnlyThisIsNew(s, s', run, r.value, endpoint, event);
  }

  lemma SubscribedIs(s: Core, endpoint: Id, tenant: string, kind: string)
    ensures Subscribed(s, endpoint, tenant, kind) <==>
      && endpoint in s.endpoints && s.endpoints[endpoint].tenant == tenant
      && (s.endpoints[endpoint].status == ACTIVE || s.endpoints[endpoint].status == PAUSED_DELIVERY_FAILURES)
      && (kind in s.endpoints[endpoint].kinds || "*" in s.endpoints[endpoint].kinds)
  {
  }

  lemma SoundQueues(s: Core, s': Core, endpoint: Id, event: Id)
    requires Sound(s, s')
    ensures Queued(s', endpoint, event) <==> Queued(s, endpoint, event) || NewlyOwed(s, s', endpoint, event)
  {
  }

  lemma OnlyThisIsNew(s: Core, s': Core, run: Id, added: Event, endpoint: Id, event: Id)
    requires run in s.runs && run in s.events && s'.events == s.events[run := s.events[run] + [added]]
    requires OnlyNumbers(s.runs, s'.runs, run)
    ensures NewlyOwed(s, s', endpoint, event) <==>
      event == added.id && endpoint in s.runs[run].endpoints && Subscribed(s', endpoint, s.runs[run].tenant, added.kind)
  {
    hide Subscribed;
    var n := |s.events[run]|;
    assert s'.events[run][n] == added;
    if event == added.id && endpoint in s.runs[run].endpoints && Subscribed(s', endpoint, s.runs[run].tenant, added.kind) {
      assert OwedIn(s', run, LogLength(s, run), endpoint, event);
    }
  }

  /** Identifiers of a kind are drawn from one, upwards; drawing one of a kind leaves the other kinds alone. */
  lemma IdRecords(s: Core, kind: Kind, other: Kind)
    ensures var (s', id) := NextId(s, kind);
      && id == Minted(kind, Counter(s, kind) + 1) && Counter(s', kind) == Counter(s, kind) + 1
      && (other != kind ==> Counter(s', other) == Counter(s, other))
      && s' == s.(counters := s'.counters)
    ensures NextId(EMPTY, kind).1 == Minted(kind, 1)
  {
  }

  lemma NumbersKeepPatch(kept: Core, run: Id, p: Patch, revision: nat, s': Core)
    requires run in kept.runs && OnlyNumbers(PatchRun(kept, run, p, revision).runs, s'.runs, run)
    ensures run in s'.runs && TookPatch(kept.runs[run], p, s'.runs[run]) && s'.runs[run].revision == revision
    ensures OthersStay(kept.runs, s'.runs, run)
  {
  }

  /** A result is stored for a known run that its manifest names, if there is none or the same; only identifiers are drawn besides. */
  lemma ResultRecords(s: Core, run: Id, m: NewManifest)
    ensures var (s', r) := StoreResult(s, run, m);
      && (r.Ok? <==> run in s.runs && (m.run.Some? ==> m.run.value == run) && (run in s.results ==> s.results[run] == Proposed(s, run, m)))
      && (r.Ok? ==> r.value == Proposed(s, run, m) && run in s'.results && s'.results[run] == r.value && OthersStay(s.results, s'.results, run))
      && (r.Err? ==> s'.results == s.results)
      && (r == Err(NotFound) <==> run !in s.runs)
      && (r == Err(BadValue) <==> run in s.runs && m.run.Some? && m.run.value != run)
      && (r.Err? ==> r.error.NotFound? || r.error.BadValue? || r.error.AlreadyExists?)
      && s' == s.(counters := s'.counters, results := s'.results)
  {
  }

  /** An endpoint is created once, as it was given. */
  lemma EndpointRecords(s: Core, id: Id, endpoint: Endpoint)
    ensures var (s', r) := CreateEndpoint(s, id, endpoint);
      && (r.Ok? <==> id != Named("") && id !in s.endpoints)
      && (r.Ok? ==> OthersStay(s.endpoints, s'.endpoints, id) && id in s'.endpoints && s'.endpoints[id] == endpoint == r.value)
      && (r.Err? ==> s' == s && r.error == if id == Named("") then BadValue else AlreadyExists)
      && s' == s.(endpoints := s'.endpoints)
  {
  }

  /** Later only its status changes. */
  lemma EndpointStatusRecords(s: Core, id: Id, status: EndpointStatus)
    ensures var (s', r) := UpdateEndpoint(s, id, status);
      && (r.Ok? <==> id in s.endpoints)
      && (r.Ok? ==> OthersStay(s.endpoints, s'.endpoints, id) && id in s'.endpoints && s'.endpoints[id] == r.value)
      && (r.Ok? ==> r.value.status == status && r.value.tenant == s.endpoints[id].tenant && r.value.kinds == s.endpoints[id].kinds)
      && (r.Err? ==> s' == s && r.error == NotFound)
      && s' == s.(endpoints := s'.endpoints)
  {
  }

  /** A delivery's status, attempts and next time are those given; what it announces, and to whom, stays. */
  lemma DeliveryRecords(s: Core, endpoint: Id, id: Id, status: DeliveryStatus, attempts: nat, next: Option<int>)
    ensures var (s', r) := UpdateDelivery(s, endpoint, id, status, attempts, next);
      && (r.Ok? <==> endpoint in s.endpoints && id in Box(s, endpoint))
      && (r.Ok? ==>
            && OthersStay(s.deliveries, s'.deliveries, endpoint) && OthersStay(Box(s, endpoint), Box(s', endpoint), id)
            && id in Box(s', endpoint) && Box(s', endpoint)[id] == r.value
            && r.value.status == status && r.value.attempts == attempts && r.value.nextAttemptAt == next
            && SameSubject(Box(s, endpoint)[id], r.value) && r.value.tenant == Box(s, endpoint)[id].tenant)
      && (r.Err? ==> s' == s && r.error == NotFound)
      && s' == s.(deliveries := s'.deliveries)
  {
  }
}
