/** The store object: fields that methods overwrite in place, each tied to the mutation it performs. */
module RunStoreTable {
  import opened Wrappers
  import opened RunStore

  class InMemoryStore {
    var counters: map<Kind, nat>
    var runs: map<Id, Run>
    var events: map<Id, seq<Event>>
    var index: map<Id, map<Id, Event>>
    var results: map<Id, Manifest>
    var endpoints: map<Id, Endpoint>
    var deliveries: map<Id, map<Id, Delivery>>

    function State(): Core
      reads this
    {
      Core(counters, runs, events, index, results, endpoints, deliveries)
    }

    constructor ()
      ensures State() == EMPTY
    {
      counters, runs, events, index, results, endpoints, deliveries := map[], map[], map[], map[], map[], map[], map[];
    }

    method NewId(kind: Kind) returns (id: Id)
      modifies this`counters
      ensures (State(), id) == NextId(old(State()), kind)
    {
      var n := if kind in counters then counters[kind] + 1 else 1;
      counters := counters[kind := n];
      id := Minted(kind, n);
    }

    method CreateRun(id: Id, tenant: string, selected: set<Id>, fields: Fields) returns (r: Result<Run, Error>)
      modifies this
      ensures (State(), r) == RunStore.CreateRun(old(State()), id, tenant, selected, fields)
    {
      if id == Named("") { return Err(BadValue); }
      if id in runs { return Err(AlreadyExists); }
      var run := Run(1, 0, tenant, selected, fields);
      runs, events, index := runs[id := run], events[id := []], index[id := map[]];
      r := Ok(run);
    }

    method UpdateRun(run: Id, p: Patch, expected: Option<nat>, bump: bool) returns (r: Result<Run, Error>)
      modifies this`runs
      ensures (State(), r) == RunStore.UpdateRun(old(State()), run, p, expected, bump)
    {
      if run !in runs { return Err(NotFound); }
      var revision := runs[run].revision;
      if expected.Some? && expected.value != revision { return Err(RevisionConflict(expected.value, revision)); }
      if p.run.Some? && p.run.value != run { return Err(BadValue); }
      runs := runs[run := Patched(runs[run], p)];
      if bump {
        runs := runs[run := runs[run].(revision := revision + 1)];
      }
      assert runs == old(runs)[run := runs[run]];
      r := Ok(runs[run]);
    }

    /** Appends one event, or finds the stored event this one repeats. */
    method AppendEventLocked(run: Id, v: NewEvent) returns (r: Result<(Event, bool), Error>)
      modifies this`counters, this`runs, this`events, this`index
      ensures (State(), r) == AppendLocked(old(State()), run, v)
    {
      if run !in runs || run !in events || run !in index { return Err(NotFound); }
      if v.run.Some? && v.run.value != run { return Err(BadValue); }
      if v.id == Some(Named("")) { return Err(BadValue); }
      var id;
      if v.id.Some? {
        id := v.id.value;
        if id in index[run] {
          var stored := index[run][id];
          if !SameEvent(run, v, stored) { return Err(AlreadyExists); }
          return Ok((stored, false));
        }
      } else {
        id := NewId(EVENT);
      }
      var next := |events[run]| + 1;
      var revision := if v.revision.Some? then v.revision.value else runs[run].revision;
      var event := Event(id, run, next, revision, v.kind, v.occurredAt, v.body);
      events := events[run := events[run] + [event]];
      index := index[run := index[run][id := event]];
      runs := runs[run := runs[run].(snapshotSeq := next)];
      r := Ok((event, true));
    }

    /** Gives every selected endpoint its turn, in the order the set iteration follows. */
    method AppendWebhookDeliveriesLocked(event: Event, order: Order)
      requires event.run in runs
      modifies this`counters, this`deliveries
      ensures State() == EnqueueAll(old(State()), event, order(old(runs[event.run].endpoints)))
    {
      var selected := order(runs[event.run].endpoints);
      assert selected[..0] == [];
      for i := 0 to |selected|
        invariant State() == EnqueueAll(old(State()), event, selected[..i])
      {
        assert selected[..i + 1][..i] == selected[..i];
        var endpoint := selected[i];
        var tenant := runs[event.run].tenant;
        if endpoint !in endpoints { continue; }
        if endpoints[endpoint].tenant != tenant || endpoints[endpoint].status == DISABLED { continue; }
        if ALL_KINDS !in endpoints[endpoint].kinds && event.kind !in endpoints[endpoint].kinds { continue; }
        var box := if endpoint in deliveries then deliveries[endpoint] else map[];
        if exists d :: d in box && box[d].event == event.id { continue; }
        var id := NewId(DELIVERY);
        var delivery := Delivery(tenant, event.id, event.kind, event.run, PENDING, 0, Some(event.occurredAt), event.occurredAt);
        deliveries := deliveries[endpoint := box[id := delivery]];
      }
      assert selected[..|selected|] == selected;
    }

    method AppendEvent(run: Id, v: NewEvent, order: Order) returns (r: Result<Event, Error>)
      modifies this
      ensures (State(), r) == Append(old(State()), run, v, order)
    {
      var appended := AppendEventLocked(run, v);
      match appended
      case Err(e) => r := Err(e);
      case Ok((event, created)) =>
        if created && run in runs {
          AppendWebhookDeliveriesLocked(event, order);
        }
        r := Ok(event);
    }

    method MutateRunWithEvent(run: Id, p: Patch, v: NewEvent, expected: Option<nat>, bump: bool, order: Order)
      returns (r: Result<Event, Error>)
      modifies this
      ensures (State(), r) == Mutate(old(State()), run, p, v, expected, bump, order)
    {
      if run !in runs { return Err(NotFound); }
      var revision := runs[run].revision;
      if expected.Some? && expected.value != revision { return Err(RevisionConflict(expected.value, revision)); }
      runs := runs[run := Patched(runs[run], p).(revision := if bump then revision + 1 else revision)];
      r := AppendEvent(run, v.(revision := Some(runs[run].revision)), order);
    }

    method SetResult(run: Id, m: NewManifest) returns (r: Result<Manifest, Error>)
      modifies this`counters, this`results
      ensures (State(), r) == StoreResult(old(State()), run, m)
    {
      if run !in runs { return Err(NotFound); }
      if m.run.Some? && m.run.value != run { return Err(BadValue); }
      var spare := NewId(RESULT);
      var manifest := Manifest(run, if m.id.Some? then m.id.value else spare, m.body);
      if run in results && results[run] != manifest { return Err(AlreadyExists); }
      results := results[run := manifest];
      r := Ok(manifest);
    }

    /** Result, terminal run, events and outbox as one mutation. */
    method FinalizeRunWithResult(run: Id, m: NewManifest, p: Patch, batch: seq<NewEvent>, expected: Option<nat>, order: Order)
      returns (r: Result<seq<Event>, Error>)
      modifies this
      ensures (State(), r) == Finalize(old(State()), run, m, p, batch, expected, order)
    {
      if run !in runs { return Err(NotFound); }
      var revision := runs[run].revision;
      if expected.Some? && expected.value != revision { return Err(RevisionConflict(expected.value, revision)); }
      var stored := SetResult(run, m);
      if stored.Err? { return Err(stored.error); }
      if p.run.Some? && p.run.value != run { return Err(BadValue); }
      runs := runs[run := Patched(runs[run], p).(revision := revision + 1)];
      r := AppendEvents(run, batch, revision + 1, order);
    }

    method AppendEvents(run: Id, batch: seq<NewEvent>, revision: nat, order: Order) returns (r: Result<seq<Event>, Error>)
      modifies this
      ensures (State(), r) == AppendBatch(old(State()), run, batch, revision, order)
    {
      var stored: seq<Event> := [];
      assert batch[..0] == [];
      for i := 0 to |batch|
        invariant (State(), Ok(stored)) == AppendBatch(old(State()), run, batch[..i], revision, order)
      {
        assert batch[..i + 1][..i] == batch[..i];
        var appended := AppendEvent(run, batch[i].(revision := Some(revision)), order);
        if appended.Err? {
          BatchStopsAt(old(State()), run, batch, i, revision, order);
          return Err(appended.error);
        }
        stored := stored + [appended.value];
      }
      assert batch[..|batch|] == batch;
      r := Ok(stored);
    }
  }

  /** A refused event ends the batch: nothing after it is looked at. */
  lemma {:induction false} BatchStopsAt(s: Core, run: Id, batch: seq<NewEvent>, i: nat, revision: nat, order: Order)
    requires i < |batch| && AppendBatch(s, run, batch[..i + 1], revision, order).1.Err?
    ensures AppendBatch(s, run, batch, revision, order) == AppendBatch(s, run, batch[..i + 1], revision, order)
    decreases |batch|
  {
    if i + 1 == |batch| {
      assert batch[..i + 1] == batch;
    } else {
      var init := batch[..|batch| - 1];
      assert init[..i + 1] == batch[..i + 1];
      BatchStopsAt(s, run, init, i, revision, order);
    }
  }
}
