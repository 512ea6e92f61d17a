/**
  The run store: per-run append-only event logs with a secondary index, optimistic run
  revisions, write-once results, and the webhook outbox that is filled in the same mutation
  as the event it announces.
*/
module RunStore {
  import opened Wrappers

  /** Identifiers the store mints from its counters, and identifiers callers bring along. */
  datatype Kind = EVENT | RESULT | DELIVERY | OTHER(prefix: string)
  datatype Id = Minted(kind: Kind, n: nat) | Named(text: string)

  const ALL_KINDS := "*"

  datatype Event = Event(id: Id, run: Id, seqNo: nat, revision: nat, kind: string, occurredAt: int, body: string)
  datatype NewEvent = NewEvent(id: Option<Id>, run: Option<Id>, revision: Option<nat>, kind: string, occurredAt: int, body: string)

  /** What else a run records: values by name. A patch gives some of them and leaves the others. */
  type Fields = map<string, string>

  datatype Run = Run(revision: nat, snapshotSeq: nat, tenant: string, endpoints: set<Id>, fields: Fields)
  datatype Patch = Patch(run: Option<Id>, endpoints: Option<set<Id>>, fields: Fields)

  datatype Manifest = Manifest(run: Id, id: Id, body: string)
  datatype NewManifest = NewManifest(run: Option<Id>, id: Option<Id>, body: string)

  datatype EndpointStatus = ACTIVE | PAUSED_DELIVERY_FAILURES | DISABLED
  datatype Endpoint = Endpoint(tenant: string, status: EndpointStatus, kinds: set<string>)

  datatype DeliveryStatus = PENDING | DELIVERING | SUCCEEDED | RETRYING | EXHAUSTED
  datatype Delivery = Delivery(
    tenant: string, event: Id, kind: string, run: Id, status: DeliveryStatus, attempts: nat,
    nextAttemptAt: Option<int>, createdAt: int)

  datatype Core = Core(
    counters: map<Kind, nat>,
    runs: map<Id, Run>,
    events: map<Id, seq<Event>>,
    index: map<Id, map<Id, Event>>,
    results: map<Id, Manifest>,
    endpoints: map<Id, Endpoint>,
    deliveries: map<Id, map<Id, Delivery>>)

  datatype Error =
    | NotFound
    | AlreadyExists
    | RevisionConflict(expected: nat, current: nat)
    | BadValue

  const EMPTY := Core(map[], map[], map[], map[], map[], map[], map[])

  // ---------------------------------------------------------------- identifiers

  function Counter(s: Core, kind: Kind): nat {
    if kind in s.counters then s.counters[kind] else 0
  }

  function NextId(s: Core, kind: Kind): (Core, Id) {
    var n := Counter(s, kind) + 1;
    (s.(counters := s.counters[kind := n]), Minted(kind, n))
  }

  // ---------------------------------------------------------------- the log

  /** The secondary index: every event identifier with the last event that carries it. */
  function IndexOf(log: seq<Event>): map<Id, Event> {
    if log == [] then map[] else IndexOf(log[..|log| - 1])[log[|log| - 1].id := log[|log| - 1]]
  }

  /** A log numbers its events 1, 2, 3, ... */
  predicate LogOk(log: seq<Event>) {
    forall i :: 0 <= i < |log| ==> log[i].seqNo == i + 1
  }

  /** The same event submitted again: everything the caller gave equals what is stored. */
  predicate SameEvent(run: Id, v: NewEvent, stored: Event) {
    && stored.run == run && v.kind == stored.kind && v.occurredAt == stored.occurredAt && v.body == stored.body
    && (v.revision.None? || v.revision.value == stored.revision)
  }

  function Write(s: Core, run: Id, id: Id, v: NewEvent): (Core, Event)
    requires run in s.runs && run in s.events && run in s.index
  {
    var next := |s.events[run]| + 1;
    var event := Event(id, run, next, if v.revision.Some? then v.revision.value else s.runs[run].revision, v.kind, v.occurredAt, v.body);
    (s.(events := s.events[run := s.events[run] + [event]],
        index := s.index[run := s.index[run][id := event]],
        runs := s.runs[run := s.runs[run].(snapshotSeq := next)]),
     event)
  }

  /** The event that is now stored, and whether this call stored it. */
  function AppendLocked(s: Core, run: Id, v: NewEvent): (Core, Result<(Event, bool), Error>) {
    if run !in s.runs || run !in s.events || run !in s.index then (s, Err(NotFound))
    else if v.run.Some? && v.run.value != run then (s, Err(BadValue))
    else if v.id == Some(Named("")) then (s, Err(BadValue))
    else if v.id.Some? && v.id.value in s.index[run] then
      var stored := s.index[run][v.id.value];
      if SameEvent(run, v, stored) then (s, Ok((stored, false))) else (s, Err(AlreadyExists))
    else
      var (minted, id) := if v.id.Some? then (s, v.id.value) else NextId(s, EVENT);
      var (s', event) := Write(minted, run, id, v);
      (s', Ok((event, true)))
  }

  // ---------------------------------------------------------------- the outbox

  predicate Subscribed(s: Core, endpoint: Id, tenant: string, kind: string) {
    && endpoint in s.endpoints
    && s.endpoints[endpoint].tenant == tenant && s.endpoints[endpoint].status != DISABLED
    && (ALL_KINDS in s.endpoints[endpoint].kinds || kind in s.endpoints[endpoint].kinds)
  }

  function Box(s: Core, endpoint: Id): map<Id, Delivery> {
    if endpoint in s.deliveries then s.deliveries[endpoint] else map[]
  }

  predicate Queued(s: Core, endpoint: Id, event: Id) {
    exists d :: d in Box(s, endpoint) && Box(s, endpoint)[d].event == event
  }

  /** One endpoint's turn: a pending delivery if it is subscribed and has none for this event yet. */
  function Enqueue(s: Core, event: Event, endpoint: Id): Core
    requires event.run in s.runs
  {
    var tenant := s.runs[event.run].tenant;
    if !Subscribed(s, endpoint, tenant, event.kind) || Queued(s, endpoint, event.id) then s
    else
      var (minted, id) := NextId(s, DELIVERY);
      var delivery := Delivery(tenant, event.id, event.kind, event.run, PENDING, 0, Some(event.occurredAt), event.occurredAt);
      minted.(deliveries := minted.deliveries[endpoint := Box(s, endpoint)[id := delivery]])
  }

  /** All selected endpoints in turn; the set they come from has no order of its own, so any may be used. */
  function EnqueueAll(s: Core, event: Event, order: seq<Id>): (s': Core)
    requires event.run in s.runs
    ensures s' == s.(counters := s'.counters, deliveries := s'.deliveries)
  {
    if order == [] then s else Enqueue(EnqueueAll(s, event, order[..|order| - 1]), event, order[|order| - 1])
  }

  /** Enumerations of a run's selected endpoints. */
  ghost predicate Enumerates(order: seq<Id>, all: set<Id>) {
    (forall e :: e in order <==> e in all) && (forall i, j :: 0 <= i < j < |order| ==> order[i] != order[j])
  }

  /** The chosen order for each possible selection; every set iteration follows it. */
  type Order = set<Id> -> seq<Id>

  ghost predicate OrderOk(order: Order) {
    forall all :: Enumerates(order(all), all)
  }

  function Append(s: Core, run: Id, v: NewEvent, order: Order): (Core, Result<Event, Error>) {
    var (s', r) := AppendLocked(s, run, v);
    match r
    case Err(e) => (s', Err(e))
    case Ok((event, created)) =>
      if created && run in s'.runs then (EnqueueAll(s', event, order(s'.runs[run].endpoints)), Ok(event)) else (s', Ok(event))
  }

  // ---------------------------------------------------------------- runs

  function Patched(r: Run, p: Patch): Run {
    r.(endpoints := if p.endpoints.Some? then p.endpoints.value else r.endpoints,
       fields := r.fields + p.fields)
  }

  function RevisionCheck(s: Core, run: Id, expected: Option<nat>): Result<nat, Error> {
    if run !in s.runs then Err(NotFound)
    else if expected.Some? && expected.value != s.runs[run].revision then
      Err(RevisionConflict(expected.value, s.runs[run].revision))
    else Ok(s.runs[run].revision)
  }

  function CreateRun(s: Core, id: Id, tenant: string, endpoints: set<Id>, fields: Fields): (Core, Result<Run, Error>) {
    if id == Named("") then (s, Err(BadValue))
    else if id in s.runs then (s, Err(AlreadyExists))
    else
      var run := Run(1, 0, tenant, endpoints, fields);
      (s.(runs := s.runs[id := run], events := s.events[id := []], index := s.index[id := map[]]), Ok(run))
  }

  function UpdateRun(s: Core, run: Id, p: Patch, expected: Option<nat>, bump: bool): (Core, Result<Run, Error>) {
    match RevisionCheck(s, run, expected)
    case Err(e) => (s, Err(e))
    case Ok(revision) =>
      if p.run.Some? && p.run.value != run then (s, Err(BadValue))
      else
        var updated := Patched(s.runs[run], p).(revision := if bump then revision + 1 else revision);
        (s.(runs := s.runs[run := updated]), Ok(updated))
  }

  function Mutate(s: Core, run: Id, p: Patch, v: NewEvent, expected: Option<nat>, bump: bool, order: Order): (Core, Result<Event, Error>) {
    match RevisionCheck(s, run, expected)
    case Err(e) => (s, Err(e))
    case Ok(revision) =>
      var updated := Patched(s.runs[run], p).(revision := if bump then revision + 1 else revision);
      Append(s.(runs := s.runs[run := updated]), run, v.(revision := Some(updated.revision)), order)
  }

  // ---------------------------------------------------------------- results

  /** A fresh manifest identifier is drawn whether or not the caller brought one. */
  function StoreResult(s: Core, run: Id, m: NewManifest): (Core, Result<Manifest, Error>) {
    if run !in s.runs then (s, Err(NotFound))
    else if m.run.Some? && m.run.value != run then (s, Err(BadValue))
    else
      var (minted, spare) := NextId(s, RESULT);
      var manifest := Manifest(run, if m.id.Some? then m.id.value else spare, m.body);
      if run in s.results && s.results[run] != manifest then (minted, Err(AlreadyExists))
      else (minted.(results := s.results[run := manifest]), Ok(manifest))
  }

  /** Events in order; the first refused one stops the batch and keeps what went before. */
  function AppendBatch(s: Core, run: Id, events: seq<NewEvent>, revision: nat, order: Order): (Core, Result<seq<Event>, Error>)
    decreases |events|
  {
    if events == [] then (s, Ok([]))
    else
      var (before, done) := AppendBatch(s, run, events[..|events| - 1], revision, order);
      match done
      case Err(e) => (before, Err(e))
      case Ok(stored) =>
        var (after, last) := Append(before, run, events[|events| - 1].(revision := Some(revision)), order);
        match last
        case Err(e) => (after, Err(e))
        case Ok(event) => (after, Ok(stored + [event]))
  }

  function Finalize(s: Core, run: Id, m: NewManifest, p: Patch, events: seq<NewEvent>, expected: Option<nat>, order: Order)
    : (Core, Result<seq<Event>, Error>)
  {
    match RevisionCheck(s, run, expected)
    case Err(e) => (s, Err(e))
    case Ok(revision) =>
      var (kept, stored) := StoreResult(s, run, m);
      match stored
      case Err(e) => (kept, Err(e))
      case Ok(_) =>
        if p.run.Some? && p.run.value != run then (kept, Err(BadValue))
        else
          var updated := Patched(kept.runs[run], p).(revision := revision + 1);
          AppendBatch(kept.(runs := kept.runs[run := updated]), run, events, revision + 1, order)
  }

  // ---------------------------------------------------------------- endpoints and deliveries

  function CreateEndpoint(s: Core, id: Id, endpoint: Endpoint): (Core, Result<Endpoint, Error>) {
    if id == Named("") then (s, Err(BadValue))
    else if id in s.endpoints then (s, Err(AlreadyExists))
    else (s.(endpoints := s.endpoints[id := endpoint]), Ok(endpoint))
  }

  function UpdateEndpoint(s: Core, id: Id, status: EndpointStatus): (Core, Result<Endpoint, Error>) {
    if id !in s.endpoints then (s, Err(NotFound))
    else (s.(endpoints := s.endpoints[id := s.endpoints[id].(status := status)]), Ok(s.endpoints[id].(status := status)))
  }

  function UpdateDelivery(s: Core, endpoint: Id, id: Id, status: DeliveryStatus, attempts: nat, next: Option<int>): (Core, Result<Delivery, Error>) {
    if endpoint !in s.endpoints || id !in Box(s, endpoint) then (s, Err(NotFound))
    else
      var updated := Box(s, endpoint)[id].(status := status, attempts := attempts, nextAttemptAt := next);
      (s.(deliveries := s.deliveries[endpoint := Box(s, endpoint)[id := updated]]), Ok(updated))
  }

  // ---------------------------------------------------------------- one mutation

  datatype Op =
    | MintOp(kind: Kind)
    | CreateRunOp(run: Id, tenant: string, endpoints: set<Id>, fields: Fields)
    | UpdateRunOp(run: Id, patch: Patch, expected: Option<nat>, bump: bool)
    | AppendOp(run: Id, event: NewEvent)
    | MutateOp(run: Id, patch: Patch, event: NewEvent, expected: Option<nat>, bump: bool)
    | SetResultOp(run: Id, manifest: NewManifest)
    | FinalizeOp(run: Id, manifest: NewManifest, patch: Patch, events: seq<NewEvent>, expected: Option<nat>)
    | CreateEndpointOp(id: Id, endpoint: Endpoint)
    | UpdateEndpointOp(id: Id, status: EndpointStatus)
    | UpdateDeliveryOp(endpointId: Id, delivery: Id, deliveryStatus: DeliveryStatus, attempts: nat, next: Option<int>)

  function Verdict<T>(r: Result<T, Error>): Option<Error> {
    match r
    case Ok(_) => None
    case Err(e) => Some(e)
  }

  /** The state after a mutation, and the error it raised if it raised one. */
  function Apply(s: Core, op: Op, order: Order): (Core, Option<Error>) {
    match op
    case MintOp(kind) => (NextId(s, kind).0, None)
    case CreateRunOp(run, tenant, endpoints, fields) => var (s', r) := CreateRun(s, run, tenant, endpoints, fields); (s', Verdict(r))
    case UpdateRunOp(run, p, expected, bump) => var (s', r) := UpdateRun(s, run, p, expected, bump); (s', Verdict(r))
    case AppendOp(run, v) => var (s', r) := Append(s, run, v, order); (s', Verdict(r))
    case MutateOp(run, p, v, expected, bump) => var (s', r) := Mutate(s, run, p, v, expected, bump, order); (s', Verdict(r))
    case SetResultOp(run, m) => var (s', r) := StoreResult(s, run, m); (s', Verdict(r))
    case FinalizeOp(run, m, p, events, expected) => var (s', r) := Finalize(s, run, m, p, events, expected, order); (s', Verdict(r))
    case CreateEndpointOp(id, endpoint) => var (s', r) := CreateEndpoint(s, id, endpoint); (s', Verdict(r))
    case UpdateEndpointOp(id, status) => var (s', r) := UpdateEndpoint(s, id, status); (s', Verdict(r))
    case UpdateDeliveryOp(e, d, status, attempts, next) => var (s', r) := UpdateDelivery(s, e, d, status, attempts, next); (s', Verdict(r))
  }
}
