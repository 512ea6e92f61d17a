/**
  The durable store: the in-memory store plus a checkpoint of its whole state, rewritten after
  every mutation, put back when that write fails, and read again after a restart.
*/
module Durability {
  import opened Wrappers
  import opened RunStore
  import opened RunStoreRuns
  import opened RunStoreResults
  import opened RunStoreRefusals
  import opened RunStoreTable
  import RunStoreTraces
  import RunStoreIdentity
  import Idempotency

  type Key = Idempotency.Identity
  type Records = Idempotency.Records

  datatype Memory = Memory(core: Core, records: Records)

  datatype Item = Item(key: Key, fingerprint: string, response: Option<Idempotency.Response>)

  /** What is written: everything but the index, with the reservations as a list. */
  datatype Snapshot = Snapshot(
    counters: map<Kind, nat>, runs: map<Id, Run>, events: map<Id, seq<Event>>, results: map<Id, Manifest>,
    endpoints: map<Id, Endpoint>, deliveries: map<Id, map<Id, Delivery>>, idempotency: seq<Item>)

  // ---------------------------------------------------------------- the two conversions

  ghost predicate Lists(keys: seq<Key>, all: set<Key>) {
    (forall k :: k in keys <==> k in all) && (forall i, j :: 0 <= i < j < |keys| ==> keys[i] != keys[j])
  }

  /** The order in which the reservations of each possible key set are written. */
  type Listing = set<Key> -> seq<Key>

  ghost predicate ListingOk(list: Listing) {
    forall all :: Lists(list(all), all)
  }

  function ItemsOf(records: Records, keys: seq<Key>): seq<Item>
    requires forall k :: k in keys ==> k in records
  {
    if keys == [] then []
    else
      var k := keys[|keys| - 1];
      ItemsOf(records, keys[..|keys| - 1]) + [Item(k, records[k].fingerprint, records[k].response)]
  }

  function RecordsOf(items: seq<Item>): Records {
    if items == [] then map[]
    else
      var last := items[|items| - 1];
      RecordsOf(items[..|items| - 1])[last.key := Idempotency.Record(last.fingerprint, last.response)]
  }

  function Reindex(events: map<Id, seq<Event>>): map<Id, map<Id, Event>> {
    map run | run in events :: IndexOf(events[run])
  }

  function Serialize(m: Memory, list: Listing): Snapshot
    requires ListingOk(list)
  {
    Snapshot(m.core.counters, m.core.runs, m.core.events, m.core.results, m.core.endpoints, m.core.deliveries,
             ItemsOf(m.records, list(m.records.Keys)))
  }

  function Restore(d: Snapshot): Memory {
    Memory(Core(d.counters, d.runs, d.events, Reindex(d.events), d.results, d.endpoints, d.deliveries), RecordsOf(d.idempotency))
  }

  lemma {:induction false} ItemsComeBack(records: Records, keys: seq<Key>)
    requires forall k :: k in keys ==> k in records
    ensures |ItemsOf(records, keys)| == |keys|
    ensures forall k :: k in RecordsOf(ItemsOf(records, keys)) <==> k in keys
    ensures forall k :: k in keys ==> RecordsOf(ItemsOf(records, keys))[k] == records[k]
  {
    if keys != [] {
      var init := keys[..|keys| - 1];
      ItemsComeBack(records, init);
      var items := ItemsOf(records, keys);
      assert items[..|items| - 1] == ItemsOf(records, init);
      assert keys == init + [keys[|keys| - 1]];
    }
  }

  /** Writing and reading back loses nothing but the index, and the index comes back exactly when it was the index of the logs. */
  lemma RoundTrip(m: Memory, list: Listing)
    requires ListingOk(list)
    ensures var back := Restore(Serialize(m, list));
      && back.records == m.records
      && back.core == m.core.(index := Reindex(m.core.events))
      && (back == m <==> m.core.index == Reindex(m.core.events))
  {
    var keys := list(m.records.Keys);
    assert Lists(keys, m.records.Keys);
    ItemsComeBack(m.records, keys);
    assert RecordsOf(ItemsOf(m.records, keys)) == m.records;
  }

  /** A consistent store survives the round trip whole. */
  lemma ConsistentRoundTrip(m: Memory, list: Listing)
    requires ListingOk(list) && CoreOk(m.core)
    ensures Restore(Serialize(m, list)) == m
  {
    RoundTrip(m, list);
    assert m.core.index == Reindex(m.core.events) by {
      forall run | run in m.core.events ensures run in m.core.index && m.core.index[run] == IndexOf(m.core.events[run]) {
        assert RunOk(m.core, run);
      }
    }
  }

  /** Two memories with the same checkpoint are the same but for their indexes. */
  lemma CheckpointDetermines(a: Memory, b: Memory, list: Listing)
    requires ListingOk(list) && Serialize(a, list) == Serialize(b, list)
    ensures a.records == b.records && a.core.(index := map[]) == b.core.(index := map[])
  {
    RoundTrip(a, list);
    RoundTrip(b, list);
  }

  // ---------------------------------------------------------------- one mutation

  datatype Mutation =
    | OnCore(op: Op)
    | BeginM(key: Key, fingerprint: string)
    | CompleteM(key: Key, fingerprint: string, response: Idempotency.Response)
    | AbortM(key: Key, fingerprint: string)

  /** The memory after the inner method, and whether it raised. */
  function Inner(m: Memory, u: Mutation, order: Order): (Memory, bool) {
    match u
    case OnCore(op) => var (core, error) := Apply(m.core, op, order); (m.(core := core), error.Some?)
    case BeginM(key, fingerprint) =>
      var (records, decision) := Idempotency.Begin(m.records, key, fingerprint); (m.(records := records), decision.INVALID?)
    case CompleteM(key, fingerprint, response) =>
      var (records, r) := Idempotency.Complete(m.records, key, fingerprint, response); (m.(records := records), r.Err?)
    case AbortM(key, fingerprint) =>
      var (records, r) := Idempotency.Abort(m.records, key, fingerprint); (m.(records := records), r.Err?)
  }

  datatype Store = Store(memory: Memory, disk: Snapshot)
  datatype Verdict = Returned | Raised | WriteFailed

  function Durable(s: Store, u: Mutation, order: Order, list: Listing, writeFails: bool): (Store, Verdict)
    requires ListingOk(list)
  {
    var (memory, raised) := Inner(s.memory, u, order);
    if raised then (Store(memory, s.disk), Raised)
    else if writeFails then (Store(Restore(Serialize(s.memory, list)), s.disk), WriteFailed)
    else (Store(memory, Serialize(memory, list)), Returned)
  }

  /** A mutation that returns leaves disk equal to memory; a failed write leaves both as they were. */
  lemma DurableOutcome(s: Store, u: Mutation, order: Order, list: Listing, writeFails: bool)
    requires ListingOk(list) && OrderOk(order) && CoreOk(s.memory.core)
    ensures var (s', verdict) := Durable(s, u, order, list, writeFails);
      && (verdict == Raised <==> Inner(s.memory, u, order).1)
      && (verdict == WriteFailed <==> !Inner(s.memory, u, order).1 && writeFails)
      && (verdict.Returned? ==> Restore(s'.disk) == s'.memory == Inner(s.memory, u, order).0)
      && (verdict.WriteFailed? ==> s' == s)
      && (verdict.Raised? ==> s'.disk == s.disk)
      && CoreOk(s'.memory.core)
  {
    InnerKeepsCoreOk(s.memory, u, order);
    hide CoreOk, Inner, Serialize, Restore;
    ConsistentRoundTrip(s.memory, list);
    ConsistentRoundTrip(Inner(s.memory, u, order).0, list);
  }

  /** Which calls raise: a store mutation with an error, and a call on the reservations that is refused or malformed. */
  lemma RaisesExactly(m: Memory, u: Mutation, order: Order)
    ensures Inner(m, u, order).1 <==>
      match u
      case OnCore(op) => Apply(m.core, op, order).1.Some?
      case BeginM(key, fingerprint) => !Idempotency.WellFormed(key, fingerprint)
      case CompleteM(key, fingerprint, response) => Idempotency.Complete(m.records, key, fingerprint, response).1.Err?
      case AbortM(key, fingerprint) => Idempotency.Abort(m.records, key, fingerprint).1.Err?
    ensures u.OnCore? ==> Inner(m, u, order).0.records == m.records
    ensures !u.OnCore? ==> Inner(m, u, order).0.core == m.core
  {
    hide Apply;
  }

  lemma InnerKeepsCoreOk(m: Memory, u: Mutation, order: Order)
    requires OrderOk(order) && CoreOk(m.core)
    ensures CoreOk(Inner(m, u, order).0.core)
  {
    if u.OnCore? {
      ApplyIsSound(m.core, u.op, order);
      SoundKeepsCoreOk(m.core, Apply(m.core, u.op, order).0);
    }
    hide CoreOk, Apply;
  }

  // ---------------------------------------------------------------- which refusals leave a trace

  /** A call that raises has changed the memory exactly if it got past the guards before its first write. */
  lemma RaiseLeavesExactly(m: Memory, u: Mutation, order: Order)
    requires CoreOk(m.core) && OrderOk(order) && Inner(m, u, order).1
    ensures Inner(m, u, order).0 != m <==> u.OnCore? && WritesFirst(m.core, u.op)
  {
    hide CoreOk, OrderOk, WritesFirst, Apply;
    if u.OnCore? { RefusalLeavesExactly(m.core, u.op, order); }
  }

  // ---------------------------------------------------------------- whole runs

  /** A call, with its write failing or not; a restart; a process that dies inside a call, before or after its commit. */
  datatype Step = Call(u: Mutation, writeFails: bool) | Restart | DieIn(u: Mutation, committed: bool)

  function Reopened(s: Store): Store {
    Store(Restore(s.disk), s.disk)
  }

  ghost function Next(s: Store, step: Step, order: Order, list: Listing): Store
    requires ListingOk(list)
  {
    match step
    case Call(u, writeFails) => Durable(s, u, order, list, writeFails).0
    case Restart => Reopened(s)
    case DieIn(u, committed) => Reopened(if committed then Durable(s, u, order, list, false).0 else s)
  }

  /**
    A process that dies inside a call comes up with the state after it if its write was committed, and
    with the one before it if not; a restart comes up with what is on disk.
  */
  lemma DeathKeepsCommits(s: Store, u: Mutation, order: Order, list: Listing)
    requires ListingOk(list) && OrderOk(order) && CoreOk(s.memory.core)
    ensures Next(s, DieIn(u, false), order, list) == Next(s, Restart, order, list) == Store(Restore(s.disk), s.disk)
    ensures !Inner(s.memory, u, order).1 ==> var s' := Next(s, DieIn(u, true), order, list);
      s'.memory == Inner(s.memory, u, order).0 && Restore(s'.disk) == s'.memory
    ensures Inner(s.memory, u, order).1 ==> Next(s, DieIn(u, true), order, list) == Store(Restore(s.disk), s.disk)
  {
    DurableOutcome(s, u, order, list, false);
    hide CoreOk, Inner, Serialize, Restore;
  }

  const BLANK := Memory(EMPTY, map[])

  /** Every step enumerates its sets and reservations in an order of its own; a restart may change it. */
  datatype Choices = Choices(orders: RunStoreTraces.Orders, lists: nat -> Listing)

  ghost predicate Fair(c: Choices) {
    (forall k :: OrderOk(c.orders(k))) && forall k :: ListingOk(c.lists(k))
  }

  ghost function After(steps: seq<Step>, k: nat, c: Choices): Store
    requires Fair(c) && k <= |steps|
  {
    if k == 0 then Store(BLANK, Serialize(BLANK, c.lists(0))) else Next(After(steps, k - 1, c), steps[k - 1], c.orders(k), c.lists(k))
  }

  ghost predicate Inv(s: Store) {
    CoreOk(s.memory.core) && CoreOk(Restore(s.disk).core)
  }

  lemma BlankIsOk()
    ensures CoreOk(BLANK.core)
  {
  }

  lemma NextKeepsInv(s: Store, step: Step, order: Order, list: Listing)
    requires ListingOk(list) && OrderOk(order) && Inv(s)
    ensures Inv(Next(s, step, order, list))
  {
    hide CoreOk, Durable, Restore, OrderOk, ListingOk;
    if step.Call? {
      DurableKeepsInv(s, step.u, order, list, step.writeFails);
    } else if step.DieIn? {
      DurableKeepsInv(s, step.u, order, list, false);
    }
  }

  lemma DurableKeepsInv(s: Store, u: Mutation, order: Order, list: Listing, writeFails: bool)
    requires ListingOk(list) && OrderOk(order) && Inv(s)
    ensures Inv(Durable(s, u, order, list, writeFails).0)
  {
    DurableOutcome(s, u, order, list, writeFails);
    hide CoreOk, Restore, OrderOk, ListingOk, Durable;
    var (s', verdict) := Durable(s, u, order, list, writeFails);
    if verdict.Returned? {
      assert Restore(s'.disk) == s'.memory;
    }
  }

  /** In every reachable state, what is in memory and what is on disk are both consistent. */
  lemma {:induction false} AlwaysConsistent(steps: seq<Step>, k: nat, c: Choices)
    requires Fair(c) && k <= |steps|
    ensures Inv(After(steps, k, c))
  {
    hide Inv, Next, Serialize;
    if k == 0 {
      BlankIsInv(c.lists(0));
    } else {
      AlwaysConsistent(steps, k - 1, c);
      NextKeepsInv(After(steps, k - 1, c), steps[k - 1], c.orders(k), c.lists(k));
    }
  }

  lemma BlankIsInv(list: Listing)
    requires ListingOk(list)
    ensures Inv(Store(BLANK, Serialize(BLANK, list))) && Restore(Serialize(BLANK, list)) == BLANK
  {
    BlankIsOk();
    ConsistentRoundTrip(BLANK, list);
    hide Serialize, Restore, CoreOk;
  }

  ghost predicate Commits(steps: seq<Step>, k: nat, c: Choices)
    requires Fair(c) && k < |steps|
  {
    match steps[k]
    case Call(u, writeFails) => Durable(After(steps, k, c), u, c.orders(k + 1), c.lists(k + 1), writeFails).1.Returned?
    case DieIn(u, committed) => committed && Durable(After(steps, k, c), u, c.orders(k + 1), c.lists(k + 1), false).1.Returned?
    case Restart => false
  }

  lemma CommitMeetsMemory(steps: seq<Step>, k: nat, c: Choices)
    requires Fair(c) && k < |steps| && Commits(steps, k, c)
    ensures var s := After(steps, k + 1, c); Restore(s.disk) == s.memory
  {
    var s := After(steps, k, c);
    AlwaysConsistent(steps, k, c);
    match steps[k]
    case Call(u, writeFails) => DurableOutcome(s, u, c.orders(k + 1), c.lists(k + 1), writeFails);
    case DieIn(u, committed) => DurableOutcome(s, u, c.orders(k + 1), c.lists(k + 1), false);
    case Restart =>
    hide CoreOk, Inner, Serialize, Restore;
  }

  lemma OnlyCommitsWrite(steps: seq<Step>, k: nat, c: Choices)
    requires Fair(c) && k < |steps| && !Commits(steps, k, c)
    ensures After(steps, k + 1, c).disk == After(steps, k, c).disk
  {
    hide Inner, Serialize, Restore;
  }

  lemma {:induction false} CommitStays(steps: seq<Step>, i: nat, k: nat, c: Choices)
    requires Fair(c) && i <= k <= |steps|
    requires forall j :: i <= j < k ==> !Commits(steps, j, c)
    ensures After(steps, k, c).disk == After(steps, i, c).disk
    decreases k - i
  {
    hide Commits, Next;
    if i < k {
      CommitStays(steps, i, k - 1, c);
      assert !Commits(steps, k - 1, c);
      OnlyCommitsWrite(steps, k - 1, c);
    }
  }

  /** A restart brings back exactly the state at the end of the last committed mutation, index included. */
  lemma RestartRecoversLastCommit(steps: seq<Step>, i: nat, k: nat, c: Choices)
    requires Fair(c) && i < k < |steps| && steps[k] == Restart
    requires Commits(steps, i, c) && forall j :: i < j < k ==> !Commits(steps, j, c)
    ensures After(steps, k + 1, c) == After(steps, i + 1, c)
  {
    CommitMeetsMemory(steps, i, c);
    CommitStays(steps, i + 1, k, c);
    hide Commits, Durable;
  }

  // ---------------------------------------------------------------- disk and memory

  /** The step is a call that raises after it has passed the guards before its first write. */
  predicate Tears(s: Store, step: Step, order: Order) {
    && step.Call? && step.u.OnCore? && WritesFirst(s.memory.core, step.u.op)
    && Inner(s.memory, step.u, order).1
  }

  ghost predicate Agree(s: Store) {
    Restore(s.disk) == s.memory
  }

  /** When disk and memory say the same, they do so after the next step unless it tears, and only then. */
  lemma TornExactly(s: Store, step: Step, order: Order, list: Listing)
    requires ListingOk(list) && OrderOk(order) && Inv(s) && Agree(s)
    ensures Agree(Next(s, step, order, list)) <==> !Tears(s, step, order)
  {
    hide CoreOk, Inner, Serialize, Restore, WritesFirst;
    if step.Call? {
      DurableOutcome(s, step.u, order, list, step.writeFails);
      if Inner(s.memory, step.u, order).1 { RaiseLeavesExactly(s.memory, step.u, order); }
    }
  }

  ghost predicate Tore(steps: seq<Step>, k: nat, c: Choices)
    requires Fair(c) && k < |steps|
  {
    Tears(After(steps, k, c), steps[k], c.orders(k + 1))
  }

  /** As long as no call tore, disk and memory say the same at all times. */
  lemma {:induction false} DiskFollowsMemory(steps: seq<Step>, k: nat, c: Choices)
    requires Fair(c) && k <= |steps|
    requires forall j :: 0 <= j < k ==> !Tore(steps, j, c)
    ensures Agree(After(steps, k, c))
  {
    hide Inv, Next, Serialize, Restore, Tears;
    if k == 0 {
      BlankIsInv(c.lists(0));
    } else {
      DiskFollowsMemory(steps, k - 1, c);
      AlwaysConsistent(steps, k - 1, c);
      assert !Tore(steps, k - 1, c);
      TornExactly(After(steps, k - 1, c), steps[k - 1], c.orders(k), c.lists(k));
    }
  }

  /** The first call that tears is where they part. */
  lemma DiskLeavesMemory(steps: seq<Step>, k: nat, c: Choices)
    requires Fair(c) && k < |steps| && Tore(steps, k, c)
    requires forall j :: 0 <= j < k ==> !Tore(steps, j, c)
    ensures !Agree(After(steps, k + 1, c))
  {
    hide Inv, Next, Serialize, Restore, Tears, Agree;
    DiskFollowsMemory(steps, k, c);
    AlwaysConsistent(steps, k, c);
    TornExactly(After(steps, k, c), steps[k], c.orders(k + 1), c.lists(k + 1));
  }

  // ---------------------------------------------------------------- the same, told beforehand

  /** The call gets past the guards before its first write and will be refused by a later one. */
  predicate WillTear(s: Store, step: Step) {
    step.Call? && step.u.OnCore? && WritesFirst(s.memory.core, step.u.op) && RefusedLate(s.memory.core, step.u.op)
  }

  ghost predicate Careful(s: Store, step: Step) {
    step.Call? && step.u.OnCore? ==> LeavesUndrawn(s.memory.core, step.u.op)
  }

  /** Whether disk and memory part in a step can be told from the store and the call before it is made. */
  lemma TornByGuards(s: Store, step: Step, order: Order, list: Listing)
    requires ListingOk(list) && OrderOk(order) && Inv(s) && Agree(s) && Careful(s, step)
    ensures Agree(Next(s, step, order, list)) <==> !WillTear(s, step)
  {
    hide CoreOk, Agree, Next, WritesFirst, RefusedLate, LeavesUndrawn, Apply;
    TornExactly(s, step, order, list);
    if step.Call? && step.u.OnCore? && WritesFirst(s.memory.core, step.u.op) {
      RaisesLateExactly(s.memory.core, step.u.op, order);
    }
  }

  /** Every call brings fresh identifiers, or leaves them to the store. */
  ghost predicate BringsFresh(s: Store, step: Step) {
    (step.Call? || step.DieIn?) && step.u.OnCore? ==> RunStoreIdentity.BringsFresh(s.memory.core, step.u.op)
  }

  ghost predicate AlwaysFresh(steps: seq<Step>, c: Choices)
    requires Fair(c)
  {
    forall k: nat :: k < |steps| ==> BringsFresh(After(steps, k, c), steps[k])
  }

  lemma FreshAt(steps: seq<Step>, k: nat, c: Choices)
    requires Fair(c) && AlwaysFresh(steps, c) && k < |steps|
    ensures BringsFresh(After(steps, k, c), steps[k])
  {
    hide BringsFresh, After;
  }

  ghost predicate NeatlyStored(s: Store) {
    RunStoreIdentity.Neat(s.memory.core) && RunStoreIdentity.Neat(Restore(s.disk).core)
  }

  lemma NextIsNeatlyStored(s: Store, step: Step, order: Order, list: Listing)
    requires ListingOk(list) && OrderOk(order) && Inv(s) && NeatlyStored(s) && BringsFresh(s, step)
    ensures NeatlyStored(Next(s, step, order, list))
  {
    hide Inv, Durable, Restore, Inner;
    if !step.Restart? {
      var u, fails := step.u, step.Call? && step.writeFails;
      InvHasCore(s);
      InnerIsNeat(s.memory, u, order);
      DurableOutcome(s, u, order, list, fails);
      DurableMemory(s, u, order, list, fails);
    }
  }

  lemma InvHasCore(s: Store)
    requires Inv(s)
    ensures CoreOk(s.memory.core)
  {
  }

  lemma InnerIsNeat(m: Memory, u: Mutation, order: Order)
    requires OrderOk(order) && RunStoreIdentity.Neat(m.core) && (u.OnCore? ==> RunStoreIdentity.BringsFresh(m.core, u.op))
    ensures RunStoreIdentity.Neat(Inner(m, u, order).0.core)
  {
    hide Apply, RunStoreIdentity.Neat, RunStoreIdentity.BringsFresh, OrderOk;
    if u.OnCore? { RunStoreIdentity.ApplyKeepsNeat(m.core, u.op, order); }
  }

  lemma DurableMemory(s: Store, u: Mutation, order: Order, list: Listing, writeFails: bool)
    requires ListingOk(list)
    ensures var (s', verdict) := Durable(s, u, order, list, writeFails);
      !verdict.WriteFailed? ==> s'.memory == Inner(s.memory, u, order).0
  {
    hide Inner, Serialize, Restore;
  }

  lemma {:induction false} AlwaysNeatlyStored(steps: seq<Step>, k: nat, c: Choices)
    requires Fair(c) && AlwaysFresh(steps, c) && k <= |steps|
    ensures NeatlyStored(After(steps, k, c))
  {
    hide Inv, Next, Serialize, Restore, NeatlyStored, BringsFresh, AlwaysFresh;
    if k == 0 {
      BlankIsNeatlyStored(c.lists(0));
    } else {
      AlwaysNeatlyStored(steps, k - 1, c);
      AlwaysConsistent(steps, k - 1, c);
      FreshAt(steps, k - 1, c);
      NextIsNeatlyStored(After(steps, k - 1, c), steps[k - 1], c.orders(k), c.lists(k));
    }
  }

  lemma BlankIsNeatlyStored(list: Listing)
    requires ListingOk(list)
    ensures NeatlyStored(Store(BLANK, Serialize(BLANK, list)))
  {
    hide Serialize, Restore, RunStoreIdentity.Neat;
    BlankIsInv(list);
    RunStoreIdentity.NothingIsNeat();
  }

  lemma FreshIsCareful(s: Store, step: Step)
    requires Inv(s) && NeatlyStored(s) && BringsFresh(s, step)
    ensures Careful(s, step)
  {
    hide Restore, WritesFirst;
    if step.Call? && step.u.OnCore? && step.u.op.FinalizeOp? {
      RunStoreIdentity.NeatLeavesUndrawn(s.memory.core, step.u.op);
    }
  }

  ghost predicate WillTearAt(steps: seq<Step>, k: nat, c: Choices)
    requires Fair(c) && k < |steps|
  {
    WillTear(After(steps, k, c), steps[k])
  }

  ghost predicate AgreeAt(steps: seq<Step>, k: nat, c: Choices)
    requires Fair(c) && k <= |steps|
  {
    Agree(After(steps, k, c))
  }

  /**
    With callers that bring fresh identifiers or none, disk and memory say the same at all times
    exactly as long as no call was made that its guards tell to be refused after its first write.
  */
  lemma {:induction false} GuardsDecide(steps: seq<Step>, k: nat, c: Choices)
    requires Fair(c) && AlwaysFresh(steps, c) && k <= |steps|
    ensures (forall j: nat :: j <= k ==> AgreeAt(steps, j, c)) <==> forall j: nat :: j < k ==> !WillTearAt(steps, j, c)
  {
    hide WillTearAt, AgreeAt, AlwaysFresh, Fair;
    if k == 0 {
      AgreeAtFirst(steps, c);
    } else {
      GuardsDecide(steps, k - 1, c);
      if AgreeAt(steps, k - 1, c) { GuardsDecideStep(steps, k - 1, c); }
    }
  }

  lemma AgreeAtFirst(steps: seq<Step>, c: Choices)
    requires Fair(c)
    ensures AgreeAt(steps, 0, c)
  {
    hide Agree;
    DiskFollowsMemory(steps, 0, c);
  }

  lemma GuardsDecideStep(steps: seq<Step>, k: nat, c: Choices)
    requires Fair(c) && AlwaysFresh(steps, c) && k < |steps| && AgreeAt(steps, k, c)
    ensures AgreeAt(steps, k + 1, c) <==> !WillTearAt(steps, k, c)
  {
    hide Inv, Next, Serialize, Restore, NeatlyStored, BringsFresh, WillTear, Agree, Careful, AlwaysFresh;
    AlwaysConsistent(steps, k, c);
    AlwaysNeatlyStored(steps, k, c);
    FreshAt(steps, k, c);
    FreshIsCareful(After(steps, k, c), steps[k]);
    TornByGuards(After(steps, k, c), steps[k], c.orders(k + 1), c.lists(k + 1));
  }

  const TEAR := OnCore(FinalizeOp(Named("r"), NewManifest(None, None, "m"), Patch(None, None, map[]), [CLASH], None))

  const TORN_RUN := [
    Call(OnCore(RunStoreTraces.OPENING[0]), false), Call(OnCore(RunStoreTraces.OPENING[1]), false),
    Call(TEAR, false), Call(OnCore(MintOp(EVENT)), false)]

  lemma TornRunOpens(c: Choices)
    requires Fair(c)
    ensures After(TORN_RUN, 2, c).memory == Memory(OneEventStore(), map[])
    ensures Agree(After(TORN_RUN, 2, c))
  {
    hide Serialize, Restore, CoreOk;
    var orders: RunStoreTraces.Orders := (k: nat) => c.orders(k + 1);
    RunStoreTraces.OneEventStoreIsReachable(orders);
    var opening := RunStoreTraces.OPENING;
    assert RunStoreTraces.After(opening, 0, orders) == EMPTY;
    var one, two := RunStoreTraces.After(opening, 1, orders), RunStoreTraces.After(opening, 2, orders);
    assert After(TORN_RUN, 0, c).memory == BLANK;
    assert After(TORN_RUN, 1, c).memory == Memory(one, map[]);
    assert After(TORN_RUN, 2, c).memory == Memory(two, map[]);
    DiskFollowsMemory(TORN_RUN, 2, c);
  }

  /**
    That can happen: in this run from an empty database a finalize raises half way and stays in
    memory, and the next mutation that returns, whatever it is about, writes its result and
    revision to disk.
  */
  lemma TornFinalizeReachesDisk(c: Choices)
    requires Fair(c)
    ensures Durable(After(TORN_RUN, 2, c), TEAR, c.orders(3), c.lists(3), false).1 == Raised
    ensures Named("r") !in After(TORN_RUN, 3, c).disk.results
    ensures var disk := After(TORN_RUN, 4, c).disk;
      Named("r") in disk.results && Named("r") in disk.runs && disk.runs[Named("r")].revision == 2
  {
    hide Durable, CoreOk, Restore, Serialize, Finalize;
    TornRunOpens(c);
    FinalizeCanTear(c.orders(3));
    DiskHasResults(After(TORN_RUN, 2, c));
    TearStaysInMemory(After(TORN_RUN, 2, c), c.orders(3), c.lists(3));
    MintWrites(After(TORN_RUN, 3, c), c.orders(4), c.lists(4));
  }

  lemma DiskHasResults(s: Store)
    requires Agree(s)
    ensures s.disk.results == s.memory.core.results
  {
    hide RecordsOf, Reindex;
  }

  lemma TearStaysInMemory(s: Store, order: Order, list: Listing)
    requires ListingOk(list)
    requires Finalize(s.memory.core, TEAR.op.run, TEAR.op.manifest, TEAR.op.patch, TEAR.op.events, TEAR.op.expected, order).1.Err?
    ensures var (s', verdict) := Durable(s, TEAR, order, list, false);
      && verdict == Raised && s'.disk == s.disk
      && s'.memory.core == Finalize(s.memory.core, TEAR.op.run, TEAR.op.manifest, TEAR.op.patch, TEAR.op.events, TEAR.op.expected, order).0
  {
    hide Finalize, Serialize, Restore;
  }

  lemma MintWrites(s: Store, order: Order, list: Listing)
    requires ListingOk(list)
    ensures var disk := Durable(s, OnCore(MintOp(EVENT)), order, list, false).0.disk;
      disk.results == s.memory.core.results && disk.runs == s.memory.core.runs
  {
    hide ItemsOf, Restore;
  }

  // ---------------------------------------------------------------- the object

  class SqliteStore {
    const store: InMemoryStore
    const table: Idempotency.IdempotencyTable
    var disk: Snapshot

    function State(): Store
      reads this, store, table
    {
      Store(Memory(store.State(), table.records), disk)
    }

    constructor (list: Listing)
      requires ListingOk(list)
      ensures State() == Store(BLANK, Serialize(BLANK, list)) && fresh(store) && fresh(table)
    {
      store := new InMemoryStore();
      table := new Idempotency.IdempotencyTable();
      new;
      disk := SerializeState(list);
    }

    method SerializeState(list: Listing) returns (d: Snapshot)
      requires ListingOk(list)
      ensures d == Serialize(State().memory, list)
    {
      var keys := list(table.records.Keys);
      assert Lists(keys, table.records.Keys);
      assert keys[..0] == [];
      var items: seq<Item> := [];
      for i := 0 to |keys|
        invariant items == ItemsOf(table.records, keys[..i])
      {
        assert keys[..i + 1][..i] == keys[..i];
        items := items + [Item(keys[i], table.records[keys[i]].fingerprint, table.records[keys[i]].response)];
      }
      assert keys[..|keys|] == keys;
      d := Snapshot(store.counters, store.runs, store.events, store.results, store.endpoints, store.deliveries, items);
    }

    method RebuildIndex(log: seq<Event>) returns (ids: map<Id, Event>)
      ensures ids == IndexOf(log)
    {
      ids := map[];
      assert log[..0] == [];
      for i := 0 to |log|
        invariant ids == IndexOf(log[..i])
      {
        assert log[..i + 1][..i] == log[..i];
        ids := ids[log[i].id := log[i]];
      }
      assert log[..|log|] == log;
    }

    method RebuildIndexes(events: map<Id, seq<Event>>) returns (index: map<Id, map<Id, Event>>)
      ensures index == Reindex(events)
    {
      index := map[];
      var todo := events.Keys;
      while todo != {}
        invariant todo <= events.Keys && index.Keys == events.Keys - todo
        invariant forall run :: run in index ==> index[run] == IndexOf(events[run])
        decreases |todo|
      {
        var run :| run in todo;
        var ids := RebuildIndex(events[run]);
        index, todo := index[run := ids], todo - {run};
      }
    }

    method RestoreState(d: Snapshot)
      modifies table, store
      ensures State().memory == Restore(d)
    {
      store.counters, store.runs, store.events := d.counters, d.runs, d.events;
      store.results, store.endpoints, store.deliveries := d.results, d.endpoints, d.deliveries;
      store.index := RebuildIndexes(d.events);
      table.records := map[];
      assert d.idempotency[..0] == [];
      for i := 0 to |d.idempotency|
        invariant table.records == RecordsOf(d.idempotency[..i]) && store.State() == Restore(d).core
      {
        assert d.idempotency[..i + 1][..i] == d.idempotency[..i];
        var item := d.idempotency[i];
        table.records := table.records[item.key := Idempotency.Record(item.fingerprint, item.response)];
      }
      assert d.idempotency[..|d.idempotency|] == d.idempotency;
    }

    /** Runs the inner method on the memory; every one of its writes is made in place. */
    method RunInner(u: Mutation, order: Order) returns (raised: bool)
      modifies table, store
      ensures (State().memory, raised) == Inner(old(State()).memory, u, order)
    {
      match u
      case OnCore(op) =>
        raised := RunOp(op, order);
      case BeginM(key, fingerprint) =>
        var decision := table.BeginRequest(key, fingerprint);
        raised := decision.INVALID?;
      case CompleteM(key, fingerprint, response) =>
        var r := table.CompleteRequest(key, fingerprint, response);
        raised := r.Err?;
      case AbortM(key, fingerprint) =>
        var r := table.AbortRequest(key, fingerprint);
        raised := r.Err?;
    }

    method RunOp(op: Op, order: Order) returns (raised: bool)
      modifies store
      ensures (store.State(), raised) == (Apply(old(store.State()), op, order).0, Apply(old(store.State()), op, order).1.Some?)
    {
      hide Append, Mutate, Finalize, StoreResult, RunStore.CreateRun, RunStore.UpdateRun;
      match op
      case MintOp(kind) => var _ := store.NewId(kind); raised := false;
      case CreateRunOp(run, tenant, selected, fields) =>
        var r := store.CreateRun(run, tenant, selected, fields); raised := r.Err?;
      case UpdateRunOp(run, p, expected, bump) =>
        var r := store.UpdateRun(run, p, expected, bump); raised := r.Err?;
      case AppendOp(run, v) =>
        var r := store.AppendEvent(run, v, order); raised := r.Err?;
      case MutateOp(run, p, v, expected, bump) =>
        var r := store.MutateRunWithEvent(run, p, v, expected, bump, order); raised := r.Err?;
      case SetResultOp(run, m) =>
        var r := store.SetResult(run, m); raised := r.Err?;
      case FinalizeOp(run, m, p, batch, expected) =>
        var r := store.FinalizeRunWithResult(run, m, p, batch, expected, order); raised := r.Err?;
      case CreateEndpointOp(id, endpoint) =>
        var (core, r) := RunStore.CreateEndpoint(store.State(), id, endpoint);
        store.endpoints := core.endpoints; raised := r.Err?;
      case UpdateEndpointOp(id, status) =>
        var (core, r) := RunStore.UpdateEndpoint(store.State(), id, status);
        store.endpoints := core.endpoints; raised := r.Err?;
      case UpdateDeliveryOp(endpoint, id, status, attempts, next) =>
        var (core, r) := RunStore.UpdateDelivery(store.State(), endpoint, id, status, attempts, next);
        store.deliveries := core.deliveries; raised := r.Err?;
    }

    /** The wrapper around every mutation; `writeFails` is the fate of the checkpoint transaction. */
    method DurableMutation(u: Mutation, order: Order, list: Listing, writeFails: bool) returns (verdict: Verdict)
      requires ListingOk(list)
      modifies this`disk, table, store
      ensures (State(), verdict) == Durable(old(State()), u, order, list, writeFails)
    {
      var before := SerializeState(list);
      var raised := RunInner(u, order);
      if raised { return Raised; }
      if writeFails {
        RestoreState(before);
        return WriteFailed;
      }
      disk := SerializeState(list);
      verdict := Returned;
    }

    method Reopen()
      modifies table, store
      ensures State() == Reopened(old(State()))
    {
      RestoreState(disk);
    }
  }
}
