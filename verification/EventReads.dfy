/** What pages and streams read are the logs of the run store, so that its guarantees are theirs. */
module EventReads {
  import opened Wrappers
  import opened RunStore
  import opened RunStoreRuns
  import opened RunStoreResults
  import opened RunStoreTraces
  import opened RunStoreIdentity
  import EventPaging
  import EventStream
  import EventStreamClient

  ghost function LogAt(ops: seq<Op>, k: nat, orders: Orders, run: Id): seq<Event>
    requires k <= |ops|
  {
    if run in After(ops, k, orders).events then After(ops, k, orders).events[run] else []
  }

  /** Reads of a run's log, each made after so many mutations of the store. */
  ghost predicate ReadsOf(log: EventPaging.Reads, ops: seq<Op>, orders: Orders, run: Id) {
    exists at: nat -> nat :: ReadAt(log, ops, orders, run, at)
  }

  ghost predicate ReadAt(log: EventPaging.Reads, ops: seq<Op>, orders: Orders, run: Id, at: nat -> nat) {
    && (forall i, j :: i <= j ==> at(i) <= at(j))
    && (forall t :: at(t) <= |ops| && log(t) == LogAt(ops, at(t), orders, run))
  }

  /** Such reads grow, are numbered from one, and with fresh identifiers tell their events apart. */
  lemma StoreReadsGrow(log: EventPaging.Reads, ops: seq<Op>, orders: Orders, run: Id)
    requires OrdersOk(orders) && ReadsOf(log, ops, orders, run)
    ensures EventPaging.Growing(log)
    ensures AlwaysFresh(ops, orders) ==> forall t :: UniqueIds(log(t))
  {
    hide LogAt, OrderOk, Neat, AlwaysFresh, LogOk, UniqueIds;
    var at: nat -> nat :| ReadAt(log, ops, orders, run, at);
    forall t ensures LogOk(log(t)) && (AlwaysFresh(ops, orders) ==> UniqueIds(log(t))) {
      LogIsGood(ops, at(t), orders, run);
    }
    forall i, j | i <= j ensures log(i) <= log(j) {
      LogGrows(ops, at(i), at(j), orders, run);
    }
  }

  lemma LogIsGood(ops: seq<Op>, k: nat, orders: Orders, run: Id)
    requires OrdersOk(orders) && k <= |ops|
    ensures LogOk(LogAt(ops, k, orders, run))
    ensures AlwaysFresh(ops, orders) ==> UniqueIds(LogAt(ops, k, orders, run))
  {
    hide After, OrderOk, AlwaysFresh, ResultsOk, BoxOk;
    StoreStaysSound(ops, k, orders);
    if AlwaysFresh(ops, orders) { IdsStayDistinct(ops, k, orders); }
    var s := After(ops, k, orders);
    if run in s.events { assert run in s.runs && RunOk(s, run); }
  }

  lemma LogGrows(ops: seq<Op>, i: nat, j: nat, orders: Orders, run: Id)
    requires OrdersOk(orders) && i <= j <= |ops|
    ensures LogAt(ops, i, orders, run) <= LogAt(ops, j, orders, run)
  {
    hide After, OrderOk;
    StoreOnlyGrows(ops, i, j, orders);
  }

  /** The client of pages of a store's run loses nothing and gets nothing twice. */
  lemma StorePagesAreComplete(log: EventPaging.Reads, ops: seq<Op>, orders: Orders, run: Id, after: nat, types: EventPaging.Types)
    requires OrdersOk(orders) && AlwaysFresh(ops, orders) && ReadsOf(log, ops, orders, run) && after <= |log(0)|
    ensures EventPaging.Unseen(EventPaging.Window(log(0), after, |log(0)|, types), {}).0 == EventPaging.Chosen(log(0)[after..], types)
  {
    StoreReadsGrow(log, ops, orders, run);
    EventPaging.NothingLostNothingTwice(log, after, types);
    hide ReadsOf, AlwaysFresh;
  }

  /** The streaming client of a store's run gets a stretch of its log without gaps and without repeats. */
  lemma StoreStreamIsGapFree(u: EventStreamClient.Setup, ops: seq<Op>, orders: Orders, run: Id, after: Option<nat>, net: seq<EventStreamClient.Connection>)
    requires OrdersOk(orders) && AlwaysFresh(ops, orders) && ReadsOf(u.log, ops, orders, run)
    requires EventStream.Faithful(u.codec) && EventStreamClient.Legible(u) && u.types == None
    ensures var start := EventStreamClient.Start(u, after, {}).client.current;
      var s := EventStreamClient.Run(u, EventStreamClient.Start(u, after, {}), net);
      && start <= s.client.current
      && s.client.yielded == if start <= s.client.current <= |u.log(s.read)| then u.log(s.read)[start..s.client.current] else []
  {
    hide ReadsOf, AlwaysFresh, EventStream.Faithful, EventStreamClient.Legible, EventStreamClient.Run;
    StoreReadsGrow(u.log, ops, orders, run);
    EventStreamClient.StreamIsGapFree(u, after, net);
  }
}
