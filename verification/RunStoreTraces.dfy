/** The run store over whole runs of mutations. */
module RunStoreTraces {
  import opened Wrappers
  import opened RunStore
  import opened RunStoreRuns
  import opened RunStoreResults

  // ---------------------------------------------------------------- whole runs of mutations

  /** Every mutation iterates its sets in an order of its own, which a restart or a reallocation may change. */
  type Orders = nat -> Order

  ghost predicate OrdersOk(orders: Orders) {
    forall k :: OrderOk(orders(k))
  }

  /** The store after the first `k` mutations. */
  ghost function After(ops: seq<Op>, k: nat, orders: Orders): Core
    requires k <= |ops|
  {
    if k == 0 then EMPTY else Apply(After(ops, k - 1, orders), ops[k - 1], orders(k - 1)).0
  }

  ghost predicate Succeeds(ops: seq<Op>, k: nat, orders: Orders) {
    k < |ops| && Apply(After(ops, k, orders), ops[k], orders(k)).1.None?
  }

  /** Some mutation appended this event while the endpoint was selected and subscribed. */
  ghost predicate Owed(ops: seq<Op>, k: nat, orders: Orders, endpoint: Id, event: Id)
    requires k <= |ops|
  {
    k > 0 && (Owed(ops, k - 1, orders, endpoint, event)
              || NewlyOwed(After(ops, k - 1, orders), After(ops, k, orders), endpoint, event))
  }

  lemma {:induction false} StoreStaysSound(ops: seq<Op>, k: nat, orders: Orders)
    requires k <= |ops| && OrdersOk(orders)
    ensures CoreOk(After(ops, k, orders))
  {
    if k > 0 {
      StoreStaysSound(ops, k - 1, orders);
      ApplyIsSound(After(ops, k - 1, orders), ops[k - 1], orders(k - 1));
    } else {
      assert forall endpoint :: BoxOk(EMPTY, endpoint);
    }
  }

  /** Logs are append-only, results are write-once, and revisions never go back, over any stretch of mutations. */
  lemma {:induction false} StoreOnlyGrows(ops: seq<Op>, i: nat, k: nat, orders: Orders)
    requires i <= k <= |ops| && OrdersOk(orders)
    ensures Extends(After(ops, i, orders), After(ops, k, orders))
    decreases k - i
  {
    hide Apply, CoreOk, OrderOk, OutboxMatches;
    if i < k {
      StoreOnlyGrows(ops, i, k - 1, orders);
      StoreStaysSound(ops, k - 1, orders);
      ApplyIsSound(After(ops, k - 1, orders), ops[k - 1], orders(k - 1));
      ExtendsTransitive(After(ops, i, orders), After(ops, k - 1, orders), After(ops, k, orders));
    }
  }

  lemma {:induction false} QueuedIsOwed(ops: seq<Op>, k: nat, orders: Orders, endpoint: Id, event: Id)
    requires k <= |ops| && OrdersOk(orders)
    ensures Queued(After(ops, k, orders), endpoint, event) <==> Owed(ops, k, orders, endpoint, event)
  {
    if k > 0 {
      QueuedIsOwed(ops, k - 1, orders, endpoint, event);
      StoreStaysSound(ops, k - 1, orders);
      ApplyIsSound(After(ops, k - 1, orders), ops[k - 1], orders(k - 1));
      hide Apply, CoreOk, Queued, NewlyOwed;
    }
  }

  /**
    The outbox is exact: an endpoint holds a delivery for an event if and only if the event was
    appended while the endpoint was selected, of the same tenant, not disabled and subscribed;
    there is exactly one; and its event is in the log of its run.
  */
  lemma OutboxIsExact(ops: seq<Op>, orders: Orders, endpoint: Id, event: Id)
    requires OrdersOk(orders)
    ensures var box := Box(After(ops, |ops|, orders), endpoint);
      && ((exists d :: d in box && box[d].event == event) <==> Owed(ops, |ops|, orders, endpoint, event))
      && (forall c, d :: c in box && d in box && box[c].event == event && box[d].event == event ==> c == d)
      && (forall d :: d in box ==> Announces(After(ops, |ops|, orders), box[d]))
  {
    QueuedIsOwed(ops, |ops|, orders, endpoint, event);
    StoreStaysSound(ops, |ops|, orders);
    assert BoxOk(After(ops, |ops|, orders), endpoint);
  }

  // ---------------------------------------------------------------- one writer per revision

  /** Of all revision-raising writers that expect the same revision of a run, at most one commits. */
  lemma OneWriterPerRevision(ops: seq<Op>, i: nat, j: nat, orders: Orders, run: Id, expected: nat)
    requires OrdersOk(orders) && Succeeds(ops, i, orders) && Succeeds(ops, j, orders)
    requires Bumps(ops[i]) == Some((run, Some(expected))) && Bumps(ops[j]) == Some((run, Some(expected)))
    ensures i == j
  {
    hide CoreOk, OrderOk, Apply;
    if i < j {
      SecondWriterLoses(ops, i, j, orders, run, expected);
    } else if j < i {
      SecondWriterLoses(ops, j, i, orders, run, expected);
    }
  }

  lemma SecondWriterLoses(ops: seq<Op>, i: nat, j: nat, orders: Orders, run: Id, expected: nat)
    requires OrdersOk(orders) && i < j < |ops| && Succeeds(ops, i, orders)
    requires Bumps(ops[i]) == Some((run, Some(expected))) && Bumps(ops[j]) == Some((run, Some(expected)))
    ensures !Succeeds(ops, j, orders)
  {
    hide CoreOk, OrderOk, Apply;
    StoreStaysSound(ops, i, orders);
    BumpChecks(After(ops, i, orders), ops[i], orders(i));
    StoreOnlyGrows(ops, i + 1, j, orders);
    if Succeeds(ops, j, orders) {
      StoreStaysSound(ops, j, orders);
      BumpChecks(After(ops, j, orders), ops[j], orders(j));
    }
  }

  // ---------------------------------------------------------------- a store to fail in

  const OPENING := [CreateRunOp(Named("r"), "t", {}, map[]), AppendOp(Named("r"), NewEvent(Some(Named("e")), None, None, "k", 0, "old"))]

  /** The store of FinalizeCanTear is reached from the empty one by creating a run and appending to it. */
  lemma OneEventStoreIsReachable(orders: Orders)
    requires OrdersOk(orders)
    ensures After(OPENING, 2, orders) == OneEventStore()
  {
    var created := EMPTY.(runs := map[Named("r") := Run(1, 0, "t", {}, map[])], events := map[Named("r") := []], index := map[Named("r") := map[]]);
    assert After(OPENING, 0, orders) == EMPTY;
    assert After(OPENING, 1, orders) == created;
    assert Enumerates(orders(1)({}), {});
    if orders(1)({}) != [] { assert orders(1)({})[0] in orders(1)({}); }
    var locked, full := AppendLocked(created, Named("r"), OPENING[1].event).0, OneEventStore();
    assert locked.events[Named("r")] == full.events[Named("r")];
    assert locked.runs == full.runs && locked.events == full.events && locked.index[Named("r")] == full.index[Named("r")];
    assert locked.index == full.index;
    assert Append(created, Named("r"), OPENING[1].event, orders(1)).0 == OneEventStore();
  }
}
