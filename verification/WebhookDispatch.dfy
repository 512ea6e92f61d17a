/**
  The webhook dispatcher: deliveries of each endpoint in order, one run's head blocking the rest of
  that run, retries with a bounded number of attempts, recovery after a crash, manual redelivery.
*/
module WebhookDispatch {
  import opened Wrappers

  type RunId = string
  type Instant = int

  datatype Status = PENDING | DELIVERING | SUCCEEDED | RETRYING | EXHAUSTED

  /** `eventSeq` is the event's number in its run; the dispatcher itself only sees `createdAt`. */
  datatype Delivery = Delivery(
    run: RunId, eventSeq: nat, createdAt: Instant, status: Status, attempts: nat,
    firstAttemptAt: Option<Instant>, nextAttemptAt: Option<Instant>, redeliverUntil: Option<Instant>)

  datatype EndpointStatus = ACTIVE | PAUSED_DELIVERY_FAILURES | DISABLED

  /** A box lists an endpoint's deliveries in the order of their identifiers, which are drawn from one counter. */
  datatype Endpoint = Endpoint(status: EndpointStatus, box: seq<Delivery>)

  datatype Settings = Settings(maxAttempts: int, maxAge: nat, retention: nat)

  predicate Unfinished(s: Status) { s in {PENDING, DELIVERING, RETRYING} }
  predicate Waiting(s: Status) { s in {PENDING, RETRYING} }
  predicate Due(v: Delivery, now: Instant) { v.nextAttemptAt.None? || v.nextAttemptAt.value <= now }

  // ---------------------------------------------------------------- the order of a box

  /** Sorted by creation time, and by identifier where times are equal. */
  predicate Before(box: seq<Delivery>, d: nat, e: nat)
    requires d < |box| && e < |box|
  {
    box[d].createdAt < box[e].createdAt || (box[d].createdAt == box[e].createdAt && d < e)
  }

  function Insert(box: seq<Delivery>, order: seq<nat>, d: nat): seq<nat>
    requires d < |box| && forall i :: 0 <= i < |order| ==> order[i] < |box|
  {
    if order == [] then [d]
    else
      var n := |order| - 1;
      if Before(box, d, order[n]) then Insert(box, order[..n], d) + [order[n]] else order + [d]
  }

  predicate InOrder(box: seq<Delivery>, order: seq<nat>, n: nat) {
    && n <= |box|
    && (forall i :: 0 <= i < |order| ==> order[i] < n)
    && (forall d: nat :: d < n ==> d in order)
    && (forall i, j :: 0 <= i < j < |order| ==> order[i] < |box| && order[j] < |box| && Before(box, order[i], order[j]))
  }

  lemma BeforeIsTotal(box: seq<Delivery>, c: nat, e: nat, d: nat)
    requires c < |box| && e < |box| && d < |box| && e != d && !Before(box, d, e)
    requires c == e || Before(box, c, e)
    ensures Before(box, c, d)
  {
  }

  lemma {:induction false} InsertHas(box: seq<Delivery>, order: seq<nat>, d: nat)
    requires d < |box| && forall i :: 0 <= i < |order| ==> order[i] < |box|
    ensures forall e :: e in Insert(box, order, d) <==> e in order || e == d
    decreases |order|
  {
    hide Before;
    if order != [] {
      var n := |order| - 1;
      assert order == order[..n] + [order[n]];
      if Before(box, d, order[n]) { InsertHas(box, order[..n], d); }
    }
  }

  lemma {:induction false} InsertKeepsOrder(box: seq<Delivery>, order: seq<nat>, d: nat)
    requires d < |box| && forall i :: 0 <= i < |order| ==> order[i] < |box| && order[i] != d
    requires forall i, j :: 0 <= i < j < |order| ==> Before(box, order[i], order[j])
    ensures var r := Insert(box, order, d);
      && (forall e :: e in r <==> e in order || e == d)
      && (forall i :: 0 <= i < |r| ==> r[i] < |box|)
      && (forall i, j :: 0 <= i < j < |r| ==> Before(box, r[i], r[j]))
    decreases |order|
  {
    hide Before;
    InsertHas(box, order, d);
    if order != [] {
      var n := |order| - 1;
      if Before(box, d, order[n]) {
        InsertKeepsOrder(box, order[..n], d);
        InsertHas(box, order[..n], d);
        var r := Insert(box, order[..n], d);
        forall i | 0 <= i < |r| ensures r[i] < |box| && Before(box, r[i], order[n]) {
          assert r[i] in r;
          if r[i] != d {
            assert r[i] in order[..n];
            var j :| 0 <= j < n && order[..n][j] == r[i];
            assert order[j] == r[i];
          }
        }
      } else {
        forall i | 0 <= i <= n ensures Before(box, order[i], d) {
          if i < n { assert Before(box, order[i], order[n]); }
          BeforeIsTotal(box, order[i], order[n], d);
        }
      }
    }
  }

  function Sorted(box: seq<Delivery>, n: nat): (order: seq<nat>)
    requires n <= |box|
    ensures InOrder(box, order, n)
  {
    if n == 0 then []
    else
      var init := Sorted(box, n - 1);
      InsertKeepsOrder(box, init, n - 1);
      InsertMembers(box, init, n);
      Insert(box, init, n - 1)
  }

  lemma InsertMembers(box: seq<Delivery>, order: seq<nat>, n: nat)
    requires 0 < n <= |box| && InOrder(box, order, n - 1)
    ensures InOrder(box, Insert(box, order, n - 1), n)
  {
    hide Before, Insert;
    InsertKeepsOrder(box, order, n - 1);
    var r := Insert(box, order, n - 1);
    forall i | 0 <= i < |r| ensures r[i] < n {
      assert r[i] in r;
      if r[i] != n - 1 {
        assert r[i] in order;
        var j :| 0 <= j < |order| && order[j] == r[i];
      }
    }
    forall d: nat | d < n ensures d in r { assert d in order || d == n - 1; }
  }

  // ---------------------------------------------------------------- the pick

  function Scan(box: seq<Delivery>, order: seq<nat>, blocked: set<RunId>, now: Instant): Option<nat>
    requires forall i :: 0 <= i < |order| ==> order[i] < |box|
  {
    if order == [] then None
    else
      var d := order[0];
      var v := box[d];
      if !Unfinished(v.status) || v.run in blocked then Scan(box, order[1..], blocked, now)
      else if v.status == DELIVERING || !Due(v, now) then Scan(box, order[1..], blocked + {v.run}, now)
      else Some(d)
  }

  function PickIn(box: seq<Delivery>, now: Instant): Option<nat> {
    Scan(box, Sorted(box, |box|), {}, now)
  }

  /** The first active endpoint, from `i` on, that has a delivery to attempt. */
  function Pick(endpoints: seq<Endpoint>, i: nat, now: Instant): Option<(nat, nat)>
    requires i <= |endpoints|
    decreases |endpoints| - i
  {
    if i == |endpoints| then None
    else if endpoints[i].status == ACTIVE && PickIn(endpoints[i].box, now).Some? then Some((i, PickIn(endpoints[i].box, now).value))
    else Pick(endpoints, i + 1, now)
  }

  /** A waiting, due delivery all of whose predecessors in its run are finished. */
  predicate Eligible(box: seq<Delivery>, d: nat, now: Instant) {
    && d < |box| && Waiting(box[d].status) && Due(box[d], now)
    && forall e: nat :: e < |box| && box[e].run == box[d].run && Before(box, e, d) ==> !Unfinished(box[e].status)
  }

  lemma {:induction false} ScanFinds(box: seq<Delivery>, order: seq<nat>, blocked: set<RunId>, now: Instant)
    requires forall i :: 0 <= i < |order| ==> order[i] < |box|
    ensures match Scan(box, order, blocked, now)
      case Some(d) => exists i :: 0 <= i < |order| && order[i] == d && HeadAt(box, order, blocked, now, i)
      case None => forall i :: 0 <= i < |order| ==> !HeadAt(box, order, blocked, now, i)
    decreases |order|
  {
    if order != [] {
      var v := box[order[0]];
      var rest := order[1..];
      var blocks := Unfinished(v.status) && v.run !in blocked;
      var blocked' := if blocks then blocked + {v.run} else blocked;
      if !(blocks && v.status != DELIVERING && Due(v, now)) {
        ScanFinds(box, rest, blocked', now);
        forall i | 0 <= i < |rest| ensures HeadAt(box, order, blocked, now, i + 1) <==> HeadAt(box, rest, blocked', now, i) {
          HeadMoves(box, order, blocked, now, i);
        }
        if Scan(box, rest, blocked', now).Some? {
          var i :| 0 <= i < |rest| && rest[i] == Scan(box, rest, blocked', now).value && HeadAt(box, rest, blocked', now, i);
          assert order[i + 1] == rest[i] && HeadAt(box, order, blocked, now, i + 1);
        } else {
          forall i | 0 <= i < |order| ensures !HeadAt(box, order, blocked, now, i) {
            if i > 0 { assert !HeadAt(box, rest, blocked', now, i - 1); }
          }
        }
      } else {
        assert HeadAt(box, order, blocked, now, 0);
      }
    }
  }

  /** Position `i` of an order may be attempted: it waits, is due, and nothing before it holds its run up. */
  predicate HeadAt(box: seq<Delivery>, order: seq<nat>, blocked: set<RunId>, now: Instant, i: int)
    requires 0 <= i < |order| && forall i :: 0 <= i < |order| ==> order[i] < |box|
  {
    && Waiting(box[order[i]].status) && Due(box[order[i]], now) && box[order[i]].run !in blocked
    && forall j :: 0 <= j < i && box[order[j]].run == box[order[i]].run ==> !Unfinished(box[order[j]].status)
  }

  lemma HeadMoves(box: seq<Delivery>, order: seq<nat>, blocked: set<RunId>, now: Instant, i: nat)
    requires i < |order| - 1 && forall k :: 0 <= k < |order| ==> order[k] < |box|
    ensures var v := box[order[0]];
      var blocked' := if Unfinished(v.status) && v.run !in blocked then blocked + {v.run} else blocked;
      HeadAt(box, order, blocked, now, i + 1) <==> HeadAt(box, order[1..], blocked', now, i)
  {
    var v := box[order[0]];
    var blocked' := if Unfinished(v.status) && v.run !in blocked then blocked + {v.run} else blocked;
    if HeadAt(box, order[1..], blocked', now, i) {
      forall j | 0 <= j < i + 1 && box[order[j]].run == box[order[i + 1]].run ensures !Unfinished(box[order[j]].status) {
        if j > 0 { assert order[1..][j - 1] == order[j]; }
      }
    }
    if HeadAt(box, order, blocked, now, i + 1) {
      forall j | 0 <= j < i && box[order[1..][j]].run == box[order[1..][i]].run ensures !Unfinished(box[order[1..][j]].status) {
        assert order[1..][j] == order[j + 1];
      }
    }
  }

  /** The pick is exact: what is picked is eligible, and nothing is picked only if nothing is. */
  lemma PickInIsExact(box: seq<Delivery>, now: Instant)
    ensures match PickIn(box, now)
      case Some(d) => Eligible(box, d, now)
      case None => forall d: nat :: !Eligible(box, d, now)
  {
    var order := Sorted(box, |box|);
    ScanFinds(box, order, {}, now);
    if PickIn(box, now).Some? {
      var i :| 0 <= i < |order| && order[i] == PickIn(box, now).value && HeadAt(box, order, {}, now, i);
      forall e: nat | e < |box| && box[e].run == box[order[i]].run && Before(box, e, order[i]) ensures !Unfinished(box[e].status) {
        assert e in order;
        var j :| 0 <= j < |order| && order[j] == e;
        assert j < i;
      }
    } else {
      forall d: nat ensures !Eligible(box, d, now) {
        if Eligible(box, d, now) {
          assert d in order;
          var i :| 0 <= i < |order| && order[i] == d;
          assert HeadAt(box, order, {}, now, i);
        }
      }
    }
  }

  lemma {:induction false} PickIsExact(endpoints: seq<Endpoint>, i: nat, now: Instant)
    requires i <= |endpoints|
    ensures match Pick(endpoints, i, now)
      case Some((e, d)) => i <= e < |endpoints| && endpoints[e].status == ACTIVE && Eligible(endpoints[e].box, d, now)
      case None => forall e, d: nat :: i <= e < |endpoints| && endpoints[e].status == ACTIVE ==> !Eligible(endpoints[e].box, d, now)
    decreases |endpoints| - i
  {
    hide PickIn, Eligible;
    if i < |endpoints| {
      PickInIsExact(endpoints[i].box, now);
      PickIsExact(endpoints, i + 1, now);
    }
  }
}
