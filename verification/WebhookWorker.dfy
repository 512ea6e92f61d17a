/** The dispatcher as it runs: loops over endpoints and their sorted deliveries, and records updated in place. */
module WebhookWorker {
  import opened Wrappers
  import opened WebhookDispatch
  import opened WebhookRuns

  class WebhookDeliveryWorker {
    var endpoints: seq<Endpoint>
    var phase: Phase
    const settings: Settings

    function State(): World
      reads this
    {
      World(endpoints, phase)
    }

    constructor (endpoints: seq<Endpoint>, settings: Settings)
      ensures State() == World(endpoints, STOPPED) && this.settings == settings
    {
      this.endpoints, this.phase, this.settings := endpoints, STOPPED, settings;
    }

    method UpdateDelivery(e: nat, d: nat, v: Delivery)
      requires Known(State(), e, d)
      modifies this`endpoints
      ensures State() == Put(old(State()), e, d, v)
    {
      endpoints := endpoints[e := endpoints[e].(box := endpoints[e].box[d := v])];
    }

    /** The first delivery of a box, in sorted order, that heads its run and is due. */
    method SelectDelivery(box: seq<Delivery>, now: Instant) returns (pick: Option<nat>)
      ensures pick == PickIn(box, now)
    {
      var order := Sorted(box, |box|);
      var blocked: set<RunId> := {};
      assert order[0..] == order;
      for j := 0 to |order|
        invariant PickIn(box, now) == Scan(box, order[j..], blocked, now)
      {
        assert order[j..][0] == order[j] && order[j..][1..] == order[j + 1..];
        var v := box[order[j]];
        if !Unfinished(v.status) { continue; }
        if v.run in blocked { continue; }
        blocked := blocked + {v.run};
        if v.status == DELIVERING { continue; }
        if v.nextAttemptAt.Some? && v.nextAttemptAt.value > now { continue; }
        return Some(order[j]);
      }
      pick := None;
    }

    /** Looks for one delivery to attempt and marks it as under way; whether there was one. */
    method DispatchOne(now: Instant) returns (found: bool)
      requires phase == IDLE
      modifies this
      ensures State() == Next(old(State()), Start(now), settings)
      ensures found <==> Pick(old(endpoints), 0, now).Some?
    {
      hide PickIn;
      for i := 0 to |endpoints|
        invariant State() == old(State())
        invariant Pick(endpoints, 0, now) == Pick(endpoints, i, now)
      {
        if endpoints[i].status != ACTIVE { continue; }
        var pick := SelectDelivery(endpoints[i].box, now);
        if pick.Some? {
          StartIsKnown(State(), now);
          UpdateDelivery(i, pick.value, Started(endpoints[i].box[pick.value], now));
          phase := BUSY(i, pick.value);
          return true;
        }
      }
      found := false;
    }

    method FinishDelivered()
      requires Attempting(State())
      modifies this
      ensures State() == Next(old(State()), Succeed, settings)
    {
      UpdateDelivery(phase.endpoint, phase.delivery,
                     endpoints[phase.endpoint].box[phase.delivery].(status := SUCCEEDED, nextAttemptAt := None));
      phase := IDLE;
    }

    /** A failed attempt: again later, or no more and the endpoint paused. */
    method RetryOrExhaustDelivery(now: Instant, delay: nat, pauseFails: bool)
      requires Attempting(State())
      modifies this
      ensures State() == Next(old(State()), Fail(now, delay, pauseFails), settings)
    {
      var e, d := phase.endpoint, phase.delivery;
      var v := endpoints[e].box[d];
      phase := IDLE;
      if IsExhausted(v, settings, now) {
        UpdateDelivery(e, d, v.(status := EXHAUSTED, nextAttemptAt := None, redeliverUntil := Some(now + settings.retention)));
        if !pauseFails {
          endpoints := endpoints[e := endpoints[e].(status := PAUSED_DELIVERY_FAILURES)];
        }
      } else {
        UpdateDelivery(e, d, v.(status := RETRYING, nextAttemptAt := Some(now + delay)));
      }
    }

    /** Puts every delivery found under way back in line before the loop starts. */
    method RecoverInterruptedDeliveries(now: Instant)
      requires phase == STOPPED
      modifies this
      ensures State() == Next(old(State()), Boot(now), settings)
    {
      for e := 0 to |endpoints|
        invariant |endpoints| == old(|endpoints|) && phase == STOPPED
        invariant forall x :: 0 <= x < |endpoints| ==>
          endpoints[x] == if x < e then old(endpoints[x]).(box := RecoverBox(old(endpoints[x]).box, now)) else old(endpoints[x])
      {
        ghost var box := endpoints[e].box;
        for d := 0 to |endpoints[e].box|
          invariant |endpoints| == old(|endpoints|) && phase == STOPPED && |endpoints[e].box| == |box|
          invariant forall x :: 0 <= x < |endpoints| && x != e ==>
            endpoints[x] == if x < e then old(endpoints[x]).(box := RecoverBox(old(endpoints[x]).box, now)) else old(endpoints[x])
          invariant endpoints[e].status == old(endpoints[e]).status
          invariant forall y :: 0 <= y < |box| ==> endpoints[e].box[y] == if y < d then Interrupted(box[y], now) else box[y]
        {
          if endpoints[e].box[d].status == DELIVERING {
            UpdateDelivery(e, d, endpoints[e].box[d].(status := RETRYING, nextAttemptAt := Some(now)));
          }
        }
        assert endpoints[e].box == RecoverBox(box, now);
      }
      assert endpoints == RecoverAll(old(endpoints), now);
      phase := IDLE;
    }

    /** The manual redelivery request; whether it was accepted. */
    method RedeliverDelivery(e: nat, d: nat, now: Instant) returns (accepted: bool)
      requires Known(State(), e, d)
      modifies this`endpoints
      ensures State() == Next(old(State()), Redeliver(e, d, now), settings)
      ensures accepted <==> Redeliverable(old(State()), e, d, now)
    {
      if endpoints[e].status != ACTIVE { return false; }
      var v := endpoints[e].box[d];
      if v.status !in {PENDING, RETRYING, EXHAUSTED} { return false; }
      if v.status == EXHAUSTED && (v.redeliverUntil.None? || v.redeliverUntil.value <= now) { return false; }
      UpdateDelivery(e, d, v.(status := PENDING, nextAttemptAt := Some(now), redeliverUntil := None));
      accepted := true;
    }
  }
}
