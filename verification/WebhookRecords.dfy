/** What each step of the dispatcher records, field by field, and which deliveries end up delivered. */
module WebhookRecords {
  import opened Wrappers
  import opened WebhookDispatch
  import opened WebhookRuns

  /** No endpoint and no delivery but this one differs, and this one only where a step says so. */
  predicate OthersStay(w: World, w': World, e: nat, d: nat)
    requires Known(w, e, d)
  {
    && |w'.endpoints| == |w.endpoints|
    && (forall x :: 0 <= x < |w.endpoints| && x != e ==> w'.endpoints[x] == w.endpoints[x])
    && |w'.endpoints[e].box| == |w.endpoints[e].box|
    && (forall y :: 0 <= y < |w.endpoints[e].box| && y != d ==> w'.endpoints[e].box[y] == w.endpoints[e].box[y])
  }

  predicate SameEndpoint(w: World, w': World, e: nat)
    requires e < |w.endpoints| && e < |w'.endpoints|
  {
    w'.endpoints[e].status == w.endpoints[e].status
  }

  // ---------------------------------------------------------------- the choice

  /** The delivery waits, its time has come, and those of its run that sort before it are finished. */
  predicate Ripe(box: seq<Delivery>, d: nat, now: Instant) {
    && d < |box| && (box[d].status == PENDING || box[d].status == RETRYING)
    && (box[d].nextAttemptAt.None? || box[d].nextAttemptAt.value <= now)
    && forall e :: 0 <= e < |box| && box[e].run == box[d].run
         && (box[e].createdAt < box[d].createdAt || (box[e].createdAt == box[d].createdAt && e < d))
         ==> box[e].status == SUCCEEDED || box[e].status == EXHAUSTED
  }

  lemma RipeIsEligible(box: seq<Delivery>, d: nat, now: Instant)
    ensures Ripe(box, d, now) <==> Eligible(box, d, now)
  {
  }

  /** A ripe delivery of an active endpoint is picked whenever there is one, and nothing else ever is. */
  lemma PickIsRipe(endpoints: seq<Endpoint>, now: Instant)
    ensures match Pick(endpoints, 0, now)
      case Some((e, d)) => e < |endpoints| && endpoints[e].status == ACTIVE && Ripe(endpoints[e].box, d, now)
      case None => forall e, d: nat :: 0 <= e < |endpoints| && endpoints[e].status == ACTIVE ==> !Ripe(endpoints[e].box, d, now)
  {
    hide Pick, Ripe, Eligible;
    PickIsExact(endpoints, 0, now);
    forall e, d: nat | 0 <= e < |endpoints| ensures Ripe(endpoints[e].box, d, now) <==> Eligible(endpoints[e].box, d, now) {
      RipeIsEligible(endpoints[e].box, d, now);
    }
  }

  // ---------------------------------------------------------------- the ends of an attempt

  /** A success leaves the delivery delivered, with nothing due any more, and the dispatcher free. */
  lemma SucceedRecords(w: World, s: Settings)
    requires Attempting(w)
    ensures var w', e, d := Next(w, Succeed, s), w.phase.endpoint, w.phase.delivery;
      && w'.phase == IDLE && OthersStay(w, w', e, d) && SameEndpoint(w, w', e) && Known(w', e, d)
      && At(w', e, d).status == SUCCEEDED && At(w', e, d).nextAttemptAt == None
      && SameDelivery(At(w, e, d), At(w', e, d)) && At(w', e, d).attempts == At(w, e, d).attempts
      && At(w', e, d).firstAttemptAt == At(w, e, d).firstAttemptAt && At(w', e, d).redeliverUntil == At(w, e, d).redeliverUntil
  {
  }

  /** Nothing more will be tried: the attempts are used up, or the first of them is too long ago. */
  predicate UsedUp(v: Delivery, s: Settings, now: Instant) {
    v.attempts >= s.maxAttempts || (v.firstAttemptAt.Some? && now - v.firstAttemptAt.value > s.maxAge)
  }

  /**
    A failure puts the delivery back for after the delay, or exhausts it, exactly if nothing more will be
    tried; then it can be asked for again for a while, and its endpoint is paused unless that write failed.
  */
  lemma FailRecords(w: World, now: Instant, delay: nat, pauseFails: bool, s: Settings)
    requires Attempting(w)
    ensures var w', e, d := Next(w, Fail(now, delay, pauseFails), s), w.phase.endpoint, w.phase.delivery;
      && w'.phase == IDLE && OthersStay(w, w', e, d) && Known(w', e, d)
      && (UsedUp(At(w, e, d), s, now) ==>
            && At(w', e, d).status == EXHAUSTED && At(w', e, d).nextAttemptAt == None
            && At(w', e, d).redeliverUntil == Some(now + s.retention))
      && (!UsedUp(At(w, e, d), s, now) ==>
            && At(w', e, d).status == RETRYING && At(w', e, d).nextAttemptAt == Some(now + delay)
            && At(w', e, d).redeliverUntil == At(w, e, d).redeliverUntil)
      && w'.endpoints[e].status == (if UsedUp(At(w, e, d), s, now) && !pauseFails then PAUSED_DELIVERY_FAILURES else w.endpoints[e].status)
      && SameDelivery(At(w, e, d), At(w', e, d)) && At(w', e, d).attempts == At(w, e, d).attempts
      && At(w', e, d).firstAttemptAt == At(w, e, d).firstAttemptAt
  {
  }

  /** An attempt that is called off is due again at once, and the dispatcher is stopped. */
  lemma CancelRecords(w: World, now: Instant, s: Settings)
    ensures var w' := Next(w, Cancel(now), s); w'.phase == STOPPED && (!Attempting(w) ==> w'.endpoints == w.endpoints)
    ensures Attempting(w) ==> var w', e, d := Next(w, Cancel(now), s), w.phase.endpoint, w.phase.delivery;
      && OthersStay(w, w', e, d) && SameEndpoint(w, w', e) && Known(w', e, d)
      && At(w', e, d).status == RETRYING && At(w', e, d).nextAttemptAt == Some(now)
      && SameDelivery(At(w, e, d), At(w', e, d)) && At(w', e, d).attempts == At(w, e, d).attempts
      && At(w', e, d).firstAttemptAt == At(w, e, d).firstAttemptAt && At(w', e, d).redeliverUntil == At(w, e, d).redeliverUntil
  {
  }

  /** Without an attempt, its ends change nothing; a lost write and a crash change no delivery. */
  lemma NothingRecords(w: World, s: Settings, now: Instant, delay: nat, pauseFails: bool)
    ensures !Attempting(w) ==> Next(w, Succeed, s) == w && Next(w, Fail(now, delay, pauseFails), s) == w && Next(w, LoseWrite, s) == w
    ensures Attempting(w) ==> Next(w, LoseWrite, s) == World(w.endpoints, IDLE)
    ensures Next(w, Crash, s) == World(w.endpoints, STOPPED)
  {
  }

  // ---------------------------------------------------------------- starting and recovering

  /** A start takes the picked delivery under way with one attempt more, and remembers the first. */
  lemma StartRecords(w: World, now: Instant, s: Settings)
    ensures w.phase != IDLE || Pick(w.endpoints, 0, now).None? ==> Next(w, Start(now), s) == w
    ensures w.phase == IDLE && Pick(w.endpoints, 0, now).Some? ==>
      var (e, d) := Pick(w.endpoints, 0, now).value;
      var w' := Next(w, Start(now), s);
      && Known(w, e, d) && w'.phase == BUSY(e, d) && OthersStay(w, w', e, d) && SameEndpoint(w, w', e) && Known(w', e, d)
      && At(w', e, d).status == DELIVERING && At(w', e, d).attempts == At(w, e, d).attempts + 1 && At(w', e, d).nextAttemptAt == None
      && At(w', e, d).firstAttemptAt == (if At(w, e, d).firstAttemptAt.Some? then At(w, e, d).firstAttemptAt else Some(now))
      && SameDelivery(At(w, e, d), At(w', e, d)) && At(w', e, d).redeliverUntil == At(w, e, d).redeliverUntil
  {
    StartIsKnown(w, now);
    hide Pick;
  }

  /** A delivery found under way is put back, due at once; every other one stays. */
  predicate PutBack(v: Delivery, v': Delivery, now: Instant) {
    if v.status == DELIVERING then
      && v'.status == RETRYING && v'.nextAttemptAt == Some(now) && SameDelivery(v, v') && v'.attempts == v.attempts
      && v'.firstAttemptAt == v.firstAttemptAt && v'.redeliverUntil == v.redeliverUntil
    else v' == v
  }

  lemma BootRecords(w: World, now: Instant, s: Settings)
    requires w.phase == STOPPED
    ensures var w' := Next(w, Boot(now), s);
      && w'.phase == IDLE && |w'.endpoints| == |w.endpoints|
      && (forall e :: 0 <= e < |w.endpoints| ==> SameEndpoint(w, w', e) && |w'.endpoints[e].box| == |w.endpoints[e].box|)
      && (forall e: nat, d: nat :: Known(w, e, d) ==> Known(w', e, d) && PutBack(At(w, e, d), At(w', e, d), now))
  {
  }

  lemma RecoverOneRecords(w: World, e: nat, d: nat, now: Instant, s: Settings)
    requires w.phase == STOPPED && Known(w, e, d)
    ensures var w' := Next(w, RecoverOne(e, d, now), s);
      && w'.phase == STOPPED && OthersStay(w, w', e, d) && SameEndpoint(w, w', e) && Known(w', e, d)
      && PutBack(At(w, e, d), At(w', e, d), now)
  {
  }

  /**
    A redelivery is accepted on an active endpoint, for a delivery that waits or for an exhausted one
    within its term; it is then due at once and its term is over. Otherwise nothing changes.
  */
  lemma RedeliverRecords(w: World, e: nat, d: nat, now: Instant, s: Settings)
    requires Known(w, e, d)
    ensures var w', v := Next(w, Redeliver(e, d, now), s), At(w, e, d);
      if w.endpoints[e].status == ACTIVE
        && (v.status == PENDING || v.status == RETRYING || (v.status == EXHAUSTED && v.redeliverUntil.Some? && now < v.redeliverUntil.value)) then
        && w'.phase == w.phase && OthersStay(w, w', e, d) && SameEndpoint(w, w', e) && Known(w', e, d)
        && At(w', e, d).status == PENDING && At(w', e, d).nextAttemptAt == Some(now) && At(w', e, d).redeliverUntil == None
        && SameDelivery(v, At(w', e, d)) && At(w', e, d).attempts == v.attempts && At(w', e, d).firstAttemptAt == v.firstAttemptAt
      else w' == w
  {
  }

  /** A new delivery comes last in its box, waits, and is due at the time of its event. */
  lemma EnqueueRecords(w: World, e: nat, run: RunId, eventSeq: nat, at: Instant, s: Settings)
    requires e < |w.endpoints|
    ensures var w', n := Next(w, Enqueue(e, run, eventSeq, at), s), |w.endpoints[e].box|;
      && w'.phase == w.phase && |w'.endpoints| == |w.endpoints|
      && (forall x :: 0 <= x < |w.endpoints| && x != e ==> w'.endpoints[x] == w.endpoints[x])
      && SameEndpoint(w, w', e) && |w'.endpoints[e].box| == n + 1 && w'.endpoints[e].box[..n] == w.endpoints[e].box
      && At(w', e, n).run == run && At(w', e, n).eventSeq == eventSeq && At(w', e, n).createdAt == at
      && At(w', e, n).status == PENDING && At(w', e, n).attempts == 0 && At(w', e, n).nextAttemptAt == Some(at)
      && At(w', e, n).firstAttemptAt == None && At(w', e, n).redeliverUntil == None
  {
  }

  lemma StatusRecords(w: World, e: nat, status: EndpointStatus, s: Settings)
    requires e < |w.endpoints|
    ensures var w' := Next(w, SetStatus(e, status), s);
      && w'.phase == w.phase && |w'.endpoints| == |w.endpoints|
      && (forall x :: 0 <= x < |w.endpoints| && x != e ==> w'.endpoints[x] == w.endpoints[x])
      && w'.endpoints[e].status == status && w'.endpoints[e].box == w.endpoints[e].box
  {
  }

  // ---------------------------------------------------------------- whole runs

  /** The step ends an attempt on this delivery with a success. */
  predicate Delivers(w: World, step: Step, e: nat, d: nat) {
    step == Succeed && w.phase == BUSY(e, d)
  }

  /** And this one ends it with nothing more to try. */
  predicate Exhausts(w: World, step: Step, s: Settings, e: nat, d: nat) {
    step.Fail? && w.phase == BUSY(e, d) && Known(w, e, d) && UsedUp(At(w, e, d), s, step.now)
  }

  /** A step makes a delivery delivered, or exhausted, exactly in these two ways. */
  lemma FinishesExactly(w: World, step: Step, s: Settings, e: nat, d: nat)
    requires BusyOk(w) && Known(w, e, d)
    ensures Known(Next(w, step, s), e, d)
    ensures At(w, e, d).status != SUCCEEDED ==> (At(Next(w, step, s), e, d).status == SUCCEEDED <==> Delivers(w, step, e, d))
    ensures At(w, e, d).status != EXHAUSTED ==> (At(Next(w, step, s), e, d).status == EXHAUSTED <==> Exhausts(w, step, s, e, d))
  {
    hide Pick, Due, Redeliverable;
    if step.Start? { StartIsKnown(w, step.now); }
    if step.Redeliver? && Redeliverable(w, step.endpoint, step.delivery, step.now) {
      RedeliverableIs(w, step.endpoint, step.delivery, step.now);
    }
  }

  ghost predicate Delivered(count: nat, steps: seq<Step>, k: nat, s: Settings, e: nat, d: nat) {
    k < |steps| && Delivers(After(count, steps, k, s), steps[k], e, d)
  }

  /** In any run a delivery is delivered exactly if some attempt on it ended with a success before. */
  lemma {:induction false} SucceededExactly(count: nat, steps: seq<Step>, k: nat, s: Settings, e: nat, d: nat)
    requires k <= |steps| && Known(After(count, steps, k, s), e, d)
    ensures At(After(count, steps, k, s), e, d).status == SUCCEEDED <==> exists j: nat :: j < k && Delivered(count, steps, j, s, e, d)
  {
    hide Next, Extra, Moves, Delivers;
    if k > 0 {
      var w := After(count, steps, k - 1, s);
      AlwaysBusyOk(count, steps, k - 1, s);
      if Known(w, e, d) {
        SucceededExactly(count, steps, k - 1, s, e, d);
        FinishesExactly(w, steps[k - 1], s, e, d);
        assert Delivered(count, steps, k - 1, s, e, d) <==> Delivers(w, steps[k - 1], e, d);
        if At(w, e, d).status == SUCCEEDED { SucceededStays(count, steps, k - 1, k, s, e, d); }
      } else {
        NewIsWithin(w, steps[k - 1], s, e, d);
        forall j: nat | j < k ensures !Delivered(count, steps, j, s, e, d) {
          if Delivered(count, steps, j, s, e, d) { DeliveredIsKnown(count, steps, j, k - 1, s, e, d); }
        }
      }
    }
  }

  lemma DeliveredIsKnown(count: nat, steps: seq<Step>, j: nat, k: nat, s: Settings, e: nat, d: nat)
    requires j <= k <= |steps| && Delivered(count, steps, j, s, e, d)
    ensures Known(After(count, steps, k, s), e, d)
  {
    hide Next;
    AlwaysBusyOk(count, steps, j, s);
    StaysKnown(count, steps, j, k, s, e, d);
  }

  lemma {:induction false} StaysKnown(count: nat, steps: seq<Step>, i: nat, k: nat, s: Settings, e: nat, d: nat)
    requires i <= k <= |steps| && Known(After(count, steps, i, s), e, d)
    ensures Known(After(count, steps, k, s), e, d)
    decreases k - i
  {
    hide Next, Known;
    if i < k {
      StaysKnown(count, steps, i, k - 1, s, e, d);
      AlwaysBusyOk(count, steps, k - 1, s);
      NextMoves(After(count, steps, k - 1, s), steps[k - 1], s, e, d);
    }
  }
}
