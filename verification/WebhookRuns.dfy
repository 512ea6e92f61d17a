/** The dispatcher over whole runs: attempts, failures, lost writes, crashes, recovery and manual redelivery. */
module WebhookRuns {
  import opened Wrappers
  import opened WebhookDispatch

  /** STOPPED until recovery is done; BUSY while the one attempt is under way. */
  datatype Phase = STOPPED | IDLE | BUSY(endpoint: nat, delivery: nat)

  datatype World = World(endpoints: seq<Endpoint>, phase: Phase)

  datatype Step =
    | Enqueue(endpoint: nat, run: RunId, eventSeq: nat, at: Instant)
    | Start(now: Instant)
    | Succeed
    | Fail(now: Instant, delay: nat, pauseFails: bool)
    | LoseWrite
    | Cancel(now: Instant)
    | Crash
    | RecoverOne(endpoint: nat, delivery: nat, now: Instant)
    | Boot(now: Instant)
    | Redeliver(endpoint: nat, delivery: nat, now: Instant)
    | SetStatus(endpoint: nat, status: EndpointStatus)

  // ---------------------------------------------------------------- the steps

  predicate Known(w: World, e: nat, d: nat) {
    e < |w.endpoints| && d < |w.endpoints[e].box|
  }

  function At(w: World, e: nat, d: nat): Delivery
    requires Known(w, e, d)
  {
    w.endpoints[e].box[d]
  }

  function Put(w: World, e: nat, d: nat, v: Delivery): World
    requires Known(w, e, d)
  {
    w.(endpoints := w.endpoints[e := w.endpoints[e].(box := w.endpoints[e].box[d := v])])
  }

  function Started(v: Delivery, now: Instant): Delivery {
    v.(status := DELIVERING, attempts := v.attempts + 1, nextAttemptAt := None,
       firstAttemptAt := if v.firstAttemptAt.Some? then v.firstAttemptAt else Some(now))
  }

  predicate IsExhausted(v: Delivery, s: Settings, now: Instant) {
    v.attempts >= s.maxAttempts || (if v.firstAttemptAt.Some? then v.firstAttemptAt.value else now) < now - s.maxAge
  }

  function RetryOrExhaust(w: World, e: nat, d: nat, s: Settings, now: Instant, delay: nat, pauseFails: bool): World
    requires Known(w, e, d)
  {
    var v := At(w, e, d);
    if IsExhausted(v, s, now) then
      var w' := Put(w, e, d, v.(status := EXHAUSTED, nextAttemptAt := None, redeliverUntil := Some(now + s.retention)));
      if pauseFails then w' else w'.(endpoints := w'.endpoints[e := w'.endpoints[e].(status := PAUSED_DELIVERY_FAILURES)])
    else Put(w, e, d, v.(status := RETRYING, nextAttemptAt := Some(now + delay)))
  }

  function Interrupted(v: Delivery, now: Instant): Delivery {
    if v.status == DELIVERING then v.(status := RETRYING, nextAttemptAt := Some(now)) else v
  }

  function RecoverBox(box: seq<Delivery>, now: Instant): (r: seq<Delivery>)
    ensures |r| == |box| && forall d :: 0 <= d < |box| ==> r[d] == Interrupted(box[d], now)
  {
    if box == [] then [] else RecoverBox(box[..|box| - 1], now) + [Interrupted(box[|box| - 1], now)]
  }

  function RecoverAll(endpoints: seq<Endpoint>, now: Instant): (r: seq<Endpoint>)
    ensures |r| == |endpoints|
    ensures forall e :: 0 <= e < |endpoints| ==> r[e] == endpoints[e].(box := RecoverBox(endpoints[e].box, now))
  {
    if endpoints == [] then []
    else
      var last := endpoints[|endpoints| - 1];
      RecoverAll(endpoints[..|endpoints| - 1], now) + [last.(box := RecoverBox(last.box, now))]
  }

  predicate Redeliverable(w: World, e: nat, d: nat, now: Instant) {
    && Known(w, e, d) && w.endpoints[e].status == ACTIVE
    && At(w, e, d).status in {PENDING, RETRYING, EXHAUSTED}
    && (At(w, e, d).status == EXHAUSTED ==> At(w, e, d).redeliverUntil.Some? && At(w, e, d).redeliverUntil.value > now)
  }

  predicate Attempting(w: World) {
    w.phase.BUSY? && Known(w, w.phase.endpoint, w.phase.delivery)
  }

  function Next(w: World, step: Step, s: Settings): World {
    match step
    case Enqueue(e, run, eventSeq, at) =>
      if e < |w.endpoints| then
        w.(endpoints := w.endpoints[e := w.endpoints[e].(box := w.endpoints[e].box +
             [Delivery(run, eventSeq, at, PENDING, 0, None, Some(at), None)])])
      else w
    case Start(now) =>
      (match if w.phase == IDLE then Pick(w.endpoints, 0, now) else None
       case None => w
       case Some((e, d)) => if Known(w, e, d) then Put(w, e, d, Started(At(w, e, d), now)).(phase := BUSY(e, d)) else w)
    case Succeed =>
      if Attempting(w) then
        var v := At(w, w.phase.endpoint, w.phase.delivery);
        Put(w, w.phase.endpoint, w.phase.delivery, v.(status := SUCCEEDED, nextAttemptAt := None)).(phase := IDLE)
      else w
    case Fail(now, delay, pauseFails) =>
      if Attempting(w) then RetryOrExhaust(w, w.phase.endpoint, w.phase.delivery, s, now, delay, pauseFails).(phase := IDLE) else w
    case LoseWrite => if Attempting(w) then w.(phase := IDLE) else w
    case Cancel(now) =>
      if Attempting(w) then
        var v := At(w, w.phase.endpoint, w.phase.delivery);
        Put(w, w.phase.endpoint, w.phase.delivery, v.(status := RETRYING, nextAttemptAt := Some(now))).(phase := STOPPED)
      else w.(phase := STOPPED)
    case Crash => w.(phase := STOPPED)
    case RecoverOne(e, d, now) => if w.phase == STOPPED && Known(w, e, d) then Put(w, e, d, Interrupted(At(w, e, d), now)) else w
    case Boot(now) => if w.phase == STOPPED then World(RecoverAll(w.endpoints, now), IDLE) else w
    case Redeliver(e, d, now) =>
      if Redeliverable(w, e, d, now) then
        Put(w, e, d, At(w, e, d).(status := PENDING, nextAttemptAt := Some(now), redeliverUntil := None))
      else w
    case SetStatus(e, status) =>
      if e < |w.endpoints| then w.(endpoints := w.endpoints[e := w.endpoints[e].(status := status)]) else w
  }

  function First(count: nat): World {
    World(seq(count, i => Endpoint(ACTIVE, [])), STOPPED)
  }

  ghost function After(count: nat, steps: seq<Step>, k: nat, s: Settings): World
    requires k <= |steps|
  {
    if k == 0 then First(count) else Next(After(count, steps, k - 1, s), steps[k - 1], s)
  }

  // ---------------------------------------------------------------- what one step does to one delivery

  predicate SameDelivery(v: Delivery, v': Delivery) {
    v.run == v'.run && v.eventSeq == v'.eventSeq && v.createdAt == v'.createdAt
  }

  /** Accepted redeliveries and interruptions: the two things that give a delivery one more attempt. */
  function Extra(w: World, step: Step, e: nat, d: nat): nat {
    if !Known(w, e, d) then 0
    else
      match step
      case Redeliver(e', d', now) => if e' == e && d' == d && Redeliverable(w, e, d, now) then 1 else 0
      case RecoverOne(e', d', now) => if w.phase == STOPPED && e' == e && d' == d && At(w, e, d).status == DELIVERING then 1 else 0
      case Boot(now) => if w.phase == STOPPED && At(w, e, d).status == DELIVERING then 1 else 0
      case Cancel(now) => if w.phase == BUSY(e, d) then 1 else 0
      case _ => 0
  }

  /** How a delivery may change in one step. */
  predicate Moves(v: Delivery, v': Delivery, s: Settings, extra: nat) {
    && SameDelivery(v, v')
    && (|| (v'.status == v.status && v'.attempts == v.attempts)
        || (Waiting(v.status) && v'.status == DELIVERING && v'.attempts == v.attempts + 1)
        || (v.status == DELIVERING && v'.status in {SUCCEEDED, EXHAUSTED} && v'.attempts == v.attempts)
        || (v.status == DELIVERING && v'.status == RETRYING && v'.attempts == v.attempts && (extra == 1 || v.attempts < s.maxAttempts))
        || (v.status in {PENDING, RETRYING, EXHAUSTED} && v'.status == PENDING && v'.attempts == v.attempts && extra == 1))
  }

  /** The delivery under way is marked as such. */
  predicate BusyOk(w: World) {
    w.phase.BUSY? ==> Known(w, w.phase.endpoint, w.phase.delivery) && At(w, w.phase.endpoint, w.phase.delivery).status == DELIVERING
  }

  lemma StartIsKnown(w: World, now: Instant)
    ensures match Pick(w.endpoints, 0, now)
      case Some((e, d)) => Known(w, e, d) && Waiting(At(w, e, d).status) && w.endpoints[e].status == ACTIVE
      case None => true
  {
    PickIsExact(w.endpoints, 0, now);
    hide Pick;
  }

  lemma NextMoves(w: World, step: Step, s: Settings, e: nat, d: nat)
    requires BusyOk(w) && Known(w, e, d)
    ensures Known(Next(w, step, s), e, d) && Moves(At(w, e, d), At(Next(w, step, s), e, d), s, Extra(w, step, e, d))
  {
    hide Pick, Due, Redeliverable;
    if step.Start? { StartIsKnown(w, step.now); }
    if step.Redeliver? && Redeliverable(w, step.endpoint, step.delivery, step.now) {
      RedeliverableIs(w, step.endpoint, step.delivery, step.now);
    }
  }

  lemma RedeliverableIs(w: World, e: nat, d: nat, now: Instant)
    requires Redeliverable(w, e, d, now)
    ensures Known(w, e, d) && At(w, e, d).status in {PENDING, RETRYING, EXHAUSTED}
  {
  }

  lemma NextKeepsBusyOk(w: World, step: Step, s: Settings)
    requires BusyOk(w)
    ensures BusyOk(Next(w, step, s)) && |Next(w, step, s).endpoints| == |w.endpoints|
  {
    hide Pick, Due, Redeliverable;
    if step.Start? { StartIsKnown(w, step.now); }
    if step.Redeliver? && Redeliverable(w, step.endpoint, step.delivery, step.now) {
      RedeliverableIs(w, step.endpoint, step.delivery, step.now);
    }
  }

  lemma {:induction false} AlwaysBusyOk(count: nat, steps: seq<Step>, k: nat, s: Settings)
    requires k <= |steps|
    ensures BusyOk(After(count, steps, k, s)) && |After(count, steps, k, s).endpoints| == count
  {
    hide Next;
    if k > 0 {
      AlwaysBusyOk(count, steps, k - 1, s);
      NextKeepsBusyOk(After(count, steps, k - 1, s), steps[k - 1], s);
    }
  }

  // ---------------------------------------------------------------- the bound on attempts

  function Allowed(s: Settings): nat {
    if s.maxAttempts >= 1 then s.maxAttempts else 1
  }

  ghost function Extras(count: nat, steps: seq<Step>, k: nat, s: Settings, e: nat, d: nat): nat
    requires k <= |steps|
  {
    if k == 0 then 0 else Extras(count, steps, k - 1, s, e, d) + Extra(After(count, steps, k - 1, s), steps[k - 1], e, d)
  }

  predicate Within(v: Delivery, bound: nat) {
    if Waiting(v.status) then v.attempts < bound else v.attempts <= bound
  }

  lemma MovesKeepWithin(v: Delivery, v': Delivery, s: Settings, extra: nat, bound: nat)
    requires Moves(v, v', s, extra) && Within(v, bound) && bound >= Allowed(s)
    ensures Within(v', bound + extra)
  {
  }

  lemma NewIsWithin(w: World, step: Step, s: Settings, e: nat, d: nat)
    requires BusyOk(w) && !Known(w, e, d) && Known(Next(w, step, s), e, d)
    ensures var v := At(Next(w, step, s), e, d);
      && e < |w.endpoints| && step == Enqueue(e, v.run, v.eventSeq, v.createdAt) && v.status == PENDING && v.attempts == 0 && d == |w.endpoints[e].box|
  {
    hide Pick, Due, Redeliverable;
    if step.Start? { StartIsKnown(w, step.now); }
    if step.Redeliver? && Redeliverable(w, step.endpoint, step.delivery, step.now) {
      RedeliverableIs(w, step.endpoint, step.delivery, step.now);
    }
  }

  /**
    Attempts on a delivery never exceed the configured maximum plus one for every accepted
    redelivery and every interrupted attempt, in any run of the dispatcher.
  */
  lemma {:induction false} AttemptsAreBounded(count: nat, steps: seq<Step>, k: nat, s: Settings, e: nat, d: nat)
    requires k <= |steps| && Known(After(count, steps, k, s), e, d)
    ensures Within(At(After(count, steps, k, s), e, d), Allowed(s) + Extras(count, steps, k, s, e, d))
  {
    hide Next, Moves, Within, Extra;
    if k > 0 {
      var w := After(count, steps, k - 1, s);
      AlwaysBusyOk(count, steps, k - 1, s);
      if Known(w, e, d) {
        AttemptsAreBounded(count, steps, k - 1, s, e, d);
        NextMoves(w, steps[k - 1], s, e, d);
        MovesKeepWithin(At(w, e, d), At(Next(w, steps[k - 1], s), e, d), s, Extra(w, steps[k - 1], e, d),
                        Allowed(s) + Extras(count, steps, k - 1, s, e, d));
      } else {
        NewIsWithin(w, steps[k - 1], s, e, d);
        FreshIsWithin(At(Next(w, steps[k - 1], s), e, d), Allowed(s) + Extras(count, steps, k, s, e, d));
      }
    }
  }

  lemma FreshIsWithin(v: Delivery, bound: nat)
    requires v.attempts == 0 && bound >= 1
    ensures Within(v, bound)
  {
  }

  /** A delivery that succeeded is never attempted or changed again. */
  lemma {:induction false} SucceededStays(count: nat, steps: seq<Step>, i: nat, k: nat, s: Settings, e: nat, d: nat)
    requires i <= k <= |steps| && Known(After(count, steps, i, s), e, d) && At(After(count, steps, i, s), e, d).status == SUCCEEDED
    ensures Known(After(count, steps, k, s), e, d)
    ensures At(After(count, steps, k, s), e, d).status == SUCCEEDED
    ensures At(After(count, steps, k, s), e, d).attempts == At(After(count, steps, i, s), e, d).attempts
    decreases k - i
  {
    hide Next, Extra;
    if i < k {
      SucceededStays(count, steps, i, k - 1, s, e, d);
      AlwaysBusyOk(count, steps, k - 1, s);
      NextMoves(After(count, steps, k - 1, s), steps[k - 1], s, e, d);
    }
  }

  // ---------------------------------------------------------------- one attempt at a time

  function Underway(w: World): set<(nat, nat)> {
    set e: nat, d: nat | e < |w.endpoints| && d < |w.endpoints[e].box| && w.endpoints[e].box[d].status == DELIVERING :: (e, d)
  }

  /** Final writes lost since the dispatcher was last started. */
  ghost function Lost(count: nat, steps: seq<Step>, k: nat, s: Settings): nat
    requires k <= |steps|
  {
    if k == 0 then 0
    else
      var w := After(count, steps, k - 1, s);
      if steps[k - 1].Boot? && w.phase == STOPPED then 0
      else if steps[k - 1].LoseWrite? && Attempting(w) then Lost(count, steps, k - 1, s) + 1
      else Lost(count, steps, k - 1, s)
  }

  /** The delivery of the attempt in progress. */
  function Current(w: World): set<(nat, nat)> {
    if w.phase.BUSY? then {(w.phase.endpoint, w.phase.delivery)} else {}
  }

  /** Deliveries marked as under way although no attempt on them is, followed from step to step. */
  function Abandons(w: World, step: Step, before: set<(nat, nat)>): set<(nat, nat)> {
    match step
    case Boot(_) => if w.phase == STOPPED then {} else before
    case LoseWrite => before + Current(w)
    case Crash => before + Current(w)
    case RecoverOne(e, d, _) => if w.phase == STOPPED then before - {(e, d)} else before
    case _ => before
  }

  ghost function Abandoned(count: nat, steps: seq<Step>, k: nat, s: Settings): set<(nat, nat)>
    requires k <= |steps|
  {
    if k == 0 then {} else Abandons(After(count, steps, k - 1, s), steps[k - 1], Abandoned(count, steps, k - 1, s))
  }

  predicate IsUnderway(w: World, e: nat, d: nat) {
    Known(w, e, d) && At(w, e, d).status == DELIVERING
  }

  lemma UnderwayIs(w: World, e: nat, d: nat)
    ensures (e, d) in Underway(w) <==> IsUnderway(w, e, d)
  {
  }

  lemma PutIs(w: World, e: nat, d: nat, v: Delivery, x: nat, y: nat)
    requires Known(w, e, d)
    ensures IsUnderway(Put(w, e, d, v), x, y) <==> if (x, y) == (e, d) then v.status == DELIVERING else IsUnderway(w, x, y)
    ensures Put(w, e, d, v).phase == w.phase
  {
  }

  lemma StatusIs(w: World, e: nat, status: EndpointStatus, x: nat, y: nat)
    requires e < |w.endpoints|
    ensures IsUnderway(w.(endpoints := w.endpoints[e := w.endpoints[e].(status := status)]), x, y) <==> IsUnderway(w, x, y)
  {
  }

  lemma PhaseIs(w: World, phase: Phase, x: nat, y: nat)
    ensures IsUnderway(w.(phase := phase), x, y) <==> IsUnderway(w, x, y)
  {
  }

  lemma RetryIs(w: World, e: nat, d: nat, s: Settings, now: Instant, delay: nat, pauseFails: bool, x: nat, y: nat)
    requires Known(w, e, d)
    ensures IsUnderway(RetryOrExhaust(w, e, d, s, now, delay, pauseFails), x, y) <==> (x, y) != (e, d) && IsUnderway(w, x, y)
  {
    var v := At(w, e, d);
    var gone := Put(w, e, d, v.(status := EXHAUSTED, nextAttemptAt := None, redeliverUntil := Some(now + s.retention)));
    PutIs(w, e, d, v.(status := EXHAUSTED, nextAttemptAt := None, redeliverUntil := Some(now + s.retention)), x, y);
    PutIs(w, e, d, v.(status := RETRYING, nextAttemptAt := Some(now + delay)), x, y);
    StatusIs(gone, e, PAUSED_DELIVERY_FAILURES, x, y);
    hide Put, IsUnderway;
  }

  lemma BootIs(w: World, now: Instant, x: nat, y: nat)
    ensures !IsUnderway(World(RecoverAll(w.endpoints, now), IDLE), x, y)
  {
    var w' := World(RecoverAll(w.endpoints, now), IDLE);
    if Known(w', x, y) { assert At(w', x, y) == Interrupted(At(w, x, y), now); }
    hide RecoverAll, RecoverBox;
  }

  lemma EnqueueIs(w: World, e: nat, v: Delivery, x: nat, y: nat)
    requires e < |w.endpoints| && v.status == PENDING
    ensures IsUnderway(w.(endpoints := w.endpoints[e := w.endpoints[e].(box := w.endpoints[e].box + [v])]), x, y) <==> IsUnderway(w, x, y)
  {
  }

  /** The deliveries under way after a step: those left over by then, and the one of the attempt in progress. */
  predicate Accounted(w: World, left: set<(nat, nat)>, x: nat, y: nat) {
    && (IsUnderway(w, x, y) <==> (x, y) in left || (x, y) in Current(w))
    && ((x, y) in Current(w) ==> (x, y) !in left)
  }

  lemma NextIsAccounted(w: World, step: Step, s: Settings, left: set<(nat, nat)>, x: nat, y: nat)
    requires BusyOk(w) && forall e: nat, d: nat :: Accounted(w, left, e, d)
    ensures Accounted(Next(w, step, s), Abandons(w, step, left), x, y)
  {
    assert Accounted(w, left, x, y);
    hide Pick, Due, Redeliverable, Put, IsUnderway, Known, RetryOrExhaust, RecoverAll, RecoverBox, IsExhausted;
    match step {
      case Enqueue(e, run, n, at) =>
        if e < |w.endpoints| { EnqueueIs(w, e, Delivery(run, n, at, PENDING, 0, None, Some(at), None), x, y); }
      case Start(now) => StartIsAccounted(w, now, s, left, x, y);
      case Succeed => EndIsAccounted(w, step, s, left, x, y);
      case Fail(_, _, _) => EndIsAccounted(w, step, s, left, x, y);
      case Cancel(_) => EndIsAccounted(w, step, s, left, x, y);
      case LoseWrite => LossIsAccounted(w, step, s, left, x, y);
      case Crash => LossIsAccounted(w, step, s, left, x, y);
      case RecoverOne(e, d, now) => RecoveryIsAccounted(w, step, s, left, x, y);
      case Boot(now) => BootIs(w, now, x, y);
      case Redeliver(e, d, now) => RedeliveryIsAccounted(w, step, s, left, x, y);
      case SetStatus(e, status) => if e < |w.endpoints| { StatusIs(w, e, status, x, y); }
    }
  }

  lemma StartIsAccounted(w: World, now: Instant, s: Settings, left: set<(nat, nat)>, x: nat, y: nat)
    requires BusyOk(w) && forall e: nat, d: nat :: Accounted(w, left, e, d)
    ensures Accounted(Next(w, Start(now), s), left, x, y)
  {
    hide Pick, Due, Put;
    assert Accounted(w, left, x, y);
    StartIsKnown(w, now);
    if w.phase == IDLE && Pick(w.endpoints, 0, now).Some? {
      var (e, d) := Pick(w.endpoints, 0, now).value;
      PutIs(w, e, d, Started(At(w, e, d), now), x, y);
      PhaseIs(Put(w, e, d, Started(At(w, e, d), now)), BUSY(e, d), x, y);
      assert Accounted(w, left, e, d);
    }
  }

  lemma EndIsAccounted(w: World, step: Step, s: Settings, left: set<(nat, nat)>, x: nat, y: nat)
    requires BusyOk(w) && Accounted(w, left, x, y) && (step.Succeed? || step.Fail? || step.Cancel?)
    ensures Accounted(Next(w, step, s), left, x, y)
  {
    hide Put, RetryOrExhaust;
    if w.phase.BUSY? {
      var e, d := w.phase.endpoint, w.phase.delivery;
      var v := At(w, e, d);
      match step {
        case Succeed =>
          PutIs(w, e, d, v.(status := SUCCEEDED, nextAttemptAt := None), x, y);
        case Fail(now, delay, pauseFails) =>
          RetryIs(w, e, d, s, now, delay, pauseFails, x, y);
        case Cancel(now) =>
          PutIs(w, e, d, v.(status := RETRYING, nextAttemptAt := Some(now)), x, y);
      }
    }
  }

  lemma LossIsAccounted(w: World, step: Step, s: Settings, left: set<(nat, nat)>, x: nat, y: nat)
    requires BusyOk(w) && Accounted(w, left, x, y) && (step.LoseWrite? || step.Crash?)
    ensures Accounted(Next(w, step, s), Abandons(w, step, left), x, y)
  {
  }

  lemma RecoveryIsAccounted(w: World, step: Step, s: Settings, left: set<(nat, nat)>, x: nat, y: nat)
    requires BusyOk(w) && Accounted(w, left, x, y) && step.RecoverOne?
    ensures Accounted(Next(w, step, s), Abandons(w, step, left), x, y)
  {
    hide Put;
    if Known(w, step.endpoint, step.delivery) {
      PutIs(w, step.endpoint, step.delivery, Interrupted(At(w, step.endpoint, step.delivery), step.now), x, y);
    }
  }

  lemma RedeliveryIsAccounted(w: World, step: Step, s: Settings, left: set<(nat, nat)>, x: nat, y: nat)
    requires BusyOk(w) && Accounted(w, left, x, y) && step.Redeliver?
    ensures Accounted(Next(w, step, s), left, x, y)
  {
    hide Put, Redeliverable;
    var e, d, now := step.endpoint, step.delivery, step.now;
    if Redeliverable(w, e, d, now) {
      RedeliverableIs(w, e, d, now);
      PutIs(w, e, d, At(w, e, d).(status := PENDING, nextAttemptAt := Some(now), redeliverUntil := None), x, y);
    }
  }

  lemma {:induction false} AlwaysAccounted(count: nat, steps: seq<Step>, k: nat, s: Settings)
    requires k <= |steps|
    ensures forall e: nat, d: nat :: Accounted(After(count, steps, k, s), Abandoned(count, steps, k, s), e, d)
  {
    hide Next, Accounted, Abandons, BusyOk;
    if k == 0 {
      forall e: nat, d: nat ensures Accounted(After(count, steps, 0, s), {}, e, d) { NothingUnderway(count, e, d); }
    } else {
      AlwaysAccounted(count, steps, k - 1, s);
      AlwaysBusyOk(count, steps, k - 1, s);
      forall e: nat, d: nat ensures Accounted(After(count, steps, k, s), Abandoned(count, steps, k, s), e, d) {
        NextIsAccounted(After(count, steps, k - 1, s), steps[k - 1], s, Abandoned(count, steps, k - 1, s), e, d);
      }
    }
  }

  lemma NothingUnderway(count: nat, e: nat, d: nat)
    ensures Accounted(First(count), {}, e, d)
  {
  }

  /**
    The deliveries marked as under way are the one of the attempt in progress, and those whose
    attempt ended without its outcome being written and that no recovery has put back since.
  */
  lemma UnderwayExactly(count: nat, steps: seq<Step>, k: nat, s: Settings)
    requires k <= |steps|
    ensures var w := After(count, steps, k, s);
      && Underway(w) == Abandoned(count, steps, k, s) + Current(w)
      && Abandoned(count, steps, k, s) * Current(w) == {}
      && |Underway(w)| == |Abandoned(count, steps, k, s)| + if w.phase.BUSY? then 1 else 0
  {
    hide Next, IsUnderway, After, Abandoned;
    AlwaysAccounted(count, steps, k, s);
    var w, left := After(count, steps, k, s), Abandoned(count, steps, k, s);
    forall p | p in Underway(w) ensures p in left + Current(w) {
      UnderwayIs(w, p.0, p.1);
      assert Accounted(w, left, p.0, p.1);
    }
    forall p: (nat, nat) | p in left + Current(w) ensures p in Underway(w) && !(p in left && p in Current(w)) {
      UnderwayIs(w, p.0, p.1);
      assert Accounted(w, left, p.0, p.1);
    }
    assert Underway(w) == left + Current(w);
    assert left * Current(w) == {};
  }

  lemma StoppedStays(w: World, step: Step, s: Settings)
    requires w.phase == STOPPED && !step.Boot?
    ensures Next(w, step, s).phase == STOPPED
  {
    hide Pick, RetryOrExhaust, RecoverAll;
  }

  /** While the dispatcher is not stopped, what is left over is one delivery for each final write lost since it was started. */
  lemma {:induction false} LeftoversAreLosses(count: nat, steps: seq<Step>, k: nat, s: Settings)
    requires k <= |steps| && After(count, steps, k, s).phase != STOPPED
    ensures |Abandoned(count, steps, k, s)| == Lost(count, steps, k, s)
  {
    hide Underway, Next, Abandons, Attempting, BusyOk;
    if k > 0 {
      var w := After(count, steps, k - 1, s);
      AlwaysBusyOk(count, steps, k - 1, s);
      if w.phase != STOPPED { LeftoversAreLosses(count, steps, k - 1, s); }
      UnderwayExactly(count, steps, k - 1, s);
      NextLoses(w, steps[k - 1], s, Abandoned(count, steps, k - 1, s));
    } else {
      assert false;
    }
  }

  lemma NextLoses(w: World, step: Step, s: Settings, left: set<(nat, nat)>)
    requires BusyOk(w) && left * Current(w) == {} && Next(w, step, s).phase != STOPPED
    ensures |Abandons(w, step, left)| ==
      if step.Boot? && w.phase == STOPPED then 0 else if step.LoseWrite? && Attempting(w) then |left| + 1 else |left|
    ensures w.phase == STOPPED ==> step.Boot?
  {
    hide Pick, Put, RetryOrExhaust, RecoverAll, Redeliverable;
    if w.phase == STOPPED && !step.Boot? { StoppedStays(w, step, s); }
    if step.LoseWrite? {
      assert |left + Current(w)| == |left| + |Current(w)|;
    }
  }

  /**
    While the dispatcher is not stopped, after any crashes and recoveries before, exactly one
    delivery is under way for the attempt in progress and one for each final write lost since the start.
  */
  lemma OneAtATime(count: nat, steps: seq<Step>, k: nat, s: Settings)
    requires k <= |steps| && After(count, steps, k, s).phase != STOPPED
    ensures var w := After(count, steps, k, s);
      |Underway(w)| == Lost(count, steps, k, s) + if w.phase.BUSY? then 1 else 0
  {
    hide Underway, Next, After, Abandoned, Lost;
    UnderwayExactly(count, steps, k, s);
    LeftoversAreLosses(count, steps, k, s);
  }

  const LOSING := [Boot(0), Enqueue(0, "a", 1, 0), Enqueue(0, "b", 1, 30), Start(20), LoseWrite, Start(40)]

  /** A lost final write does leave two under way. */
  lemma TwoUnderway(s: Settings)
    ensures var w := After(1, LOSING, 6, s);
      && w.phase == BUSY(0, 1) && Underway(w) == {(0, 0), (0, 1)} && |Underway(w)| == 2 && Lost(1, LOSING, 6, s) == 1
  {
    hide Pick;
    var a, b := Delivery("a", 1, 0, PENDING, 0, None, Some(0), None), Delivery("b", 1, 30, PENDING, 0, None, Some(30), None);
    var w0, w1 := After(1, LOSING, 0, s), After(1, LOSING, 1, s);
    assert w1 == Next(w0, Boot(0), s);
    assert w1.endpoints[0].box == [] && w1.phase == IDLE && |w1.endpoints| == 1 && w1.endpoints[0].status == ACTIVE;
    var w2 := Next(w1, Enqueue(0, "a", 1, 0), s);
    var w3 := Next(w2, Enqueue(0, "b", 1, 30), s);
    assert w3.endpoints[0].box == [a, b];
    assert w3 == World([Endpoint(ACTIVE, [a, b])], IDLE);
    FirstOfTwo(w3.endpoints, a, b);
    var w4 := World([Endpoint(ACTIVE, [Started(a, 20), b])], BUSY(0, 0));
    assert [a, b][0 := Started(a, 20)] == [Started(a, 20), b];
    assert Next(w3, Start(20), s) == w4;
    var w5 := World([Endpoint(ACTIVE, [Started(a, 20), b])], IDLE);
    assert Next(w4, LoseWrite, s) == w5;
    OtherOfTwo(w5.endpoints, Started(a, 20), b);
    var w6 := World([Endpoint(ACTIVE, [Started(a, 20), Started(b, 40)])], BUSY(0, 1));
    assert [Started(a, 20), b][1 := Started(b, 40)] == [Started(a, 20), Started(b, 40)];
    assert Next(w5, Start(40), s) == w6;
    LosingRun(s, w0, w1, w2, w3, w4, w5);
    assert Underway(w6) == {(0, 0), (0, 1)};
  }

  lemma LosingRun(s: Settings, w0: World, w1: World, w2: World, w3: World, w4: World, w5: World)
    requires w0 == First(1) && w1 == Next(w0, LOSING[0], s) && w2 == Next(w1, LOSING[1], s) && w3 == Next(w2, LOSING[2], s)
    requires w4 == Next(w3, LOSING[3], s) && w5 == Next(w4, LOSING[4], s) && Attempting(w4) && !Attempting(w3)
    ensures After(1, LOSING, 6, s) == Next(w5, LOSING[5], s) && Lost(1, LOSING, 6, s) == 1
  {
    hide Next, Attempting;
    assert After(1, LOSING, 0, s) == w0;
    assert After(1, LOSING, 1, s) == w1;
    assert After(1, LOSING, 2, s) == w2;
    assert After(1, LOSING, 3, s) == w3;
    assert After(1, LOSING, 4, s) == w4;
    assert After(1, LOSING, 5, s) == w5;
    assert Lost(1, LOSING, 1, s) == 0;
    assert Lost(1, LOSING, 3, s) == 0;
    assert Lost(1, LOSING, 5, s) == 1;
  }

  lemma FirstOfTwo(endpoints: seq<Endpoint>, a: Delivery, b: Delivery)
    requires endpoints == [Endpoint(ACTIVE, [a, b])]
    requires a == Delivery("a", 1, 0, PENDING, 0, None, Some(0), None) && b == Delivery("b", 1, 30, PENDING, 0, None, Some(30), None)
    ensures Pick(endpoints, 0, 20) == Some((0, 0))
  {
    PickIsExact(endpoints, 0, 20);
    var box := endpoints[0].box;
    assert Eligible(box, 0, 20);
    assert !Eligible(box, 1, 20);
    hide Pick;
  }

  lemma OtherOfTwo(endpoints: seq<Endpoint>, a: Delivery, b: Delivery)
    requires endpoints == [Endpoint(ACTIVE, [a, b])]
    requires a.run == "a" && a.status == DELIVERING && b == Delivery("b", 1, 30, PENDING, 0, None, Some(30), None) && a.createdAt == 0
    ensures Pick(endpoints, 0, 40) == Some((0, 1))
  {
    PickIsExact(endpoints, 0, 40);
    var box := endpoints[0].box;
    assert "a"[0] != "b"[0];
    assert Eligible(box, 1, 40);
    assert !Eligible(box, 0, 40);
    hide Pick;
  }

  // ---------------------------------------------------------------- order

  predicate SameStream(a: Step, b: Step) {
    a.Enqueue? && b.Enqueue? && a.endpoint == b.endpoint && a.run == b.run
  }

  /** Events of a run are enqueued for an endpoint in log order. */
  ghost predicate InLogOrder(steps: seq<Step>) {
    forall i, j :: 0 <= i < j < |steps| && SameStream(steps[i], steps[j]) ==> steps[i].eventSeq < steps[j].eventSeq
  }

  /** And their times do not go back. */
  ghost predicate Chronological(steps: seq<Step>) {
    InLogOrder(steps) && forall i, j :: 0 <= i < j < |steps| && SameStream(steps[i], steps[j]) ==> steps[i].at <= steps[j].at
  }

  ghost predicate From(steps: seq<Step>, k: nat, e: nat, v: Delivery) {
    exists i :: 0 <= i < k <= |steps| && steps[i] == Enqueue(e, v.run, v.eventSeq, v.createdAt)
  }

  lemma {:induction false} DeliveriesAreEnqueued(count: nat, steps: seq<Step>, k: nat, s: Settings, e: nat, d: nat)
    requires k <= |steps| && Known(After(count, steps, k, s), e, d)
    ensures From(steps, k, e, At(After(count, steps, k, s), e, d))
  {
    hide Next, Extra;
    if k > 0 {
      var w := After(count, steps, k - 1, s);
      AlwaysBusyOk(count, steps, k - 1, s);
      var v := At(After(count, steps, k, s), e, d);
      if Known(w, e, d) {
        DeliveriesAreEnqueued(count, steps, k - 1, s, e, d);
        NextMoves(w, steps[k - 1], s, e, d);
        var i :| 0 <= i < k - 1 && steps[i] == Enqueue(e, At(w, e, d).run, At(w, e, d).eventSeq, At(w, e, d).createdAt);
        assert steps[i] == Enqueue(e, v.run, v.eventSeq, v.createdAt);
      } else {
        NewIsWithin(w, steps[k - 1], s, e, d);
        assert steps[k - 1] == Enqueue(e, v.run, v.eventSeq, v.createdAt);
      }
    }
  }

  /** A box lists the deliveries of a run in the order of their events, and of their times if these do not go back. */
  lemma {:induction false} BoxesAreInOrder(count: nat, steps: seq<Step>, k: nat, s: Settings, e: nat, c: nat, d: nat)
    requires k <= |steps| && InLogOrder(steps) && c < d && Known(After(count, steps, k, s), e, d)
    requires At(After(count, steps, k, s), e, c).run == At(After(count, steps, k, s), e, d).run
    ensures var w := After(count, steps, k, s);
      At(w, e, c).eventSeq < At(w, e, d).eventSeq && (Chronological(steps) ==> At(w, e, c).createdAt <= At(w, e, d).createdAt)
  {
    hide Next, Chronological, InLogOrder, Extra, Moves, From;
    if k > 0 {
      var w := After(count, steps, k - 1, s);
      AlwaysBusyOk(count, steps, k - 1, s);
      if Known(w, e, d) {
        NextMoves(w, steps[k - 1], s, e, c);
        NextMoves(w, steps[k - 1], s, e, d);
        MovesAreSame(At(w, e, c), At(After(count, steps, k, s), e, c), s, Extra(w, steps[k - 1], e, c));
        MovesAreSame(At(w, e, d), At(After(count, steps, k, s), e, d), s, Extra(w, steps[k - 1], e, d));
        BoxesAreInOrder(count, steps, k - 1, s, e, c, d);
      } else {
        NewIsWithin(w, steps[k - 1], s, e, d);
        NextMoves(w, steps[k - 1], s, e, c);
        MovesAreSame(At(w, e, c), At(After(count, steps, k, s), e, c), s, Extra(w, steps[k - 1], e, c));
        DeliveriesAreEnqueued(count, steps, k - 1, s, e, c);
        LaterEnqueued(steps, k - 1, e, At(w, e, c), At(After(count, steps, k, s), e, d));
      }
    }
  }

  lemma MovesAreSame(v: Delivery, v': Delivery, s: Settings, extra: nat)
    requires Moves(v, v', s, extra)
    ensures SameDelivery(v, v')
  {
  }

  lemma LaterEnqueued(steps: seq<Step>, k: nat, e: nat, earlier: Delivery, v: Delivery)
    requires k < |steps| && InLogOrder(steps) && From(steps, k, e, earlier) && v.run == earlier.run
    requires steps[k] == Enqueue(e, v.run, v.eventSeq, v.createdAt)
    ensures earlier.eventSeq < v.eventSeq && (Chronological(steps) ==> earlier.createdAt <= v.createdAt)
  {
  }

  /**
    Whenever an attempt on a delivery starts, every delivery of the same run at the same endpoint
    for an earlier event has succeeded or is exhausted: after any failures, crashes, recoveries and
    redeliveries before.
  */
  lemma AttemptsStartInOrder(count: nat, steps: seq<Step>, k: nat, s: Settings, e: nat, c: nat, d: nat)
    requires k < |steps| && Chronological(steps) && steps[k].Start?
    requires var w := After(count, steps, k, s); w.phase == IDLE && Pick(w.endpoints, 0, steps[k].now) == Some((e, d))
    requires Known(After(count, steps, k, s), e, c) && Known(After(count, steps, k, s), e, d)
    requires var w := After(count, steps, k, s); At(w, e, c).run == At(w, e, d).run && At(w, e, c).eventSeq < At(w, e, d).eventSeq
    ensures At(After(count, steps, k, s), e, c).status in {SUCCEEDED, EXHAUSTED}
    ensures After(count, steps, k + 1, s).phase == BUSY(e, d)
  {
    hide InLogOrder, Pick, Due;
    var w := After(count, steps, k, s);
    if d < c {
      BoxesAreInOrder(count, steps, k, s, e, d, c);
      assert false;
    }
    BoxesAreInOrder(count, steps, k, s, e, c, d);
    OvertakenExactly(count, steps, k, s, e, c, d);
    assert !Overtaken(w, e, c, d);
    FinishedStatuses(At(w, e, c).status);
  }

  /** An unfinished delivery of the same run at the same endpoint, for an earlier event. */
  predicate Overtaken(w: World, e: nat, c: nat, d: nat) {
    && Known(w, e, c) && Known(w, e, d)
    && At(w, e, c).run == At(w, e, d).run && At(w, e, c).eventSeq < At(w, e, d).eventSeq
    && Unfinished(At(w, e, c).status)
  }

  /** An unfinished delivery of the same run at the same endpoint, enqueued before but with a later time. */
  predicate TimedLater(w: World, e: nat, c: nat, d: nat) {
    && c < d && Known(w, e, c) && Known(w, e, d)
    && At(w, e, c).run == At(w, e, d).run && At(w, e, c).createdAt > At(w, e, d).createdAt
    && Unfinished(At(w, e, c).status)
  }

  /**
    An attempt overtakes earlier events of its run exactly where an unfinished one was given a later
    time than the event attempted; nothing else can put the attempts out of order.
  */
  lemma OvertakenExactly(count: nat, steps: seq<Step>, k: nat, s: Settings, e: nat, c: nat, d: nat)
    requires k < |steps| && InLogOrder(steps) && steps[k].Start?
    requires var w := After(count, steps, k, s); w.phase == IDLE && Pick(w.endpoints, 0, steps[k].now) == Some((e, d))
    ensures Overtaken(After(count, steps, k, s), e, c, d) <==> TimedLater(After(count, steps, k, s), e, c, d)
  {
    hide InLogOrder, Pick, Eligible, After;
    var w := After(count, steps, k, s);
    PickIsExact(w.endpoints, 0, steps[k].now);
    StartIsKnown(w, steps[k].now);
    if Known(w, e, c) && At(w, e, c).run == At(w, e, d).run && Unfinished(At(w, e, c).status) {
      if c < d { EligibleIsFirst(w.endpoints[e].box, c, d, steps[k].now); BoxesAreInOrder(count, steps, k, s, e, c, d); }
      if d < c { BoxesAreInOrder(count, steps, k, s, e, d, c); }
    }
  }

  lemma EligibleIsFirst(box: seq<Delivery>, c: nat, d: nat, now: Instant)
    requires Eligible(box, d, now) && c < |box| && box[c].run == box[d].run && Unfinished(box[c].status) && c < d
    ensures box[c].createdAt > box[d].createdAt
  {
    assert !Before(box, c, d);
    hide Due;
  }

  lemma FinishedStatuses(status: Status)
    requires !Unfinished(status)
    ensures status in {SUCCEEDED, EXHAUSTED}
  {
    match status
    case _ =>
  }

  const BACKWARDS := [Boot(0), Enqueue(0, "r", 1, 10), Enqueue(0, "r", 2, 5), Start(20)]

  /** With a clock that went back between two events, the later event is attempted first. */
  lemma OrderNeedsTheClock(s: Settings)
    ensures !Chronological(BACKWARDS)
    ensures var w := After(1, BACKWARDS, 4, s);
      && w.phase == BUSY(0, 1) && Known(w, 0, 0) && Known(w, 0, 1)
      && At(w, 0, 1).eventSeq == 2 && At(w, 0, 0).eventSeq == 1 && At(w, 0, 0).status == PENDING
  {
    assert BACKWARDS[1] == Enqueue(0, "r", 1, 10) && BACKWARDS[2] == Enqueue(0, "r", 2, 5);
    var first := Delivery("r", 1, 10, PENDING, 0, None, Some(10), None);
    var second := Delivery("r", 2, 5, PENDING, 0, None, Some(5), None);
    var w0, w1 := After(1, BACKWARDS, 0, s), After(1, BACKWARDS, 1, s);
    assert w1.endpoints[0].box == [] && w1.phase == IDLE && |w1.endpoints| == 1;
    assert w1 == Next(w0, Boot(0), s);
    var w2, w3 := Next(w1, Enqueue(0, "r", 1, 10), s), Next(Next(w1, Enqueue(0, "r", 1, 10), s), Enqueue(0, "r", 2, 5), s);
    assert w2.endpoints[0].box == [first];
    assert w3.endpoints[0].box == [first, second] && w3.endpoints[0].status == ACTIVE && w3.phase == IDLE;
    assert After(1, BACKWARDS, 2, s) == w2;
    assert After(1, BACKWARDS, 3, s) == w3;
    SecondIsPicked(w3.endpoints, first, second);
    assert After(1, BACKWARDS, 4, s) == Next(w3, Start(20), s);
  }

  lemma SecondIsPicked(endpoints: seq<Endpoint>, first: Delivery, second: Delivery)
    requires endpoints == [Endpoint(ACTIVE, [first, second])]
    requires first == Delivery("r", 1, 10, PENDING, 0, None, Some(10), None)
    requires second == Delivery("r", 2, 5, PENDING, 0, None, Some(5), None)
    ensures Pick(endpoints, 0, 20) == Some((0, 1))
  {
    PickIsExact(endpoints, 0, 20);
    var box := endpoints[0].box;
    assert Eligible(box, 1, 20);
    assert !Eligible(box, 0, 20) by { assert Before(box, 1, 0) && Unfinished(box[1].status); }
    hide Pick;
  }
}
