/** What every mutation of the run store keeps, and what holds over whole runs of mutations. */
module RunStoreRuns {
  import opened Wrappers
  import opened RunStore

  // ---------------------------------------------------------------- the invariant of one state

  predicate RunOk(s: Core, run: Id)
    requires run in s.runs && run in s.events && run in s.index
  {
    && LogOk(s.events[run])
    && s.runs[run].snapshotSeq == |s.events[run]|
    && s.index[run] == IndexOf(s.events[run])
    && forall i :: 0 <= i < |s.events[run]| ==> s.events[run][i].run == run
  }

  predicate LogsOk(s: Core) {
    && s.events.Keys == s.runs.Keys == s.index.Keys
    && forall run :: run in s.runs ==> RunOk(s, run)
  }

  predicate ResultsOk(s: Core) {
    forall run :: run in s.results ==> run in s.runs && s.results[run].run == run
  }

  /** A delivery announces an event that is in its run's log. */
  ghost predicate Announces(s: Core, d: Delivery) {
    d.run in s.events &&
    exists i :: 0 <= i < |s.events[d.run]| &&
      s.events[d.run][i].id == d.event && s.events[d.run][i].kind == d.kind && s.events[d.run][i].occurredAt == d.createdAt
  }

  ghost predicate BoxOk(s: Core, endpoint: Id) {
    && (forall d :: d in Box(s, endpoint) ==>
          Announces(s, Box(s, endpoint)[d]) && d.Minted? && d.kind == DELIVERY && d.n <= Counter(s, DELIVERY))
    && (forall c, d :: c in Box(s, endpoint) && d in Box(s, endpoint) && Box(s, endpoint)[c].event == Box(s, endpoint)[d].event ==> c == d)
  }

  ghost predicate CoreOk(s: Core) {
    LogsOk(s) && ResultsOk(s) && forall endpoint :: BoxOk(s, endpoint)
  }

  // ---------------------------------------------------------------- how one state follows another

  /** Logs grow at the end, results stay, revisions and counters do not go back. */
  ghost predicate Extends(s: Core, s': Core) {
    && (forall run :: run in s.runs ==> run in s'.runs && s.runs[run].revision <= s'.runs[run].revision)
    && (forall run :: run in s.events ==> run in s'.events && s.events[run] <= s'.events[run])
    && (forall run :: run in s.results ==> run in s'.results && s'.results[run] == s.results[run])
    && (forall kind :: Counter(s, kind) <= Counter(s', kind))
  }

  function LogLength(s: Core, run: Id): nat {
    if run in s.events then |s.events[run]| else 0
  }

  /** An event appended from position `from` on owes this endpoint a delivery. */
  ghost predicate OwedIn(s: Core, run: Id, from: nat, endpoint: Id, event: Id) {
    run in s.runs && run in s.events && endpoint in s.runs[run].endpoints &&
    exists i :: from <= i < |s.events[run]| && s.events[run][i].id == event &&
      Subscribed(s, endpoint, s.runs[run].tenant, s.events[run][i].kind)
  }

  ghost predicate NewlyOwed(s: Core, s': Core, endpoint: Id, event: Id) {
    exists run :: OwedIn(s', run, LogLength(s, run), endpoint, event)
  }

  /** The outbox gained exactly what the appended events owe. */
  ghost predicate OutboxMatches(s: Core, s': Core) {
    forall endpoint, event :: Queued(s', endpoint, event) <==> Queued(s, endpoint, event) || NewlyOwed(s, s', endpoint, event)
  }

  ghost predicate Sound(s: Core, s': Core) {
    CoreOk(s') && Extends(s, s') && OutboxMatches(s, s')
  }

  // ---------------------------------------------------------------- mutations that append nothing

  predicate SameSubject(c: Delivery, d: Delivery) {
    c.event == d.event && c.run == d.run && c.kind == d.kind && c.createdAt == d.createdAt
  }

  /** States that differ only where logs, results and deliveries are not concerned. */
  ghost predicate Quiet(s: Core, s': Core) {
    && s'.events == s.events && s'.index == s.index && s'.runs.Keys == s.runs.Keys
    && (forall run :: run in s.runs ==>
          s.runs[run].revision <= s'.runs[run].revision && s.runs[run].snapshotSeq == s'.runs[run].snapshotSeq)
    && (forall kind :: Counter(s, kind) <= Counter(s', kind))
    && (forall run :: run in s.results ==> run in s'.results && s'.results[run] == s.results[run])
    && ResultsOk(s')
    && (forall endpoint :: Box(s', endpoint).Keys == Box(s, endpoint).Keys)
    && (forall endpoint, d :: d in Box(s, endpoint) ==>
          SameSubject(Box(s, endpoint)[d], Box(s', endpoint)[d]))
  }

  lemma QuietKeepsQueue(s: Core, s': Core)
    requires Quiet(s, s')
    ensures forall endpoint, event :: Queued(s', endpoint, event) <==> Queued(s, endpoint, event)
  {
    forall endpoint, event ensures Queued(s', endpoint, event) <==> Queued(s, endpoint, event) {
      if Queued(s, endpoint, event) {
        var d :| d in Box(s, endpoint) && Box(s, endpoint)[d].event == event;
        assert Box(s', endpoint)[d].event == event;
      }
      if Queued(s', endpoint, event) {
        var d :| d in Box(s', endpoint) && Box(s', endpoint)[d].event == event;
        assert Box(s, endpoint)[d].event == event;
      }
    }
  }

  lemma QuietExtends(s: Core, s': Core)
    requires Quiet(s, s')
    ensures Extends(s, s')
  {
  }

  lemma NothingAppendedNothingOwed(s: Core, s': Core)
    requires s.events == s'.events
    ensures forall endpoint, event :: !NewlyOwed(s, s', endpoint, event)
  {
  }

  lemma QuietKeepsBox(s: Core, s': Core, endpoint: Id)
    requires Quiet(s, s') && BoxOk(s, endpoint)
    ensures BoxOk(s', endpoint)
  {
    forall d | d in Box(s', endpoint) ensures Announces(s', Box(s', endpoint)[d]) {
      assert Announces(s, Box(s, endpoint)[d]);
    }
  }

  lemma QuietKeepsLogs(s: Core, s': Core)
    requires Quiet(s, s') && LogsOk(s)
    ensures LogsOk(s')
  {
    forall run | run in s'.runs ensures RunOk(s', run) {
      assert RunOk(s, run);
    }
  }

  lemma QuietIsSound(s: Core, s': Core)
    requires CoreOk(s) && Quiet(s, s')
    ensures Sound(s, s')
  {
    forall endpoint ensures BoxOk(s', endpoint) {
      QuietKeepsBox(s, s', endpoint);
    }
    QuietKeepsLogs(s, s');
    QuietKeepsQueue(s, s');
    QuietExtends(s, s');
    NothingAppendedNothingOwed(s, s');
    hide BoxOk, RunOk, Queued, NewlyOwed;
  }

  lemma ExtendsTransitive(s: Core, mid: Core, s': Core)
    requires Extends(s, mid) && Extends(mid, s')
    ensures Extends(s, s')
  {
  }

  lemma QuietThenSound(s: Core, mid: Core, s': Core)
    requires CoreOk(s) && Quiet(s, mid) && Sound(mid, s')
    ensures Sound(s, s')
  {
    QuietKeepsQueue(s, mid);
    QuietExtends(s, mid);
    ExtendsTransitive(s, mid, s');
    SameLogsSameDebt(s, mid, s');
  }

  lemma SameLogsSameDebt(s: Core, mid: Core, s': Core)
    requires s.events == mid.events && OutboxMatches(mid, s')
    requires forall endpoint, event :: Queued(mid, endpoint, event) <==> Queued(s, endpoint, event)
    ensures OutboxMatches(s, s')
  {
    forall endpoint, event ensures Queued(s', endpoint, event) <==> Queued(s, endpoint, event) || NewlyOwed(s, s', endpoint, event) {
      if NewlyOwed(s, s', endpoint, event) {
        var run :| OwedIn(s', run, LogLength(s, run), endpoint, event);
        assert OwedIn(s', run, LogLength(mid, run), endpoint, event);
      }
      if NewlyOwed(mid, s', endpoint, event) {
        var run :| OwedIn(s', run, LogLength(mid, run), endpoint, event);
        assert OwedIn(s', run, LogLength(s, run), endpoint, event);
      }
    }
  }

  // ---------------------------------------------------------------- appending one event

  /** `s'` is `s` with one event at the end of one log, and no delivery for it yet. */
  ghost predicate Logged(s: Core, s': Core, run: Id, event: Event) {
    && run in s.runs && run in s.events && run in s'.runs && event.run == run && event.seqNo == LogLength(s, run) + 1
    && s'.events == s.events[run := s.events[run] + [event]]
    && s'.runs.Keys == s.runs.Keys == s.events.Keys
    && s'.deliveries == s.deliveries && s'.endpoints == s.endpoints && s'.results == s.results
    && (forall r :: r in s.runs ==> r in s'.runs && s.runs[r].(snapshotSeq := 0) == s'.runs[r].(snapshotSeq := 0))
    && (forall kind :: Counter(s, kind) <= Counter(s', kind))
  }

  lemma AppendLockedLogs(s: Core, run: Id, v: NewEvent)
    requires CoreOk(s)
    ensures var (s', r) := AppendLocked(s, run, v);
      match r
      case Err(_) => s' == s
      case Ok((event, created)) => if created then Logged(s, s', run, event) && LogsOk(s') else s' == s
  {
    hide RunOk, Write, BoxOk;
    if run in s.runs {
      if v.id.None? {
        WriteLogs(s, NextId(s, EVENT).0, run, NextId(s, EVENT).1, v);
        WriteNumbers(s, NextId(s, EVENT).0, run, NextId(s, EVENT).1, v);
      } else if v.id.value !in s.index[run] {
        WriteLogs(s, s, run, v.id.value, v);
        WriteNumbers(s, s, run, v.id.value, v);
      }
    }
  }

  lemma WriteLogs(s: Core, minted: Core, run: Id, id: Id, v: NewEvent)
    requires LogsOk(s) && run in s.runs
    requires minted == s.(counters := minted.counters) && forall kind :: Counter(s, kind) <= Counter(minted, kind)
    ensures var (s', event) := Write(minted, run, id, v); Logged(s, s', run, event)
  {
    hide RunOk;
  }

  lemma WriteNumbers(s: Core, minted: Core, run: Id, id: Id, v: NewEvent)
    requires LogsOk(s) && run in s.runs && minted == s.(counters := minted.counters)
    ensures LogsOk(Write(minted, run, id, v).0)
  {
    var (s', event) := Write(minted, run, id, v);
    var log := s.events[run];
    forall x | x in s'.runs ensures RunOk(s', x) {
      assert RunOk(s, x);
      if x == run {
        assert (log + [event])[..|log|] == log;
        assert s'.events[run] == log + [event];
      }
    }
  }

  // ---------------------------------------------------------------- one endpoint's turn

  /** The delivery that an event's announcement starts as. */
  function FirstDelivery(s: Core, event: Event): Delivery
    requires event.run in s.runs
  {
    Delivery(s.runs[event.run].tenant, event.id, event.kind, event.run, PENDING, 0, Some(event.occurredAt), event.occurredAt)
  }

  ghost predicate Wanted(s: Core, event: Event, endpoint: Id)
    requires event.run in s.runs
  {
    Subscribed(s, endpoint, s.runs[event.run].tenant, event.kind)
  }

  /** A turn changes one box by at most one delivery, under an identifier that box did not have. */
  lemma EnqueueShape(s: Core, event: Event, endpoint: Id)
    requires event.run in s.runs && BoxOk(s, endpoint)
    ensures var s' := Enqueue(s, event, endpoint);
      && s' == s.(counters := s'.counters, deliveries := s'.deliveries)
      && (forall kind :: Counter(s, kind) <= Counter(s', kind))
      && (forall e :: e != endpoint ==> Box(s', e) == Box(s, e))
      && (if Wanted(s, event, endpoint) && !Queued(s, endpoint, event.id) then
            var id := Minted(DELIVERY, Counter(s', DELIVERY));
            id !in Box(s, endpoint) && Box(s', endpoint) == Box(s, endpoint)[id := FirstDelivery(s, event)]
          else s' == s)
  {
    hide Announces;
  }

  lemma EnqueueQueues(s: Core, event: Event, endpoint: Id)
    requires event.run in s.runs && BoxOk(s, endpoint)
    ensures var s' := Enqueue(s, event, endpoint);
      forall e, x :: Queued(s', e, x) <==> Queued(s, e, x) || (e == endpoint && x == event.id && Wanted(s, event, e))
  {
    EnqueueShape(s, event, endpoint);
    var s' := Enqueue(s, event, endpoint);
    hide Enqueue, BoxOk;
    if s' != s {
      var id := Minted(DELIVERY, Counter(s', DELIVERY));
      assert Box(s', endpoint)[id].event == event.id;
      forall x ensures Queued(s', endpoint, x) <==> Queued(s, endpoint, x) || x == event.id {
        if Queued(s, endpoint, x) {
          var d :| d in Box(s, endpoint) && Box(s, endpoint)[d].event == x;
          assert d in Box(s', endpoint) && Box(s', endpoint)[d].event == x;
        }
        if Queued(s', endpoint, x) {
          var d :| d in Box(s', endpoint) && Box(s', endpoint)[d].event == x;
          assert d == id || (d in Box(s, endpoint) && Box(s, endpoint)[d].event == x);
        }
      }
    }
  }

  lemma EnqueueKeepsBox(s: Core, event: Event, endpoint: Id, e: Id)
    requires event.run in s.runs && BoxOk(s, endpoint) && BoxOk(s, e) && Announces(s, FirstDelivery(s, event))
    ensures BoxOk(Enqueue(s, event, endpoint), e)
  {
    EnqueueShape(s, event, endpoint);
    var s' := Enqueue(s, event, endpoint);
    hide Enqueue;
    forall d: Delivery | Announces(s, d) ensures Announces(s', d) {
    }
    hide Announces;
  }

  /** Boxes after all selected endpoints had their turn: each subscribed one holds the event, once. */
  lemma {:induction false} EnqueueEach(s: Core, event: Event, order: seq<Id>)
    requires event.run in s.runs && (forall e :: BoxOk(s, e)) && Announces(s, FirstDelivery(s, event))
    ensures forall kind :: Counter(s, kind) <= Counter(EnqueueAll(s, event, order), kind)
    ensures forall e :: BoxOk(EnqueueAll(s, event, order), e)
    ensures forall e, x :: Queued(EnqueueAll(s, event, order), e, x) <==>
        Queued(s, e, x) || (e in order && x == event.id && Wanted(s, event, e))
  {
    if order != [] {
      var init, endpoint := order[..|order| - 1], order[|order| - 1];
      EnqueueEach(s, event, init);
      var before := EnqueueAll(s, event, init);
      assert BoxOk(before, endpoint);
      assert Announces(before, FirstDelivery(before, event));
      EnqueueShape(before, event, endpoint);
      EnqueueQueues(before, event, endpoint);
      forall e ensures BoxOk(EnqueueAll(s, event, order), e) {
        EnqueueKeepsBox(before, event, endpoint, e);
      }
      assert order == init + [endpoint];
    }
  }

  lemma AppendIsSound(s: Core, run: Id, v: NewEvent, order: Order)
    requires CoreOk(s) && OrderOk(order)
    ensures Sound(s, Append(s, run, v, order).0)
  {
    AppendLockedLogs(s, run, v);
    var (mid, r) := AppendLocked(s, run, v);
    if r.Ok? && r.value.1 {
      LoggedThenQueued(s, mid, run, r.value.0, order(mid.runs[run].endpoints));
    } else {
      QuietIsSound(s, s);
    }
  }

  lemma LoggedKeepsBox(s: Core, mid: Core, run: Id, event: Event, e: Id)
    requires BoxOk(s, e) && Logged(s, mid, run, event)
    ensures BoxOk(mid, e)
  {
    forall d | d in Box(mid, e) ensures Announces(mid, Box(mid, e)[d]) {
      LoggedKeepsAnnounced(s, mid, run, event, Box(s, e)[d]);
    }
  }

  lemma OwedAfterAppend(s: Core, mid: Core, s': Core, run: Id, event: Event, endpoint: Id)
    requires Logged(s, mid, run, event) && s' == mid.(counters := s'.counters, deliveries := s'.deliveries)
    requires endpoint in mid.runs[run].endpoints && Wanted(mid, event, endpoint)
    ensures NewlyOwed(s, s', endpoint, event.id)
  {
    assert s'.events[run][|s.events[run]|] == event;
    assert OwedIn(s', run, LogLength(s, run), endpoint, event.id);
  }

  lemma OwedOnlyForAppended(s: Core, mid: Core, s': Core, run: Id, event: Event, endpoint: Id, x: Id)
    requires Logged(s, mid, run, event) && s' == mid.(counters := s'.counters, deliveries := s'.deliveries)
    requires NewlyOwed(s, s', endpoint, x)
    ensures endpoint in mid.runs[run].endpoints && x == event.id && Wanted(mid, event, endpoint)
  {
    var r :| OwedIn(s', r, LogLength(s, r), endpoint, x);
    assert r in s.events;
    assert r == run;
    assert s'.events[run][|s.events[run]|] == event;
  }

  lemma LoggedExtends(s: Core, mid: Core, s': Core, run: Id, event: Event)
    requires Logged(s, mid, run, event) && s' == mid.(counters := s'.counters, deliveries := s'.deliveries)
    requires forall kind :: Counter(mid, kind) <= Counter(s', kind)
    ensures Extends(s, s')
  {
  }

  lemma QueuedBoxes(s: Core, mid: Core, run: Id, event: Event, order: seq<Id>)
    requires (forall e :: BoxOk(s, e)) && Logged(s, mid, run, event)
    ensures forall kind :: Counter(mid, kind) <= Counter(EnqueueAll(mid, event, order), kind)
    ensures forall e :: BoxOk(EnqueueAll(mid, event, order), e)
    ensures forall e, x :: Queued(EnqueueAll(mid, event, order), e, x) <==>
        Queued(mid, e, x) || (e in order && x == event.id && Wanted(mid, event, e))
  {
    forall e ensures BoxOk(mid, e) {
      LoggedKeepsBox(s, mid, run, event, e);
    }
    assert Announces(mid, FirstDelivery(mid, event)) by {
      assert mid.events[run][|s.events[run]|] == event;
    }
    EnqueueEach(mid, event, order);
  }

  lemma LoggedThenQueued(s: Core, mid: Core, run: Id, event: Event, order: seq<Id>)
    requires CoreOk(s) && Logged(s, mid, run, event) && LogsOk(mid)
    requires Enumerates(order, mid.runs[run].endpoints)
    ensures Sound(s, EnqueueAll(mid, event, order))
  {
    var s' := EnqueueAll(mid, event, order);
    QueuedBoxes(s, mid, run, event, order);
    LoggedExtends(s, mid, s', run, event);
    OutboxAfterAppend(s, mid, s', run, event, order);
    SameLogsOk(mid, s');
    SameResultsOk(s, s');
  }

  lemma SameResultsOk(s: Core, s': Core)
    requires ResultsOk(s) && s'.results == s.results && s'.runs.Keys == s.runs.Keys
    ensures ResultsOk(s')
  {
  }

  lemma SameLogsOk(s: Core, s': Core)
    requires LogsOk(s) && s' == s.(counters := s'.counters, deliveries := s'.deliveries)
    ensures LogsOk(s')
  {
    forall run | run in s'.runs ensures RunOk(s', run) {
      assert RunOk(s, run);
    }
  }

  lemma OutboxAfterAppend(s: Core, mid: Core, s': Core, run: Id, event: Event, order: seq<Id>)
    requires Logged(s, mid, run, event) && s' == mid.(counters := s'.counters, deliveries := s'.deliveries)
    requires Enumerates(order, mid.runs[run].endpoints)
    requires forall e, x :: Queued(s', e, x) <==> Queued(mid, e, x) || (e in order && x == event.id && Wanted(mid, event, e))
    ensures OutboxMatches(s, s')
  {
    forall endpoint, x ensures Queued(s', endpoint, x) <==> Queued(s, endpoint, x) || NewlyOwed(s, s', endpoint, x) {
      assert Box(mid, endpoint) == Box(s, endpoint);
      assert Queued(mid, endpoint, x) <==> Queued(s, endpoint, x);
      if endpoint in order && x == event.id && Wanted(mid, event, endpoint) {
        OwedAfterAppend(s, mid, s', run, event, endpoint);
      }
      if NewlyOwed(s, s', endpoint, x) {
        OwedOnlyForAppended(s, mid, s', run, event, endpoint, x);
      }
    }
  }

  lemma LoggedKeepsAnnounced(s: Core, mid: Core, run: Id, event: Event, d: Delivery)
    requires Logged(s, mid, run, event) && Announces(s, d)
    ensures Announces(mid, d)
  {
    var i :| 0 <= i < |s.events[d.run]| && s.events[d.run][i].id == d.event && s.events[d.run][i].kind == d.kind && s.events[d.run][i].occurredAt == d.createdAt;
    assert mid.events[d.run][i] == s.events[d.run][i];
  }

  // ---------------------------------------------------------------- batches

  /** The endpoints that a log's events are for have not changed. */
  ghost predicate SameAudience(s: Core, s': Core) {
    && s'.endpoints == s.endpoints
    && s'.runs.Keys == s.runs.Keys
    && forall run :: run in s.runs && run in s'.runs ==>
         s'.runs[run].endpoints == s.runs[run].endpoints && s'.runs[run].tenant == s.runs[run].tenant
  }

  lemma OldDebtStays(s: Core, mid: Core, s': Core, endpoint: Id, event: Id)
    requires Extends(mid, s') && SameAudience(mid, s') && NewlyOwed(s, mid, endpoint, event)
    ensures NewlyOwed(s, s', endpoint, event)
  {
    var run :| OwedIn(mid, run, LogLength(s, run), endpoint, event);
    var i :| LogLength(s, run) <= i < |mid.events[run]| && mid.events[run][i].id == event
      && Subscribed(mid, endpoint, mid.runs[run].tenant, mid.events[run][i].kind);
    assert s'.events[run][i] == mid.events[run][i];
    assert OwedIn(s', run, LogLength(s, run), endpoint, event);
  }

  lemma LaterDebtCounts(s: Core, mid: Core, s': Core, endpoint: Id, event: Id)
    requires Extends(s, mid) && NewlyOwed(mid, s', endpoint, event)
    ensures NewlyOwed(s, s', endpoint, event)
  {
    var run :| OwedIn(s', run, LogLength(mid, run), endpoint, event);
    assert LogLength(s, run) <= LogLength(mid, run);
    assert OwedIn(s', run, LogLength(s, run), endpoint, event);
  }

  lemma DebtIsOldOrLater(s: Core, mid: Core, s': Core, endpoint: Id, event: Id)
    requires LogsOk(mid) && Extends(mid, s') && SameAudience(mid, s') && NewlyOwed(s, s', endpoint, event)
    ensures NewlyOwed(s, mid, endpoint, event) || NewlyOwed(mid, s', endpoint, event)
  {
    hide RunOk;
    var run :| OwedIn(s', run, LogLength(s, run), endpoint, event);
    var i :| LogLength(s, run) <= i < |s'.events[run]| && s'.events[run][i].id == event
      && Subscribed(s', endpoint, s'.runs[run].tenant, s'.events[run][i].kind);
    if i < LogLength(mid, run) {
      assert s'.events[run][i] == mid.events[run][i];
      assert OwedIn(mid, run, LogLength(s, run), endpoint, event);
    } else {
      assert OwedIn(s', run, LogLength(mid, run), endpoint, event);
    }
  }

  lemma SoundTwice(s: Core, mid: Core, s': Core)
    requires CoreOk(s) && Sound(s, mid) && Sound(mid, s') && SameAudience(mid, s')
    ensures Sound(s, s')
  {
    ExtendsTransitive(s, mid, s');
    forall endpoint, event ensures Queued(s', endpoint, event) <==> Queued(s, endpoint, event) || NewlyOwed(s, s', endpoint, event) {
      if NewlyOwed(s, mid, endpoint, event) { OldDebtStays(s, mid, s', endpoint, event); }
      if NewlyOwed(mid, s', endpoint, event) { LaterDebtCounts(s, mid, s', endpoint, event); }
      if NewlyOwed(s, s', endpoint, event) { DebtIsOldOrLater(s, mid, s', endpoint, event); }
    }
  }

  lemma AppendKeepsAudience(s: Core, run: Id, v: NewEvent, order: Order)
    requires CoreOk(s)
    ensures SameAudience(s, Append(s, run, v, order).0)
  {
    AppendLockedLogs(s, run, v);
  }

  lemma AudienceTransitive(s: Core, mid: Core, s': Core)
    requires SameAudience(s, mid) && SameAudience(mid, s')
    ensures SameAudience(s, s')
  {
  }

  lemma SoundKeepsCoreOk(s: Core, s': Core)
    requires Sound(s, s')
    ensures CoreOk(s')
  {
  }

  lemma OneMore(s: Core, before: Core, run: Id, last: NewEvent, order: Order)
    requires CoreOk(s) && OrderOk(order) && Sound(s, before) && SameAudience(s, before)
    ensures Sound(s, Append(before, run, last, order).0) && SameAudience(s, Append(before, run, last, order).0)
  {
    var after := Append(before, run, last, order).0;
    SoundKeepsCoreOk(s, before);
    AppendIsSound(before, run, last, order);
    AppendKeepsAudience(before, run, last, order);
    hide *;
    SoundTwice(s, before, after);
    AudienceTransitive(s, before, after);
  }

  /** A batch, complete or cut short by a refused event, leaves a sound store. */
  lemma {:induction false} BatchIsSound(s: Core, run: Id, events: seq<NewEvent>, revision: nat, order: Order)
    requires CoreOk(s) && OrderOk(order)
    ensures Sound(s, AppendBatch(s, run, events, revision, order).0)
    ensures SameAudience(s, AppendBatch(s, run, events, revision, order).0)
    decreases |events|
  {
    if events == [] {
      QuietIsSound(s, s);
    } else {
      BatchIsSound(s, run, events[..|events| - 1], revision, order);
      var (before, done) := AppendBatch(s, run, events[..|events| - 1], revision, order);
      if done.Ok? {
        OneMore(s, before, run, events[|events| - 1].(revision := Some(revision)), order);
      }
      hide Sound, CoreOk, SameAudience, Append, OrderOk;
    }
  }

  // ---------------------------------------------------------------- every mutation

  lemma RunOkCarries(s: Core, s': Core, run: Id)
    requires run in s.runs && run in s.events && run in s.index && RunOk(s, run)
    requires run in s'.runs && run in s'.events && run in s'.index
    requires s'.events[run] == s.events[run] && s'.index[run] == s.index[run] && s'.runs[run].snapshotSeq == s.runs[run].snapshotSeq
    ensures RunOk(s', run)
  {
  }

  lemma BoxOkCarries(s: Core, s': Core, e: Id)
    requires BoxOk(s, e) && Box(s', e) == Box(s, e) && Counter(s, DELIVERY) <= Counter(s', DELIVERY)
    requires forall run :: run in s.events ==> run in s'.events && s'.events[run] == s.events[run]
    ensures BoxOk(s', e)
  {
    forall d | d in Box(s', e) ensures Announces(s', Box(s', e)[d]) {
      assert Announces(s, Box(s, e)[d]);
    }
  }

  lemma FreshRunOk(s: Core, run: Id)
    requires run in s.runs && run in s.events && run in s.index
    requires s.events[run] == [] && s.index[run] == map[] && s.runs[run].snapshotSeq == 0
    ensures RunOk(s, run)
  {
  }

  lemma CreateRunLogs(s: Core, id: Id, tenant: string, endpoints: set<Id>, fields: Fields)
    requires LogsOk(s)
    ensures LogsOk(CreateRun(s, id, tenant, endpoints, fields).0)
  {
    var s' := CreateRun(s, id, tenant, endpoints, fields).0;
    hide RunOk;
    if s' != s {
      FreshRunOk(s', id);
      forall run | run in s.runs && run != id ensures RunOk(s', run) {
        RunOkCarries(s, s', run);
      }
    }
  }

  lemma CreateRunOwesNothing(s: Core, id: Id, tenant: string, endpoints: set<Id>, fields: Fields, e: Id, x: Id)
    requires LogsOk(s)
    ensures !NewlyOwed(s, CreateRun(s, id, tenant, endpoints, fields).0, e, x)
  {
    hide RunOk;
  }

  lemma CreateRunExtends(s: Core, id: Id, tenant: string, endpoints: set<Id>, fields: Fields)
    requires LogsOk(s) && ResultsOk(s)
    ensures Extends(s, CreateRun(s, id, tenant, endpoints, fields).0)
    ensures ResultsOk(CreateRun(s, id, tenant, endpoints, fields).0)
  {
    hide RunOk, Extends, ResultsOk;
    var s' := CreateRun(s, id, tenant, endpoints, fields).0;
    assert s' != s ==> id !in s.runs && id !in s.events;
    NewRunExtends(s, s');
  }

  lemma NewRunExtends(s: Core, s': Core)
    requires ResultsOk(s) && s'.results == s.results && s'.counters == s.counters
    requires forall run :: run in s.runs ==> run in s'.runs && s'.runs[run] == s.runs[run]
    requires forall run :: run in s.events ==> run in s'.events && s'.events[run] == s.events[run]
    ensures Extends(s, s') && ResultsOk(s')
  {
  }

  lemma CreateRunIsSound(s: Core, id: Id, tenant: string, endpoints: set<Id>, fields: Fields)
    requires CoreOk(s)
    ensures Sound(s, CreateRun(s, id, tenant, endpoints, fields).0)
  {
    hide BoxOk, RunOk, NewlyOwed, Extends, LogsOk, ResultsOk;
    var s' := CreateRun(s, id, tenant, endpoints, fields).0;
    CreateRunLogs(s, id, tenant, endpoints, fields);
    CreateRunExtends(s, id, tenant, endpoints, fields);
    CreateRunBoxes(s, id, tenant, endpoints, fields);
    forall e, x ensures Queued(s', e, x) <==> Queued(s, e, x) || NewlyOwed(s, s', e, x) {
      CreateRunOwesNothing(s, id, tenant, endpoints, fields, e, x);
      assert Box(s', e) == Box(s, e);
    }
  }

  lemma CreateRunBoxes(s: Core, id: Id, tenant: string, endpoints: set<Id>, fields: Fields)
    requires LogsOk(s) && forall e :: BoxOk(s, e)
    ensures forall e :: BoxOk(CreateRun(s, id, tenant, endpoints, fields).0, e)
  {
    hide BoxOk, RunOk;
    var s' := CreateRun(s, id, tenant, endpoints, fields).0;
    forall e ensures BoxOk(s', e) {
      assert BoxOk(s, e);
      BoxOkCarries(s, s', e);
    }
  }

  /** A mutation that leaves logs and boxes alone is quiet. */
  lemma UntouchedIsQuiet(s: Core, s': Core)
    requires s'.events == s.events && s'.index == s.index && s'.deliveries == s.deliveries
    requires s'.runs.Keys == s.runs.Keys && ResultsOk(s')
    requires forall run :: run in s.runs ==>
      s.runs[run].revision <= s'.runs[run].revision && s.runs[run].snapshotSeq == s'.runs[run].snapshotSeq
    requires forall kind :: Counter(s, kind) <= Counter(s', kind)
    requires forall run :: run in s.results ==> run in s'.results && s'.results[run] == s.results[run]
    ensures Quiet(s, s')
  {
  }

  lemma UpdateDeliveryIsQuiet(s: Core, endpoint: Id, id: Id, status: DeliveryStatus, attempts: nat, next: Option<int>)
    requires CoreOk(s)
    ensures Quiet(s, UpdateDelivery(s, endpoint, id, status, attempts, next).0)
  {
    hide BoxOk, RunOk, LogsOk, IndexOf;
    var s' := UpdateDelivery(s, endpoint, id, status, attempts, next).0;
    forall e ensures Box(s', e).Keys == Box(s, e).Keys && forall d :: d in Box(s, e) ==> SameSubject(Box(s, e)[d], Box(s', e)[d]) {
      assert e != endpoint ==> Box(s', e) == Box(s, e);
    }
  }

  /** The state a run patch leaves behind. */
  function PatchRun(s: Core, run: Id, p: Patch, revision: nat): Core
    requires run in s.runs
  {
    s.(runs := s.runs[run := Patched(s.runs[run], p).(revision := revision)])
  }

  lemma PatchOneIsQuiet(s: Core, run: Id, p: Patch, revision: nat)
    requires ResultsOk(s) && run in s.runs && s.runs[run].revision <= revision
    ensures Quiet(s, PatchRun(s, run, p, revision))
  {
    hide Quiet;
    UntouchedIsQuiet(s, PatchRun(s, run, p, revision));
  }

  lemma PatchIsQuiet(s: Core, run: Id, p: Patch, revision: nat)
    requires CoreOk(s) && run in s.runs && s.runs[run].revision <= revision
    ensures Quiet(s, PatchRun(s, run, p, revision))
  {
    hide BoxOk, RunOk, ResultsOk, Quiet, PatchRun;
    PatchOneIsQuiet(s, run, p, revision);
  }

  lemma PatchThenAppend(s: Core, run: Id, p: Patch, revision: nat, v: NewEvent, order: Order)
    requires CoreOk(s) && OrderOk(order) && run in s.runs && s.runs[run].revision <= revision
    ensures Sound(s, Append(PatchRun(s, run, p, revision), run, v, order).0)
  {
    hide BoxOk, RunOk, Append, PatchRun, Quiet;
    var mid := PatchRun(s, run, p, revision);
    PatchIsQuiet(s, run, p, revision);
    QuietIsSound(s, mid);
    SoundKeepsCoreOk(s, mid);
    AppendIsSound(mid, run, v, order);
    QuietThenSound(s, mid, Append(mid, run, v, order).0);
  }

  lemma MutateIsSound(s: Core, run: Id, p: Patch, v: NewEvent, expected: Option<nat>, bump: bool, order: Order)
    requires CoreOk(s) && OrderOk(order)
    ensures Sound(s, Mutate(s, run, p, v, expected, bump, order).0)
  {
    hide Sound, CoreOk, OrderOk, Append;
    var check := RevisionCheck(s, run, expected);
    if check.Ok? {
      var revision := if bump then check.value + 1 else check.value;
      PatchThenAppend(s, run, p, revision, v.(revision := Some(revision)), order);
    } else {
      NoChangeIsSound(s);
    }
  }

  lemma NoChangeIsSound(s: Core)
    requires CoreOk(s)
    ensures Sound(s, s)
  {
    QuietIsSound(s, s);
  }

  lemma ResultIsQuiet(s: Core, counters: map<Kind, nat>, results: map<Id, Manifest>)
    requires ResultsOk(s)
    requires forall kind :: Counter(s, kind) <= Counter(s.(counters := counters), kind)
    requires forall run :: run in s.results ==> run in results && results[run] == s.results[run]
    requires forall run :: run in results ==> run in s.runs && results[run].run == run
    ensures Quiet(s, s.(counters := counters, results := results))
  {
  }

  lemma StoreResultIsQuiet(s: Core, run: Id, m: NewManifest)
    requires ResultsOk(s)
    ensures Quiet(s, StoreResult(s, run, m).0)
    ensures StoreResult(s, run, m).0.runs == s.runs
  {
    hide Quiet;
    var s' := StoreResult(s, run, m).0;
    StoreResultCounts(s, run, m);
    StoreResultKeeps(s, run, m);
    hide StoreResult;
    ResultIsQuiet(s, s'.counters, s'.results);
  }

  lemma StoreResultCounts(s: Core, run: Id, m: NewManifest)
    ensures var s' := StoreResult(s, run, m).0;
      && s' == s.(counters := s'.counters, results := s'.results)
      && (forall kind :: Counter(s, kind) <= Counter(s', kind))
  {
  }

  /** Results are written once: a stored one stays, and the only new one is this run's. */
  lemma StoreResultKeeps(s: Core, run: Id, m: NewManifest)
    ensures var s' := StoreResult(s, run, m).0;
      && (forall r :: r in s.results ==> r in s'.results && s'.results[r] == s.results[r])
      && (forall r :: r in s'.results && r !in s.results ==> r == run && r in s.runs && s'.results[r].run == r)
  {
  }

  lemma PatchThenBatch(s: Core, run: Id, p: Patch, revision: nat, events: seq<NewEvent>, order: Order)
    requires CoreOk(s) && OrderOk(order) && run in s.runs && s.runs[run].revision <= revision
    ensures Sound(s, AppendBatch(PatchRun(s, run, p, revision), run, events, revision, order).0)
  {
    hide BoxOk, RunOk, AppendBatch, PatchRun, Quiet;
    var mid := PatchRun(s, run, p, revision);
    PatchIsQuiet(s, run, p, revision);
    QuietIsSound(s, mid);
    SoundKeepsCoreOk(s, mid);
    BatchIsSound(mid, run, events, revision, order);
    QuietThenSound(s, mid, AppendBatch(mid, run, events, revision, order).0);
  }

  lemma FinalizeIsSound(s: Core, run: Id, m: NewManifest, p: Patch, events: seq<NewEvent>, expected: Option<nat>, order: Order)
    requires CoreOk(s) && OrderOk(order)
    ensures Sound(s, Finalize(s, run, m, p, events, expected, order).0)
  {
    hide Sound, CoreOk, OrderOk, AppendBatch, StoreResult, Quiet;
    NoChangeIsSound(s);
    CoreHasResultsOk(s);
    var check := RevisionCheck(s, run, expected);
    if check.Ok? {
      StoreResultIsQuiet(s, run, m);
      var kept := StoreResult(s, run, m).0;
      QuietIsSound(s, kept);
      SoundKeepsCoreOk(s, kept);
      PatchThenBatch(kept, run, p, check.value + 1, events, order);
      QuietThenSound(s, kept, AppendBatch(PatchRun(kept, run, p, check.value + 1), run, events, check.value + 1, order).0);
    }
  }

  lemma CoreHasResultsOk(s: Core)
    requires CoreOk(s)
    ensures ResultsOk(s)
  {
  }

  lemma MintIsQuiet(s: Core, kind: Kind)
    requires ResultsOk(s)
    ensures Quiet(s, NextId(s, kind).0)
  {
  }

  lemma UpdateRunIsQuiet(s: Core, run: Id, p: Patch, expected: Option<nat>, bump: bool)
    requires ResultsOk(s)
    ensures Quiet(s, UpdateRun(s, run, p, expected, bump).0)
  {
    hide Quiet, ResultsOk;
    var check := RevisionCheck(s, run, expected);
    if check.Ok? && !(p.run.Some? && p.run.value != run) {
      PatchOneIsQuiet(s, run, p, if bump then check.value + 1 else check.value);
    } else {
      NothingIsQuiet(s);
    }
  }

  lemma NothingIsQuiet(s: Core)
    requires ResultsOk(s)
    ensures Quiet(s, s)
  {
  }

  lemma EndpointsAreQuiet(s: Core, endpoints: map<Id, Endpoint>)
    requires ResultsOk(s)
    ensures Quiet(s, s.(endpoints := endpoints))
  {
  }

  /** The mutations that append no event and open no run. */
  predicate AppendsNothing(op: Op) {
    !op.CreateRunOp? && !op.AppendOp? && !op.MutateOp? && !op.FinalizeOp?
  }

  lemma EndpointOpIsQuiet(s: Core, op: Op, order: Order)
    requires ResultsOk(s) && (op.CreateEndpointOp? || op.UpdateEndpointOp?)
    ensures Quiet(s, Apply(s, op, order).0)
  {
    hide Quiet, ResultsOk, Append, Mutate, Finalize, StoreResult, CreateRun, UpdateRun, UpdateDelivery, NextId;
    var s' := Apply(s, op, order).0;
    EndpointsAreQuiet(s, s'.endpoints);
    assert s' == s.(endpoints := s'.endpoints);
  }

  lemma OtherOpIsQuiet(s: Core, op: Op, order: Order)
    requires CoreOk(s) && AppendsNothing(op)
    ensures Quiet(s, Apply(s, op, order).0)
  {
    hide CoreOk, ResultsOk, Quiet, StoreResult, UpdateDelivery, UpdateRun, NextId, CreateEndpoint, UpdateEndpoint;
    CoreHasResultsOk(s);
    match op
    case SetResultOp(run, m) => StoreResultIsQuiet(s, run, m);
    case UpdateDeliveryOp(e, d, status, attempts, next) => UpdateDeliveryIsQuiet(s, e, d, status, attempts, next);
    case MintOp(kind) => MintIsQuiet(s, kind);
    case UpdateRunOp(run, p, expected, bump) => UpdateRunIsQuiet(s, run, p, expected, bump);
    case CreateEndpointOp(_, _) => EndpointOpIsQuiet(s, op, order);
    case UpdateEndpointOp(_, _) => EndpointOpIsQuiet(s, op, order);
  }

  /** Every mutation, successful or refused, keeps the store sound, the logs growing and the outbox exact. */
  lemma ApplyIsSound(s: Core, op: Op, order: Order)
    requires CoreOk(s) && OrderOk(order)
    ensures Sound(s, Apply(s, op, order).0)
  {
    hide Sound, CoreOk, OrderOk, Quiet, CreateRun, Append, Mutate, Finalize;
    if AppendsNothing(op) {
      OtherOpIsQuiet(s, op, order);
      QuietIsSound(s, Apply(s, op, order).0);
    } else {
      match op
      case CreateRunOp(run, tenant, endpoints, fields) => CreateRunIsSound(s, run, tenant, endpoints, fields);
      case AppendOp(run, v) => AppendIsSound(s, run, v, order);
      case MutateOp(run, p, v, expected, bump) => MutateIsSound(s, run, p, v, expected, bump, order);
      case FinalizeOp(run, m, p, events, expected) => FinalizeIsSound(s, run, m, p, events, expected, order);
    }
  }

  // ---------------------------------------------------------------- revisions

  /** The run and the expected revision of a mutation that raises the revision when it succeeds. */
  function Bumps(op: Op): Option<(Id, Option<nat>)> {
    match op
    case UpdateRunOp(run, _, expected, bump) => if bump then Some((run, expected)) else None
    case MutateOp(run, _, _, expected, bump) => if bump then Some((run, expected)) else None
    case FinalizeOp(run, _, _, _, expected) => Some((run, expected))
    case _ => None
  }

  lemma AppendKeepsRevision(s: Core, run: Id, v: NewEvent, order: Order, r: Id)
    requires CoreOk(s) && r in s.runs
    ensures r in Append(s, run, v, order).0.runs && Append(s, run, v, order).0.runs[r].revision == s.runs[r].revision
  {
    AppendLockedLogs(s, run, v);
  }

  lemma {:induction false} BatchKeepsRevision(s: Core, run: Id, events: seq<NewEvent>, revision: nat, order: Order, r: Id)
    requires CoreOk(s) && OrderOk(order) && r in s.runs
    ensures r in AppendBatch(s, run, events, revision, order).0.runs
    ensures AppendBatch(s, run, events, revision, order).0.runs[r].revision == s.runs[r].revision
    decreases |events|
  {
    hide CoreOk, Sound, Append, OrderOk;
    if events != [] {
      var init := events[..|events| - 1];
      BatchKeepsRevision(s, run, init, revision, order, r);
      BatchIsSound(s, run, init, revision, order);
      var before := AppendBatch(s, run, init, revision, order).0;
      SoundKeepsCoreOk(s, before);
      AppendKeepsRevision(before, run, events[|events| - 1].(revision := Some(revision)), order, r);
    }
  }

  lemma MutateBumps(s: Core, run: Id, p: Patch, v: NewEvent, expected: Option<nat>, order: Order)
    requires CoreOk(s) && OrderOk(order) && RevisionCheck(s, run, expected).Ok?
    ensures var s' := Mutate(s, run, p, v, expected, true, order).0;
      run in s'.runs && s'.runs[run].revision == s.runs[run].revision + 1
  {
    hide CoreOk, Sound, Quiet, Append, OrderOk;
    var revision := s.runs[run].revision + 1;
    var mid := PatchRun(s, run, p, revision);
    PatchIsQuiet(s, run, p, revision);
    QuietIsSound(s, mid);
    SoundKeepsCoreOk(s, mid);
    AppendKeepsRevision(mid, run, v.(revision := Some(revision)), order, run);
  }

  lemma FinalizeBumps(s: Core, run: Id, m: NewManifest, p: Patch, events: seq<NewEvent>, expected: Option<nat>, order: Order)
    requires CoreOk(s) && OrderOk(order) && Finalize(s, run, m, p, events, expected, order).1.Ok?
    ensures var s' := Finalize(s, run, m, p, events, expected, order).0;
      run in s.runs && run in s'.runs && s'.runs[run].revision == s.runs[run].revision + 1
  {
    hide CoreOk, Sound, Quiet, AppendBatch, OrderOk, StoreResult;
    var revision := s.runs[run].revision + 1;
    CoreHasResultsOk(s);
    StoreResultIsQuiet(s, run, m);
    var kept := StoreResult(s, run, m).0;
    QuietIsSound(s, kept);
    SoundKeepsCoreOk(s, kept);
    PatchIsQuiet(kept, run, p, revision);
    var mid := PatchRun(kept, run, p, revision);
    QuietIsSound(kept, mid);
    SoundKeepsCoreOk(kept, mid);
    BatchKeepsRevision(mid, run, events, revision, order, run);
  }

  lemma BumpChecks(s: Core, op: Op, order: Order)
    requires CoreOk(s) && OrderOk(order) && Bumps(op).Some? && Apply(s, op, order).1.None?
    ensures var (run, expected) := Bumps(op).value;
      && run in s.runs && (expected.Some? ==> s.runs[run].revision == expected.value)
      && run in Apply(s, op, order).0.runs && Apply(s, op, order).0.runs[run].revision == s.runs[run].revision + 1
  {
    match op
    case MutateOp(run, p, v, expected, bump) =>
      MutateBumps(s, run, p, v, expected, order);
    case FinalizeOp(run, m, p, events, expected) =>
      FinalizeBumps(s, run, m, p, events, expected, order);
    case _ =>
    hide CoreOk, OrderOk, Append, AppendBatch;
  }
}
