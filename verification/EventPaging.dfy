/**
  Reading a run's events page by page: the server's window behind an opaque cursor, and the
  client's loop over the pages, while events keep being appended between any two reads.
*/
module EventPaging {
  import opened Wrappers
  import opened RunStore
  import opened RunStoreResults

  type Types = Option<set<string>>

  predicate Wanted(e: Event, types: Types) {
    types.None? || e.kind in types.value
  }

  /** The events of a stretch of the log that pass the filter, in order. */
  function Chosen(events: seq<Event>, types: Types): seq<Event> {
    if events == [] then []
    else
      var last := events[|events| - 1];
      Chosen(events[..|events| - 1], types) + if Wanted(last, types) then [last] else []
  }

  lemma {:induction false} ChosenAdds(a: seq<Event>, b: seq<Event>, types: Types)
    ensures Chosen(a + b, types) == Chosen(a, types) + Chosen(b, types)
    decreases |b|
  {
    if b == [] {
      assert a + b == a;
    } else {
      var init, last := b[..|b| - 1], b[|b| - 1];
      ChosenAdds(a, init, types);
      assert (a + b)[..|a + b| - 1] == a + init;
      assert (a + b)[|a + b| - 1] == last;
    }
  }

  // ---------------------------------------------------------------- the server

  datatype Cursor = Cursor(position: nat, high: nat, limit: nat, types: Types)
  datatype Request = First(after: Option<nat>, limit: Option<nat>, types: Types) | Follow(cursor: Cursor)
  datatype Page = Page(items: seq<Event>, next: Option<Cursor>, high: nat)
  datatype Error = BadLimit | InvalidCursor | CursorExpired | RepeatedCursor

  const DEFAULT_LIMIT: nat := 50
  const MAX_LIMIT: nat := 100
  /** No code path ever moves it: a run keeps all of its events. */
  const RETAINED_FROM: nat := 1

  /** The store's read: events after a sequence number that pass the filter. */
  function EventsAfter(log: seq<Event>, after: nat, types: Types): seq<Event> {
    if log == [] then []
    else
      var last := log[|log| - 1];
      EventsAfter(log[..|log| - 1], after, types) + if last.seqNo > after && Wanted(last, types) then [last] else []
  }

  function UpTo(events: seq<Event>, high: nat): seq<Event> {
    if events == [] then []
    else
      var last := events[|events| - 1];
      UpTo(events[..|events| - 1], high) + if last.seqNo <= high then [last] else []
  }

  /** One request: `snapshotSeq` was read before `log` was. */
  function ReadEvents(snapshotSeq: nat, log: seq<Event>, request: Request): Result<Page, Error> {
    if request.First? && request.limit.Some? && !(1 <= request.limit.value <= MAX_LIMIT) then Err(BadLimit)
    else if request.Follow? && request.cursor.limit < 1 then Err(InvalidCursor)
    else
      var start := match request
        case First(after, limit, types) =>
          Cursor(if after.Some? then after.value else RETAINED_FROM - 1, snapshotSeq,
                 if limit.Some? then limit.value else DEFAULT_LIMIT, types)
        case Follow(cursor) => cursor;
      if start.position < RETAINED_FROM - 1 then Err(CursorExpired)
      else
        var candidates := UpTo(EventsAfter(log, start.position, start.types), start.high);
        if |candidates| > start.limit && start.limit > 0 then
          var selected := candidates[..start.limit];
          Ok(Page(selected, Some(start.(position := selected[start.limit - 1].seqNo)), start.high))
        else Ok(Page(candidates, None, start.high))
  }

  /** What is between two positions of a log, filtered. */
  function Window(log: seq<Event>, position: nat, high: nat, types: Types): seq<Event>
    requires high <= |log|
  {
    if position <= high then Chosen(log[position..high], types) else []
  }

  lemma ChosenNone(types: Types)
    ensures Chosen([], types) == []
  {
  }

  lemma ChosenNext(events: seq<Event>, e: Event, types: Types)
    ensures Chosen(events + [e], types) == Chosen(events, types) + if Wanted(e, types) then [e] else []
  {
    assert (events + [e])[..|events|] == events;
  }

  lemma {:induction false} EventsAfterIsSuffix(log: seq<Event>, after: nat, types: Types)
    requires LogOk(log)
    ensures EventsAfter(log, after, types) == if after <= |log| then Chosen(log[after..], types) else []
    decreases |log|
  {
    hide Chosen, Wanted;
    if log == [] {
      ChosenNone(types);
      if after == 0 { assert log[after..] == []; }
    } else {
      var n := |log| - 1;
      EventsAfterIsSuffix(log[..n], after, types);
      assert log[n].seqNo == n + 1;
      if after <= n {
        assert log[after..] == log[..n][after..] + [log[n]];
        ChosenNext(log[..n][after..], log[n], types);
      } else if after == n + 1 {
        ChosenNone(types);
        assert log[after..] == [];
      }
    }
  }

  predicate Ascending(events: seq<Event>) {
    forall i, j :: 0 <= i < j < |events| ==> events[i].seqNo < events[j].seqNo
  }

  lemma {:induction false} ChosenMember(events: seq<Event>, types: Types)
    ensures forall e :: e in Chosen(events, types) ==> e in events && Wanted(e, types)
    decreases |events|
  {
    if events != [] {
      var init := events[..|events| - 1];
      ChosenMember(init, types);
      assert events == init + [events[|events| - 1]];
    }
  }

  lemma {:induction false} ChosenAscends(events: seq<Event>, types: Types)
    requires Ascending(events)
    ensures Ascending(Chosen(events, types))
    decreases |events|
  {
    if events != [] {
      var n := |events| - 1;
      var init, last := events[..n], events[n];
      ChosenAscends(init, types);
      ChosenMember(init, types);
      var c := Chosen(init, types);
      forall i | 0 <= i < |c| ensures c[i].seqNo < last.seqNo {
        assert c[i] in init;
      }
    }
  }

  lemma {:induction false} UpToSplits(low: seq<Event>, rest: seq<Event>, high: nat)
    requires forall e :: e in low ==> e.seqNo <= high
    requires forall e :: e in rest ==> e.seqNo > high
    ensures UpTo(low + rest, high) == low
    decreases |low| + |rest|
  {
    var all := low + rest;
    if rest != [] {
      var init := rest[..|rest| - 1];
      assert all[..|all| - 1] == low + init;
      assert all[|all| - 1] == rest[|rest| - 1];
      UpToSplits(low, init, high);
    } else if low != [] {
      assert all == low && low[..|low| - 1] + [] == low[..|low| - 1];
      UpToSplits(low[..|low| - 1], [], high);
    }
  }

  lemma Stretch(log: seq<Event>, i: nat, j: nat)
    requires LogOk(log) && i <= j <= |log|
    ensures Ascending(log[i..j]) && forall e :: e in log[i..j] ==> i < e.seqNo <= j
  {
  }

  lemma ChosenBounds(log: seq<Event>, i: nat, j: nat, types: Types)
    requires LogOk(log) && i <= j <= |log|
    ensures forall e :: e in Chosen(log[i..j], types) ==> i < e.seqNo <= j
  {
    Stretch(log, i, j);
    ChosenMember(log[i..j], types);
  }

  /** The candidates of a request are its window, however much was appended above the watermark. */
  lemma CandidatesAreTheWindow(log: seq<Event>, position: nat, high: nat, types: Types)
    requires LogOk(log) && high <= |log|
    ensures UpTo(EventsAfter(log, position, types), high) == Window(log, position, high, types)
  {
    hide Chosen, EventsAfter, UpTo, LogOk;
    EventsAfterIsSuffix(log, position, types);
    var n := |log|;
    if position <= high {
      var low, rest := log[position..high], log[high..n];
      assert log[position..] == low + rest;
      ChosenAdds(low, rest, types);
      ChosenBounds(log, position, high, types);
      ChosenBounds(log, high, n, types);
      UpToSplits(Chosen(low, types), Chosen(rest, types), high);
    } else if position <= n {
      assert log[position..] == log[position..n];
      ChosenBounds(log, position, n, types);
      UpToSplits([], Chosen(log[position..], types), high);
      assert [] + Chosen(log[position..], types) == Chosen(log[position..], types);
    } else {
      UpToSplits([], [], high);
      assert [] + EventsAfter(log, position, types) == EventsAfter(log, position, types);
    }
  }

  /** A page is the beginning of the window, and the cursor's position is where the rest of it starts. */
  lemma {:induction false} WindowResumes(log: seq<Event>, position: nat, high: nat, types: Types, k: nat)
    requires LogOk(log) && position <= high <= |log| && 0 < k <= |Window(log, position, high, types)|
    ensures var w := Window(log, position, high, types);
      && position < w[k - 1].seqNo <= high
      && w == w[..k] + Window(log, w[k - 1].seqNo, high, types)
    decreases high - position
  {
    hide LogOk, Window, Chosen, Wanted;
    WindowStep(log, position, high, types);
    var w := Window(log, position, high, types);
    var first := log[position];
    var later := Window(log, position + 1, high, types);
    if Wanted(first, types) {
      if k > 1 {
        WindowResumes(log, position + 1, high, types, k - 1);
        assert w[..k] == [first] + later[..k - 1];
        assert w == [first] + (later[..k - 1] + Window(log, later[k - 2].seqNo, high, types));
      }
    } else {
      assert w == later;
      WindowResumes(log, position + 1, high, types, k);
    }
  }

  lemma WindowStep(log: seq<Event>, position: nat, high: nat, types: Types)
    requires LogOk(log) && position <= high <= |log| && Window(log, position, high, types) != []
    ensures position < high && log[position].seqNo == position + 1
    ensures Window(log, position, high, types) ==
      (if Wanted(log[position], types) then [log[position]] else []) + Window(log, position + 1, high, types)
  {
    if position < high {
      var first := log[position];
      assert log[position..high] == [first] + log[position + 1..high];
      ChosenAdds([first], log[position + 1..high], types);
      ChosenOne(first, types);
    }
    hide LogOk;
  }

  lemma ChosenOne(e: Event, types: Types)
    ensures Chosen([e], types) == if Wanted(e, types) then [e] else []
  {
    assert [e][..0] == [];
  }

  /**
    One request answered: its items begin the window that is left, the rest of which starts at the
    next position; positions grow strictly, never pass the watermark, and never expire.
  */
  lemma OnePage(log: seq<Event>, at: Cursor)
    requires LogOk(log) && at.high <= |log| && at.limit >= 1
    ensures var r := ReadEvents(at.high, log, Follow(at));
      && r.Ok? && r.value.high == at.high && |r.value.items| <= at.limit
      && (match r.value.next
          case None => r.value.items == Window(log, at.position, at.high, at.types)
          case Some(next) =>
            && at.position < next.position <= at.high && next == at.(position := next.position)
            && |r.value.items| == at.limit
            && Window(log, at.position, at.high, at.types) == r.value.items + Window(log, next.position, at.high, at.types))
  {
    CandidatesAreTheWindow(log, at.position, at.high, at.types);
    var w := Window(log, at.position, at.high, at.types);
    if |w| > at.limit {
      WindowResumes(log, at.position, at.high, at.types, at.limit);
    }
  }

  // ---------------------------------------------------------------- a log that grows between reads

  /** What each read in turn finds. */
  type Reads = nat -> seq<Event>

  ghost predicate Growing(log: Reads) {
    (forall k :: LogOk(log(k))) && (forall i, j :: i <= j ==> log(i) <= log(j))
  }

  lemma WindowIsFrozen(log: Reads, i: nat, k: nat, position: nat, high: nat, types: Types)
    requires Growing(log) && i <= k && high <= |log(i)|
    ensures high <= |log(k)| && Window(log(k), position, high, types) == Window(log(i), position, high, types)
  {
    assert log(i) <= log(k);
    if position <= high {
      assert log(i)[position..high] == log(k)[position..high];
    }
  }

  // ---------------------------------------------------------------- the client

  /** The events whose identifiers were not seen before, each identifier once. */
  function Unseen(events: seq<Event>, seen: set<Id>): (seq<Event>, set<Id>) {
    if events == [] then ([], seen)
    else
      var (kept, known) := Unseen(events[..|events| - 1], seen);
      var last := events[|events| - 1];
      if last.id in known then (kept, known) else (kept + [last], known + {last.id})
  }

  lemma {:induction false} UnseenAdds(a: seq<Event>, b: seq<Event>, seen: set<Id>)
    ensures var (kept, known) := Unseen(a, seen);
      Unseen(a + b, seen) == (kept + Unseen(b, known).0, Unseen(b, known).1)
    decreases |b|
  {
    if b == [] {
      assert a + b == a;
      assert Unseen(a, seen).0 + [] == Unseen(a, seen).0;
    } else {
      var init := b[..|b| - 1];
      UnseenAdds(a, init, seen);
      assert (a + b)[..|a + b| - 1] == a + init;
      var last := b[|b| - 1];
      assert (a + b)[|a + b| - 1] == last;
      var (kept, known) := Unseen(a, seen);
      assert kept + (Unseen(init, known).0 + [last]) == kept + Unseen(init, known).0 + [last];
    }
  }

  lemma {:induction false} UnseenKnows(events: seq<Event>, seen: set<Id>, id: Id)
    ensures id in Unseen(events, seen).1 <==> id in seen || exists i :: 0 <= i < |events| && events[i].id == id
    decreases |events|
  {
    if events != [] {
      var n := |events| - 1;
      UnseenKnows(events[..n], seen, id);
      if i :| 0 <= i < n && events[..n][i].id == id { assert events[i].id == id; }
    }
  }

  /** In a log with distinct identifiers, only what the caller had seen before is dropped. */
  function Without(events: seq<Event>, seen: set<Id>): seq<Event> {
    if events == [] then []
    else
      var last := events[|events| - 1];
      Without(events[..|events| - 1], seen) + if last.id in seen then [] else [last]
  }

  lemma {:induction false} DistinctUnseen(events: seq<Event>, seen: set<Id>)
    requires UniqueIds(events)
    ensures Unseen(events, seen).0 == Without(events, seen)
    decreases |events|
  {
    if events != [] {
      var n := |events| - 1;
      DistinctUnseen(events[..n], seen);
      UnseenKnows(events[..n], seen, events[n].id);
    }
  }

  /**
    Walks all pages. The result is exactly the filtered log between the starting position and the
    end the log had when the first request read the snapshot, less what was seen before. The walk
    ends, and the repeated-cursor error is never raised.
  */
  method CollectEventBatch(log: Reads, after: Option<nat>, limit: Option<nat>, types: Types, seen: set<Id>)
    returns (r: Result<(seq<Event>, nat), Error>, known: set<Id>)
    requires Growing(log)
    ensures var start := if after.Some? then after.value else 0;
      var high := |log(0)|;
      var expected := Unseen(Window(log(0), start, high, types), seen);
      if limit.Some? && !(1 <= limit.value <= MAX_LIMIT) then r == Err(BadLimit) && known == seen
      else r == Ok((expected.0, if high >= start then high else start)) && known == expected.1
  {
    hide Unseen, Window, ReadEvents, Growing;
    var start := if after.Some? then after.value else 0;
    ghost var all := Window(log(0), start, |log(0)|, types);
    ghost var done: seq<Event> := [];
    var high := start;
    var events: seq<Event> := [];
    known := seen;
    var prior: set<Cursor> := {};
    var cursor: Option<Cursor> := None;
    var read := 0;
    ghost var refused := limit.Some? && !(1 <= limit.value <= MAX_LIMIT);
    ghost var at := Cursor(start, |log(0)|, if limit.Some? then limit.value else DEFAULT_LIMIT, types);
    NothingUnseen(seen);
    while true
      invariant cursor.Some? ==> cursor.value == at && at in prior && high == (if |log(0)| >= start then |log(0)| else start)
      invariant cursor.None? ==> read == 0 && at.position == start && high == start && prior == {}
      invariant at.high == |log(0)| && at.types == types && (refused ==> cursor.None? && known == seen)
      invariant at.limit == if limit.Some? then limit.value else DEFAULT_LIMIT
      invariant forall c :: c in prior ==> c.position <= at.position
      invariant all == done + Window(log(0), at.position, at.high, types)
      invariant (events, known) == Unseen(done, seen)
      decreases if at.position <= at.high then at.high - at.position else 0
    {
      var request := if cursor.None? then First(after, limit, types) else Follow(cursor.value);
      var answer := ReadEvents(|log(read)|, log(read + 1), request);
      if refused { BadLimitIsRefused(|log(read)|, log(read + 1), request); } else { NextPage(log, read, at, request, after, limit); }
      if answer.Err? {
        return Err(answer.error), known;
      }
      var page := answer.value;
      high := if page.high > high then page.high else high;
      UnseenAdds(done, page.items, seen);
      var (kept, known') := Unseen(page.items, known);
      events, known := events + kept, known';
      if page.next.None? {
        return Ok((events, high)), known;
      }
      var next := page.next.value;
      if next in prior {
        assert false;
        return Err(RepeatedCursor), known;
      }
      assert done + (page.items + Window(log(0), next.position, at.high, types)) == done + page.items + Window(log(0), next.position, at.high, types);
      done := done + page.items;
      prior := prior + {next};
      cursor := Some(next);
      at := next;
      read := read + 2;
    }
  }

  lemma BadLimitIsRefused(snapshotSeq: nat, log: seq<Event>, request: Request)
    requires request.First? && request.limit.Some? && !(1 <= request.limit.value <= MAX_LIMIT)
    ensures ReadEvents(snapshotSeq, log, request) == Err(BadLimit)
  {
  }

  lemma NothingUnseen(seen: set<Id>)
    ensures Unseen([], seen) == ([], seen)
  {
  }

  /** One turn of the client: the page it gets, in terms of the log the first request saw. */
  lemma NextPage(log: Reads, read: nat, at: Cursor, request: Request, after: Option<nat>, limit: Option<nat>)
    requires Growing(log) && at.high == |log(0)| && at.limit >= 1
    requires limit.Some? ==> 1 <= limit.value <= MAX_LIMIT
    requires
      || request == Follow(at)
      || (request == First(after, limit, at.types) && read == 0 && at.position == (if after.Some? then after.value else 0)
          && at.limit == if limit.Some? then limit.value else DEFAULT_LIMIT)
    ensures var r := ReadEvents(|log(read)|, log(read + 1), request);
      && r.Ok? && r.value.high == at.high
      && (match r.value.next
          case None => r.value.items == Window(log(0), at.position, at.high, at.types)
          case Some(next) =>
            && at.position < next.position <= at.high && next == at.(position := next.position)
            && Window(log(0), at.position, at.high, at.types) == r.value.items + Window(log(0), next.position, at.high, at.types))
  {
    hide Window, ReadEvents;
    WindowIsFrozen(log, 0, read + 1, at.position, at.high, at.types);
    OnePage(log(read + 1), at);
    FirstIsFollow(|log(read)|, log(read + 1), at, request, after, limit);
    var r := ReadEvents(at.high, log(read + 1), Follow(at));
    if r.value.next.Some? {
      WindowIsFrozen(log, 0, read + 1, r.value.next.value.position, at.high, at.types);
    }
  }

  /** Following a cursor ignores the snapshot; the first request is the one whose cursor says what it asked for. */
  lemma FirstIsFollow(snapshotSeq: nat, log: seq<Event>, at: Cursor, request: Request, after: Option<nat>, limit: Option<nat>)
    requires at.limit >= 1 && (limit.Some? ==> 1 <= limit.value <= MAX_LIMIT)
    requires
      || request == Follow(at)
      || (request == First(after, limit, at.types) && snapshotSeq == at.high && at.position == (if after.Some? then after.value else 0)
          && at.limit == if limit.Some? then limit.value else DEFAULT_LIMIT)
    ensures ReadEvents(snapshotSeq, log, request) == ReadEvents(at.high, log, Follow(at))
  {
  }

  /** With distinct identifiers and nothing seen before, the batch is the filtered log itself. */
  lemma NothingLostNothingTwice(log: Reads, after: nat, types: Types)
    requires Growing(log) && UniqueIds(log(0)) && after <= |log(0)|
    ensures Unseen(Window(log(0), after, |log(0)|, types), {}).0 == Chosen(log(0)[after..], types)
  {
    var tail := log(0)[after..];
    assert log(0)[after..|log(0)|] == tail;
    ChosenKeepsUnique(tail, types);
    DistinctUnseen(Chosen(tail, types), {});
    WithoutNothing(Chosen(tail, types));
  }

  lemma {:induction false} WithoutNothing(events: seq<Event>)
    ensures Without(events, {}) == events
    decreases |events|
  {
    if events != [] {
      WithoutNothing(events[..|events| - 1]);
      assert events == events[..|events| - 1] + [events[|events| - 1]];
    }
  }

  lemma {:induction false} ChosenKeepsUnique(events: seq<Event>, types: Types)
    requires UniqueIds(events)
    ensures UniqueIds(Chosen(events, types))
    ensures forall e :: e in Chosen(events, types) ==> e in events
    decreases |events|
  {
    if events != [] {
      var n := |events| - 1;
      ChosenKeepsUnique(events[..n], types);
      forall e | e in Chosen(events[..n], types) ensures e.id != events[n].id {
        var i :| 0 <= i < n && events[..n][i] == e;
        assert events[i] == e;
      }
    }
  }
}
