/** The streaming client over any number of connections, each of them cut anywhere. */
module EventStreamClient {
  import opened Wrappers
  import opened RunStore
  import opened RunStoreResults
  import opened EventPaging
  import opened EventStream
  import opened StreamText

  /**
    One connection: how many rounds the server's loop made, and whether the transport then failed
    with only so many characters through; it cannot end otherwise unless the server's loop has.
  */
  datatype Connection = Refused | Stream(turns: nat, beats: nat -> bool, chars: nat, failed: bool)

  datatype Outcome = TerminalEvent | TerminalSnapshot | BudgetExhausted | ProtocolError | ApiError

  datatype Session = Session(client: Client, reconnects: nat, read: nat, outcome: Option<Outcome>)

  /** What every read of the log, and of whether the run is terminal, would return. */
  datatype Setup = Setup(log: Reads, terminal: nat -> bool, types: Types, codec: Codec, maxReconnects: Option<nat>)

  function From<T>(later: nat -> T, read: nat): nat -> T {
    (k: nat) => later(read + k)
  }

  /** The server's side of a connection that is opened at a read and asks for what follows a position. */
  function Answer(u: Setup, read: nat, current: nat, conn: Connection): Served
    requires conn.Stream?
  {
    Serve(From(u.log, read), From(u.terminal, read), current, u.types, conn.beats, conn.turns)
  }

  predicate EndsClean(u: Setup, read: nat, current: nat, conn: Connection) {
    conn.Stream? && !conn.failed && Answer(u, read, current, conn).ended
  }

  /** The text that arrives. */
  function Arrived(u: Setup, read: nat, current: nat, conn: Connection): string
    requires conn.Stream?
  {
    var text := Written(Flatten(Answer(u, read, current, conn).chunks, u.codec));
    if EndsClean(u, read, current, conn) || conn.chars >= |text| then text else text[..conn.chars]
  }

  /** The lines that arrive whole. */
  function Received(u: Setup, read: nat, current: nat, conn: Connection): seq<string>
    requires conn.Stream?
  {
    Lines(Arrived(u, read, current, conn)).0
  }

  /** The read, after a connection, of whether the run is terminal. */
  function LastRead(s: Session, conn: Connection): nat
    requires conn.Stream?
  {
    s.read + 2 * conn.turns
  }

  predicate Spent(u: Setup, reconnects: nat) {
    u.maxReconnects.Some? && reconnects >= u.maxReconnects.value
  }

  function Connect(u: Setup, s: Session, conn: Connection): Session {
    if s.outcome.Some? then s
    else if conn.Refused? then s.(outcome := Some(ApiError))
    else
      var c := ConsumeAll(s.client.(parser := BLANK), Received(u, s.read, s.client.current, conn), u.codec);
      var clean := EndsClean(u, s.read, s.client.current, conn);
      var last := LastRead(s, conn);
      var s' := Session(c, s.reconnects, last + 1, None);
      if c.stop == FINISHED then s'.(outcome := Some(TerminalEvent))
      else if c.stop == BROKEN then s'.(outcome := Some(ProtocolError))
      else if !clean && Spent(u, s.reconnects) then s'.(outcome := Some(BudgetExhausted))
      else if u.terminal(last) then s'.(outcome := Some(TerminalSnapshot))
      else if Spent(u, s.reconnects) then s'.(outcome := Some(BudgetExhausted))
      else s'.(reconnects := s.reconnects + 1)
  }

  /** Without a given position, a snapshot read first sets it; if the run is over already, nothing is opened. */
  function Start(u: Setup, after: Option<nat>, seen: set<Id>): Session {
    var current := if after.Some? then after.value else |u.log(0)|;
    Session(Client(BLANK, current, seen, [], OPEN), 0, 1, if after.None? && u.terminal(0) then Some(TerminalSnapshot) else None)
  }

  function Run(u: Setup, first: Session, net: seq<Connection>): Session {
    if net == [] then first else Connect(u, Run(u, first, net[..|net| - 1]), net[|net| - 1])
  }

  // ---------------------------------------------------------------- where the client is

  /** The client has been given exactly the filtered log between its first position and its current one. */
  ghost predicate Reached(full: seq<Event>, types: Types, start: nat, seen: set<Id>, c: Client) {
    && start <= c.current && (c.current == start || c.current <= |full|) && c.stop != BROKEN
    && (c.yielded, c.seen) == Unseen(Segment(full, start, c.current, types), seen)
  }

  lemma ReachedLater(full: seq<Event>, later: seq<Event>, types: Types, start: nat, seen: set<Id>, c: Client)
    requires Reached(full, types, start, seen, c) && full <= later
    ensures Reached(later, types, start, seen, c)
  {
    if start <= c.current <= |full| {
      assert full[start..c.current] == later[start..c.current];
    } else {
      NothingInSegment(full, start, types);
      NothingInSegment(later, start, types);
    }
    hide Segment, Unseen;
  }

  /** The beginning of a segment is the segment up to the event it ends with. */
  lemma Head(full: seq<Event>, a: nat, b: nat, types: Types, k: nat)
    requires LogOk(full) && 0 < k <= |Segment(full, a, b, types)|
    ensures var w := Segment(full, a, b, types);
      a < w[k - 1].seqNo <= b && b <= |full| && Segment(full, a, w[k - 1].seqNo, types) == w[..k]
  {
    var w := Segment(full, a, b, types);
    WindowResumes(full, a, b, types, k);
    var s := w[k - 1].seqNo;
    SegmentsJoin(full, a, s, b, types);
    hide LogOk, Chosen;
    var rest := Segment(full, s, b, types);
    assert w == w[..k] + rest && w == Segment(full, a, s, types) + rest;
    assert |Segment(full, a, s, types)| == k;
  }

  lemma SegmentAscends(full: seq<Event>, a: nat, b: nat, types: Types)
    requires LogOk(full)
    ensures Ascending(Segment(full, a, b, types))
  {
    if a <= b <= |full| {
      Stretch(full, a, b);
      ChosenAscends(full[a..b], types);
    }
  }

  lemma UnseenNext(events: seq<Event>, e: Event, seen: set<Id>)
    ensures var (kept, known) := Unseen(events, seen);
      Unseen(events + [e], seen) == if e.id in known then (kept, known) else (kept + [e], known + {e.id})
  {
    assert (events + [e])[..|events|] == events;
  }

  lemma TakeNext(c: Client, events: seq<Event>, k: nat)
    requires 0 < k <= |events|
    ensures TakeAll(c, events[..k]) == Take(TakeAll(c, events[..k - 1]), events[k - 1])
  {
    assert events[..k][..k - 1] == events[..k - 1];
  }

  lemma {:induction false} TakingKeepsReached(full: seq<Event>, types: Types, start: nat, seen: set<Id>, c: Client, position: nat, k: nat)
    requires LogOk(full) && Reached(full, types, start, seen, c) && c.stop == OPEN
    requires k <= |Segment(full, c.current, position, types)|
    ensures var w := Segment(full, c.current, position, types);
      var r := TakeAll(c, w[..k]);
      Reached(full, types, start, seen, r) && (r.stop == OPEN ==> r.current == if k == 0 then c.current else w[k - 1].seqNo)
    decreases k
  {
    hide LogOk, Unseen, Segment, TakeAll;
    var w := Segment(full, c.current, position, types);
    if k == 0 {
      TakeNothing(c);
      assert w[..0] == [];
    } else {
      TakingKeepsReached(full, types, start, seen, c, position, k - 1);
      var b := TakeAll(c, w[..k - 1]);
      TakeNext(c, w, k);
      if b.stop == OPEN {
        var e := w[k - 1];
        Head(full, c.current, position, types, k);
        SegmentsJoin(full, start, c.current, e.seqNo, types);
        if k == 1 {
          assert w[..1] == [e];
        } else {
          Head(full, c.current, position, types, k - 1);
          SegmentsJoin(full, start, c.current, b.current, types);
          SegmentAscends(full, c.current, position, types);
          assert w[..k] == w[..k - 1] + [e];
          var old' := Segment(full, start, c.current, types);
          assert old' + (w[..k - 1] + [e]) == old' + w[..k - 1] + [e];
        }
        assert Segment(full, start, e.seqNo, types) == Segment(full, start, b.current, types) + [e];
        UnseenNext(Segment(full, start, b.current, types), e, seen);
      }
    }
  }

  lemma TakeNothing(c: Client)
    ensures TakeAll(c, []) == c
  {
  }

  lemma EventsPrefix(chunks: seq<Chunk>, j: nat)
    requires j <= |chunks|
    ensures EventsOf(chunks[..j]) <= EventsOf(chunks)
  {
    assert chunks == chunks[..j] + chunks[j..];
    EventsAdd(chunks[..j], chunks[j..]);
  }

  /** No event of the log holds a line break in its type or its text. */
  ghost predicate Legible(u: Setup) {
    forall k, e :: e in u.log(k) ==> Printable(e, u.codec)
  }

  lemma SegmentMember(full: seq<Event>, a: nat, b: nat, types: Types)
    ensures forall e :: e in Segment(full, a, b, types) ==> e in full
  {
    if a <= b <= |full| { ChosenMember(full[a..b], types); }
  }

  /** What a connection brings is the next so many events of the filtered log; all of them if it ends cleanly. */
  lemma ArrivedEvents(u: Setup, read: nat, full: seq<Event>, c: Client, conn: Connection) returns (k: nat)
    requires Growing(u.log) && Faithful(u.codec) && Legible(u) && conn.Stream? && c.parser == BLANK
    requires LogOk(full) && u.log(read + 2 * conn.turns) == full
    ensures var position := Answer(u, read, c.current, conn).position;
      position == c.current || c.current < position <= |full|
    ensures var w := Segment(full, c.current, Answer(u, read, c.current, conn).position, u.types);
      && k <= |w|
      && ConsumeAll(c, Received(u, read, c.current, conn), u.codec).(parser := BLANK) == TakeAll(c, w[..k]).(parser := BLANK)
      && (EndsClean(u, read, c.current, conn) ==> k == |w|)
  {
    hide Faithful, Serve, LogOk, EventsOf, Flatten, ConsumeAll, TakeAll, Segment, Lines, Written, Printable;
    var log, terminal := From(u.log, read), From(u.terminal, read);
    GrowingFrom(u.log, read);
    forall t: nat | t < 2 * conn.turns ensures log(t) <= full { GrowsTo(u.log, read + t, read + 2 * conn.turns); }
    ServerWritesTheLog(log, terminal, c.current, u.types, conn.beats, conn.turns, full);
    var s := Answer(u, read, c.current, conn);
    var w := Segment(full, c.current, s.position, u.types);
    SegmentMember(full, c.current, s.position, u.types);
    var text, arrived := Written(Flatten(s.chunks, u.codec)), Arrived(u, read, c.current, conn);
    assert arrived == text[..|arrived|];
    var j := TextIsEvents(c, s.chunks, u.codec, |arrived|);
    EventsPrefix(s.chunks, j);
    k := |EventsOf(s.chunks[..j])|;
    assert EventsOf(s.chunks[..j]) == w[..k];
    assert j == |s.chunks| ==> s.chunks[..j] == s.chunks;
  }

  /** Whatever part of a connection arrives, the client afterwards has the log up to its new position. */
  lemma OneConnection(u: Setup, read: nat, full: seq<Event>, start: nat, seen: set<Id>, c: Client, conn: Connection)
    requires Growing(u.log) && Faithful(u.codec) && Legible(u) && conn.Stream?
    requires LogOk(full) && u.log(read + 2 * conn.turns) == full
    requires Reached(full, u.types, start, seen, c) && c.stop == OPEN && c.parser == BLANK
    ensures Reached(full, u.types, start, seen, ConsumeAll(c, Received(u, read, c.current, conn), u.codec))
  {
    hide Faithful, Legible, Serve, LogOk, ConsumeAll, TakeAll, Segment, Received, Reached;
    var k := ArrivedEvents(u, read, full, c, conn);
    var position := Answer(u, read, c.current, conn).position;
    var w := Segment(full, c.current, position, u.types);
    TakingKeepsReached(full, u.types, start, seen, c, position, k);
    ReachedIgnoresParser(full, u.types, start, seen, TakeAll(c, w[..k]), ConsumeAll(c, Received(u, read, c.current, conn), u.codec));
  }

  lemma ReachedIgnoresParser(full: seq<Event>, types: Types, start: nat, seen: set<Id>, c: Client, d: Client)
    requires Reached(full, types, start, seen, c) && c.(parser := BLANK) == d.(parser := BLANK)
    ensures Reached(full, types, start, seen, d)
  {
    assert c.current == d.current && c.seen == d.seen && c.yielded == d.yielded && c.stop == d.stop;
  }

  lemma GrowingFrom(log: Reads, read: nat)
    requires Growing(log)
    ensures Growing(From(log, read))
  {
  }

  lemma GrowsTo(log: Reads, i: nat, k: nat)
    requires Growing(log) && i <= k
    ensures log(i) <= log(k)
  {
  }

  // ---------------------------------------------------------------- all connections

  lemma {:induction false} AlwaysReached(u: Setup, after: Option<nat>, seen: set<Id>, net: seq<Connection>)
    requires Growing(u.log) && Faithful(u.codec) && Legible(u)
    ensures var first := Start(u, after, seen);
      var s := Run(u, first, net);
      && Reached(u.log(s.read), u.types, first.client.current, seen, s.client)
      && s.outcome != Some(ProtocolError) && (s.outcome.None? ==> s.client.stop == OPEN)
    decreases |net|
  {
    hide Faithful, Legible, Reached, ConsumeAll, Received, EndsClean;
    var first := Start(u, after, seen);
    if net == [] {
      ReachedFirst(u, first, seen);
    } else {
      AlwaysReached(u, after, seen, net[..|net| - 1]);
      var s, conn := Run(u, first, net[..|net| - 1]), net[|net| - 1];
      if s.outcome.None? && conn.Stream? {
        ConnectKeepsReached(u, s, first.client.current, seen, conn);
      }
    }
  }

  lemma ConnectKeepsReached(u: Setup, s: Session, start: nat, seen: set<Id>, conn: Connection)
    requires Growing(u.log) && Faithful(u.codec) && Legible(u) && conn.Stream?
    requires s.outcome.None? && s.client.stop == OPEN && Reached(u.log(s.read), u.types, start, seen, s.client)
    ensures var s' := Connect(u, s, conn);
      && Reached(u.log(LastRead(s, conn)), u.types, start, seen, s'.client)
      && Reached(u.log(s'.read), u.types, start, seen, s'.client)
      && s'.client.stop != BROKEN
  {
    hide Faithful, Legible, Reached, ConsumeAll, Received, EndsClean, Growing;
    var full := u.log(LastRead(s, conn));
    GrowsTo(u.log, s.read, LastRead(s, conn));
    GrowsTo(u.log, LastRead(s, conn), LastRead(s, conn) + 1);
    GrowingIsNumbered(u.log, LastRead(s, conn));
    ReachedLater(u.log(s.read), full, u.types, start, seen, s.client);
    var c := s.client.(parser := BLANK);
    ReachedIgnoresParser(full, u.types, start, seen, s.client, c);
    OneConnection(u, s.read, full, start, seen, c, conn);
    var r := ConsumeAll(c, Received(u, s.read, c.current, conn), u.codec);
    ReachedIsNotBroken(full, u.types, start, seen, r);
    ReachedLater(full, u.log(LastRead(s, conn) + 1), u.types, start, seen, r);
  }

  lemma ReachedIsNotBroken(full: seq<Event>, types: Types, start: nat, seen: set<Id>, c: Client)
    requires Reached(full, types, start, seen, c)
    ensures c.stop != BROKEN
  {
  }

  lemma ReachedFirst(u: Setup, s: Session, seen: set<Id>)
    requires s.client.yielded == [] && s.client.seen == seen && s.client.stop == OPEN
    ensures Reached(u.log(s.read), u.types, s.client.current, seen, s.client)
  {
    NothingInSegment(u.log(s.read), s.client.current, u.types);
    NothingUnseen(seen);
    hide Segment, Unseen;
  }

  /**
    For every pattern of cuts and appends: an unfiltered stream that starts with nothing seen yields
    a contiguous stretch of the log in order, from just after the initial position to the current
    one, each event once. No event is ever refused as malformed.
  */
  lemma StreamIsGapFree(u: Setup, after: Option<nat>, net: seq<Connection>)
    requires Growing(u.log) && Faithful(u.codec) && Legible(u) && u.types == None
    requires var s := Run(u, Start(u, after, {}), net); UniqueIds(u.log(s.read))
    ensures var start := Start(u, after, {}).client.current;
      var s := Run(u, Start(u, after, {}), net);
      && start <= s.client.current && s.outcome != Some(ProtocolError)
      && s.client.yielded == if start <= s.client.current <= |u.log(s.read)| then u.log(s.read)[start..s.client.current] else []
  {
    AlwaysReached(u, after, {}, net);
    hide Faithful, Legible, Run, Unseen;
    var start := Start(u, after, {}).client.current;
    var s := Run(u, Start(u, after, {}), net);
    if start <= s.client.current <= |u.log(s.read)| {
      var stretch := u.log(s.read)[start..s.client.current];
      StretchIsUnique(u.log(s.read), start, s.client.current);
      ChosenAll(stretch);
      DistinctUnseen(stretch, {});
      WithoutNothing(stretch);
    } else {
      NothingUnseen({});
    }
  }

  lemma StretchIsUnique(log: seq<Event>, i: nat, j: nat)
    requires UniqueIds(log) && i <= j <= |log|
    ensures UniqueIds(log[i..j])
  {
  }

  // ---------------------------------------------------------------- stopping short

  /** A run is terminal only once a terminal event is in its log, and there is one such event at most. */
  ghost predicate Closing(u: Setup) {
    && (forall k :: u.terminal(k) ==> exists i :: 0 <= i < |u.log(k)| && u.log(k)[i].kind in TERMINAL_TYPES)
    && (forall k, i, j :: 0 <= i < j < |u.log(k)| ==> !(u.log(k)[i].kind in TERMINAL_TYPES && u.log(k)[j].kind in TERMINAL_TYPES))
  }

  /** `e` is the terminal event of the log as of read `k`, and the client asked for its type. */
  ghost predicate Ends(u: Setup, k: nat, e: Event) {
    e in u.log(k) && e.kind in TERMINAL_TYPES && Wanted(e, u.types)
  }

  lemma {:induction false} ChosenHas(events: seq<Event>, types: Types, e: Event)
    requires e in events && Wanted(e, types)
    ensures e in Chosen(events, types)
    decreases |events|
  {
    var init, last := events[..|events| - 1], events[|events| - 1];
    var chosen := Chosen(init, types);
    if e in init {
      ChosenHas(init, types, e);
    } else {
      assert events == init + [last];
      assert (chosen + [last])[|chosen|] == e;
    }
  }

  lemma SegmentHas(full: seq<Event>, a: nat, b: nat, types: Types, e: Event)
    requires LogOk(full) && e in full && Wanted(e, types) && a < e.seqNo <= b <= |full|
    ensures e in Segment(full, a, b, types)
  {
    var i :| 0 <= i < |full| && full[i] == e;
    assert full[a..b][i - a] == e;
    ChosenHas(full[a..b], types, e);
  }

  /** After a clean end the client lacks nothing that the server's last snapshot counted, unless it had stopped by itself. */
  lemma CleanEndDelivers(u: Setup, s: Session, start: nat, seen: set<Id>, conn: Connection) returns (k: nat)
    requires Growing(u.log) && Faithful(u.codec) && Legible(u)
    requires s.outcome.None? && s.client.stop == OPEN && Reached(u.log(s.read), u.types, start, seen, s.client)
    requires EndsClean(u, s.read, s.client.current, conn)
    ensures k < LastRead(s, conn) && u.terminal(k)
    ensures var c := Connect(u, s, conn).client;
      c.stop == OPEN ==> forall e :: e in u.log(k) && Wanted(e, u.types) ==> e.seqNo <= c.current
  {
    hide Growing, Faithful, Legible, Reached, ConsumeAll, Received, Serve, Segment, LogOk, TakeAll;
    var full, c := u.log(LastRead(s, conn)), s.client.(parser := BLANK);
    GrowingIsNumbered(u.log, LastRead(s, conn));
    GrowsTo(u.log, s.read, LastRead(s, conn));
    ReachedLater(u.log(s.read), full, u.types, start, seen, s.client);
    ReachedIgnoresParser(full, u.types, start, seen, s.client, c);
    var n := ArrivedEvents(u, s.read, full, c, conn);
    var position := Answer(u, s.read, c.current, conn).position;
    var w := Segment(full, c.current, position, u.types);
    TakingKeepsReached(full, u.types, start, seen, c, position, n);
    k := EndedAtTheEnd(From(u.log, s.read), From(u.terminal, s.read), c.current, u.types, conn.beats, conn.turns);
    k := s.read + k;
    GrowsTo(u.log, k, LastRead(s, conn));
    var r := Connect(u, s, conn).client;
    assert r.(parser := BLANK) == TakeAll(c, w[..n]).(parser := BLANK);
    if r.stop == OPEN {
      assert r.current == TakeAll(c, w[..n]).current && r.current == if n == 0 then c.current else w[n - 1].seqNo;
      forall e | e in u.log(k) && Wanted(e, u.types) ensures e.seqNo <= r.current {
        assert e in full;
        GrowingIsNumbered(u.log, k);
        Numbered(u.log(k), e);
        NotPast(full, c.current, position, u.types, e);
      }
    }
  }

  lemma Numbered(log: seq<Event>, e: Event)
    requires LogOk(log) && e in log
    ensures 1 <= e.seqNo <= |log|
  {
  }

  lemma NotPast(full: seq<Event>, a: nat, b: nat, types: Types, e: Event)
    requires LogOk(full) && e in full && Wanted(e, types) && e.seqNo <= b
    requires b == a || b <= |full|
    ensures var w := Segment(full, a, b, types);
      e.seqNo <= if w == [] then a else w[|w| - 1].seqNo
  {
    var w := Segment(full, a, b, types);
    if w != [] { Head(full, a, b, types, |w|); }
    if a < e.seqNo && b <= |full| {
      SegmentHas(full, a, b, types, e);
      SegmentAscends(full, a, b, types);
      var i :| 0 <= i < |w| && w[i] == e;
      assert i == |w| - 1 || w[i].seqNo < w[|w| - 1].seqNo;
    }
    hide Segment;
  }
  /** The client has stopped by itself exactly if it has handed over a terminal event. */
  ghost predicate Told(c: Client) {
    c.stop != BROKEN && (c.stop == FINISHED <==> exists e :: e in c.yielded && e.kind in TERMINAL_TYPES)
  }

  lemma {:induction false} TakingKeepsTold(c: Client, events: seq<Event>)
    requires Told(c) && forall e :: e in events ==> e.seqNo >= 1
    ensures Told(TakeAll(c, events))
    decreases |events|
  {
    if events != [] {
      var init, last := events[..|events| - 1], events[|events| - 1];
      TakingKeepsTold(c, init);
      TakeKeepsTold(TakeAll(c, init), last);
    }
  }

  lemma TakeKeepsTold(c: Client, e: Event)
    requires Told(c) && e.seqNo >= 1
    ensures Told(Take(c, e))
  {
    var yielded := c.yielded + [e];
    assert yielded[|c.yielded|] == e;
    assert forall x :: x in yielded <==> x in c.yielded || x == e;
  }

  lemma ConnectKeepsTold(u: Setup, s: Session, conn: Connection)
    requires Growing(u.log) && Faithful(u.codec) && Legible(u) && conn.Stream?
    requires s.outcome.None? && Told(s.client)
    ensures Told(Connect(u, s, conn).client)
  {
    hide Growing, Faithful, Legible, ConsumeAll, Received, EndsClean, Segment, TakeAll, LogOk, Answer;
    var full, c := u.log(LastRead(s, conn)), s.client.(parser := BLANK);
    GrowingIsNumbered(u.log, LastRead(s, conn));
    var n := ArrivedEvents(u, s.read, full, c, conn);
    var position := Answer(u, s.read, c.current, conn).position;
    var w := Segment(full, c.current, position, u.types);
    SegmentMember(full, c.current, position, u.types);
    forall e | e in w[..n] ensures e.seqNo >= 1 { Numbered(full, e); }
    TakingKeepsTold(c, w[..n]);
    assert Connect(u, s, conn).client.(parser := BLANK) == TakeAll(c, w[..n]).(parser := BLANK);
  }

  lemma {:induction false} AlwaysTold(u: Setup, after: Option<nat>, seen: set<Id>, net: seq<Connection>)
    requires Growing(u.log) && Faithful(u.codec) && Legible(u)
    ensures Told(Run(u, Start(u, after, seen), net).client)
    decreases |net|
  {
    hide Growing, Faithful, Legible, ConsumeAll, Received, EndsClean, Told;
    if net == [] {
      NothingTold(Start(u, after, seen).client);
    } else {
      AlwaysTold(u, after, seen, net[..|net| - 1]);
      var s, conn := Run(u, Start(u, after, seen), net[..|net| - 1]), net[|net| - 1];
      if s.outcome.None? && conn.Stream? { ConnectKeepsTold(u, s, conn); }
    }
  }

  lemma NothingTold(c: Client)
    requires c.yielded == [] && c.stop == OPEN
    ensures Told(c)
  {
  }

  /** What has been handed over by a client that had seen nothing is what its position covers. */
  lemma YieldedIsCovered(full: seq<Event>, types: Types, start: nat, c: Client, e: Event)
    requires LogOk(full) && UniqueIds(full) && Reached(full, types, start, {}, c)
    requires e in full && Wanted(e, types) && start < e.seqNo
    ensures (forall x :: x in c.yielded ==> x in full)
    ensures e in c.yielded <==> e.seqNo <= c.current
  {
    hide LogOk, UniqueIds, Segment, Unseen;
    SegmentMember(full, start, c.current, types);
    SegmentIsUnique(full, start, c.current, types);
    var w := Segment(full, start, c.current, types);
    DistinctUnseen(w, {});
    WithoutNothing(w);
    if e.seqNo <= c.current { SegmentHas(full, start, c.current, types, e); }
    if e in w {
      var i :| 0 <= i < |w| && w[i] == e;
      Head(full, start, c.current, types, i + 1);
    }
  }

  lemma SegmentIsUnique(full: seq<Event>, a: nat, b: nat, types: Types)
    requires LogOk(full) && UniqueIds(full)
    ensures UniqueIds(Segment(full, a, b, types))
  {
    var w := Segment(full, a, b, types);
    SegmentMember(full, a, b, types);
    SegmentAscends(full, a, b, types);
    forall i, j | 0 <= i < j < |w| ensures w[i].id != w[j].id {
      assert w[i] in full && w[j] in full && w[i].seqNo < w[j].seqNo;
      var p :| 0 <= p < |full| && full[p] == w[i];
      var q :| 0 <= q < |full| && full[q] == w[j];
      assert p < q;
    }
    hide Segment;
  }

  /**
    The stream need not reach the terminal event. A connection that was opened before it ends the
    session on the snapshot read next, with that event not handed over, exactly if the transport
    failed before it came through, the run is terminal by then, and a reconnect was still allowed.
  */
  lemma StopsShortExactly(u: Setup, after: Option<nat>, net: seq<Connection>, conn: Connection, e: Event)
    requires Growing(u.log) && Faithful(u.codec) && Legible(u) && Closing(u) && conn.Stream?
    requires var s := Run(u, Start(u, after, {}), net);
      s.outcome.None? && Ends(u, LastRead(s, conn), e) && UniqueIds(u.log(LastRead(s, conn)))
    requires Start(u, after, {}).client.current < e.seqNo
    ensures var s := Run(u, Start(u, after, {}), net);
      var s' := Run(u, Start(u, after, {}), net + [conn]);
      && (s'.outcome == Some(TerminalSnapshot) <==>
           && !EndsClean(u, s.read, s.client.current, conn) && u.terminal(LastRead(s, conn)) && !Spent(u, s.reconnects)
           && e !in s'.client.yielded)
      && (s'.outcome == Some(TerminalSnapshot) ==> s'.client.current < e.seqNo <= |u.log(LastRead(s, conn))|)
  {
    hide Growing, Faithful, Legible, Closing, Reached, ConsumeAll, Received, EndsClean, LogOk, UniqueIds, Told, Ends, Start;
    var first := Start(u, after, {});
    var s := Run(u, first, net);
    assert (net + [conn])[..|net|] == net;
    var s' := Connect(u, s, conn);
    var full := u.log(LastRead(s, conn));
    AlwaysReached(u, after, {}, net);
    AlwaysTold(u, after, {}, net);
    ConnectKeepsReached(u, s, first.client.current, {}, conn);
    ConnectKeepsTold(u, s, conn);
    GrowingIsNumbered(u.log, LastRead(s, conn));
    EndIsInLog(u, LastRead(s, conn), e);
    YieldedIsCovered(full, u.types, first.client.current, s'.client, e);
    OnlyTheEndStops(u, LastRead(s, conn), e, s'.client);
    if EndsClean(u, s.read, s.client.current, conn) {
      var k := CleanEndDelivers(u, s, first.client.current, {}, conn);
      SameEnd(u, k, LastRead(s, conn), e);
    }
  }

  lemma EndIsInLog(u: Setup, k: nat, e: Event)
    requires Ends(u, k, e) && LogOk(u.log(k))
    ensures e in u.log(k) && Wanted(e, u.types) && 1 <= e.seqNo <= |u.log(k)|
  {
    Numbered(u.log(k), e);
  }

  lemma OnlyTheEndStops(u: Setup, k: nat, e: Event, c: Client)
    requires Closing(u) && Ends(u, k, e) && Told(c) && forall x :: x in c.yielded ==> x in u.log(k)
    ensures c.stop == if e in c.yielded then FINISHED else OPEN
  {
    if c.stop == FINISHED {
      var x :| x in c.yielded && x.kind in TERMINAL_TYPES;
      SameTerminal(u, k, e, x);
    }
  }

  lemma SameTerminal(u: Setup, k: nat, e: Event, x: Event)
    requires Closing(u) && e in u.log(k) && x in u.log(k) && e.kind in TERMINAL_TYPES && x.kind in TERMINAL_TYPES
    ensures e == x
  {
  }

  lemma SameEnd(u: Setup, k: nat, last: nat, e: Event)
    requires Growing(u.log) && Closing(u) && k <= last && u.terminal(k) && Ends(u, last, e)
    ensures e in u.log(k)
  {
    GrowsTo(u.log, k, last);
    var i :| 0 <= i < |u.log(k)| && u.log(k)[i].kind in TERMINAL_TYPES;
    assert u.log(k)[i] == u.log(last)[i];
    SameTerminal(u, last, e, u.log(last)[i]);
  }

  /** Nothing of a connection that fails at once arrives. */
  const CUT := Stream(1, (t: nat) => false, 0, true)

  /**
    That can happen: the run is over, its log holds an event and the terminal one, the only
    connection fails before anything comes through, and the client ends without either.
  */
  lemma CanStopShort(u: Setup, a: Event, z: Event)
    requires u.log(0) == [a, z] && (forall k :: u.log(k) == u.log(0)) && (forall k :: u.terminal(k)) && LogOk([a, z])
    requires a.kind !in TERMINAL_TYPES && z.kind in TERMINAL_TYPES && u.types == None && u.maxReconnects != Some(0)
    ensures Growing(u.log) && Closing(u)
    ensures var s := Run(u, Start(u, Some(0), {}), [CUT]);
      && Written(Flatten(Answer(u, 1, 0, CUT).chunks, u.codec)) == Written(Flatten([Frame(a), Frame(z)], u.codec))
      && s.outcome == Some(TerminalSnapshot) && s.client.yielded == [] && s.client.current == 0 < |u.log(s.read)|
  {
    hide Serve, Flatten, Written, Closing, Growing, LogOk;
    ConstantRun(u, a, z);
    FirstRound(u, a, z);
    var first := Start(u, Some(0), {});
    assert [CUT][..0] == [];
    assert Run(u, first, []) == first;
    assert Run(u, first, [CUT]) == Connect(u, first, CUT);
    assert Received(u, 1, 0, CUT) == [];
  }

  lemma ConstantRun(u: Setup, a: Event, z: Event)
    requires u.log(0) == [a, z] && (forall k :: u.log(k) == u.log(0)) && LogOk([a, z])
    requires a.kind !in TERMINAL_TYPES && z.kind in TERMINAL_TYPES
    ensures Growing(u.log) && Closing(u)
  {
    forall k | u.terminal(k) ensures exists i :: 0 <= i < |u.log(k)| && u.log(k)[i].kind in TERMINAL_TYPES {
      assert u.log(k)[1] == z;
    }
    hide LogOk;
  }

  lemma FirstRound(u: Setup, a: Event, z: Event)
    requires u.log(1) == [a, z] && LogOk([a, z]) && u.types == None
    ensures Answer(u, 1, 0, CUT).chunks == [Frame(a), Frame(z)]
  {
    var batch := EventsAfter([a, z], 0, None);
    assert [a, z][..1] == [a] && [a][..0] == [];
    assert [a, z][0].seqNo == 1 && [a, z][1].seqNo == 2;
    assert EventsAfter([a], 0, None) == [a];
    assert batch == [a, z];
    assert FramesOf([a], None) == [Frame(a)];
    assert FramesOf([a, z], None) == [Frame(a), Frame(z)];
    assert Answer(u, 1, 0, CUT).chunks == [] + FramesOf(batch, None);
  }

  // ---------------------------------------------------------------- the loop

  method StreamRunEvents(u: Setup, after: Option<nat>, seen: set<Id>, net: seq<Connection>)
    returns (yielded: seq<Event>, current: nat, known: set<Id>, outcome: Option<Outcome>)
    ensures var s := Run(u, Start(u, after, seen), net);
      yielded == s.client.yielded && current == s.client.current && known == s.client.seen && outcome == s.outcome
  {
    hide ConsumeAll, Received, EndsClean;
    ghost var first := Start(u, after, seen);
    current := if after.Some? then after.value else |u.log(0)|;
    if after.None? && u.terminal(0) {
      StoppedStays(u, first, net);
      return [], current, seen, Some(TerminalSnapshot);
    }
    var client := Client(BLANK, current, seen, [], OPEN);
    var reconnects: nat, read: nat := 0, 1;
    assert net[..0] == [];
    for i := 0 to |net|
      invariant Session(client, reconnects, read, None) == Run(u, first, net[..i])
    {
      assert net[..i + 1][..i] == net[..i];
      var conn := net[i];
      ghost var next := Connect(u, Session(client, reconnects, read, None), conn);
      assert next == Run(u, first, net[..i + 1]);
      if conn.Refused? {
        StoppedStaysAfter(u, first, net, i + 1);
        return client.yielded, client.current, client.seen, Some(ApiError);
      }
      var clean, last := EndsClean(u, read, client.current, conn), read + 2 * conn.turns;
      client := ReadLines(u, client.(parser := BLANK), Received(u, read, client.current, conn));
      read := last + 1;
      if client.stop != OPEN || (!clean && Spent(u, reconnects)) || u.terminal(last) || Spent(u, reconnects) {
        StoppedStaysAfter(u, first, net, i + 1);
        outcome := Some(if client.stop == FINISHED then TerminalEvent
        else if client.stop == BROKEN then ProtocolError
        else if !clean && Spent(u, reconnects) then BudgetExhausted
        else if u.terminal(last) then TerminalSnapshot
        else BudgetExhausted);
        return client.yielded, client.current, client.seen, outcome;
      }
      reconnects := reconnects + 1;
    }
    assert net[..|net|] == net;
    return client.yielded, client.current, client.seen, None;
  }

  method ReadLines(u: Setup, start: Client, lines: seq<string>) returns (c: Client)
    ensures c == ConsumeAll(start, lines, u.codec)
  {
    hide Consume;
    c := start;
    assert lines[..0] == [];
    for i := 0 to |lines|
      invariant c == ConsumeAll(start, lines[..i], u.codec)
    {
      assert lines[..i + 1][..i] == lines[..i];
      c := Consume(c, lines[i], u.codec);
    }
    assert lines[..|lines|] == lines;
  }

  lemma {:induction false} StoppedStays(u: Setup, first: Session, net: seq<Connection>)
    requires first.outcome.Some?
    ensures Run(u, first, net) == first
    decreases |net|
  {
    if net != [] { StoppedStays(u, first, net[..|net| - 1]); }
  }

  lemma {:induction false} StoppedStaysAfter(u: Setup, first: Session, net: seq<Connection>, i: nat)
    requires i <= |net| && Run(u, first, net[..i]).outcome.Some?
    ensures Run(u, first, net) == Run(u, first, net[..i])
    decreases |net|
  {
    if i == |net| {
      assert net[..i] == net;
    } else {
      var init := net[..|net| - 1];
      assert init[..i] == net[..i];
      StoppedStaysAfter(u, first, init, i);
    }
  }
}
