/** What ends a streaming session, and what the client makes of frames that do not agree with themselves. */
module EventSessions {
  import opened Wrappers
  import opened RunStore
  import opened EventPaging
  import opened EventStream
  import opened EventStreamClient
  import opened Text

  /** No reconnect is left. */
  predicate NoneLeft(u: Setup, reconnects: nat) {
    u.maxReconnects.Some? && u.maxReconnects.value <= reconnects
  }

  /** A refused connection ends the session with the service's error; what was handed over stays. */
  lemma RefusalEnds(u: Setup, s: Session)
    requires s.outcome.None?
    ensures Connect(u, s, Refused) == s.(outcome := Some(ApiError))
  {
  }

  /**
    After a connection the session has ended with the terminal event exactly if that was handed over,
    with a protocol error exactly if the client met one, with a spent budget exactly if no reconnect is
    left and the run is not known to be over, or the transport failed; with the snapshot exactly if that
    is terminal and the budget allowed to look. Otherwise it goes on, one reconnect further.
  */
  lemma ConnectionEnds(u: Setup, s: Session, conn: Connection)
    requires s.outcome.None? && conn.Stream?
    ensures var s' := Connect(u, s, conn);
      var clean := EndsClean(u, s.read, s.client.current, conn);
      var over := u.terminal(s.read + 2 * conn.turns);
      && s'.client == ConsumeAll(s.client.(parser := EventStream.BLANK), Received(u, s.read, s.client.current, conn), u.codec)
      && s'.read == s.read + 2 * conn.turns + 1
      && (s'.outcome == Some(TerminalEvent) <==> s'.client.stop == FINISHED)
      && (s'.outcome == Some(ProtocolError) <==> s'.client.stop == BROKEN)
      && (s'.outcome == Some(BudgetExhausted) <==> s'.client.stop == OPEN && NoneLeft(u, s.reconnects) && (!clean || !over))
      && (s'.outcome == Some(TerminalSnapshot) <==> s'.client.stop == OPEN && over && (clean || !NoneLeft(u, s.reconnects)))
      && (s'.outcome == None <==> s'.client.stop == OPEN && !over && !NoneLeft(u, s.reconnects))
      && s'.reconnects == s.reconnects + (if s'.outcome.None? then 1 else 0)
  {
    hide ConsumeAll, Received, EndsClean;
  }

  /** A session that has ended stays as it is. */
  lemma EndedStays(u: Setup, s: Session, conn: Connection)
    requires s.outcome.Some?
    ensures Connect(u, s, conn) == s
  {
    hide ConsumeAll, Received, EndsClean;
  }

  /** A session starts where the caller says, or after the last event of the snapshot; a run that is over then needs no stream. */
  lemma SessionStarts(u: Setup, after: Option<nat>, seen: set<Id>)
    ensures var s := Start(u, after, seen);
      && s.client.current == (if after.Some? then after.value else |u.log(0)|)
      && s.client.seen == seen && s.client.yielded == [] && s.client.stop == OPEN && s.client.parser == EventStream.BLANK
      && s.reconnects == 0 && (s.outcome.Some? <==> after.None? && u.terminal(0))
      && (s.outcome.Some? ==> s.outcome == Some(TerminalSnapshot))
  {
  }

  // ---------------------------------------------------------------- the server's loop

  /**
    One round of the server: new events are written and nothing else; without any the loop ends exactly
    if the run is terminal and the position not short of its count; otherwise at most a heartbeat is written.
  */
  lemma RoundIs(log: Reads, terminal: nat -> bool, start: nat, types: Types, beats: nat -> bool, turns: nat)
    ensures var s := Serve(log, terminal, start, types, beats, turns);
      var s' := Serve(log, terminal, start, types, beats, turns + 1);
      var news := EventsAfter(log(2 * turns), s.position, None);
      && (s.ended ==> s' == s)
      && (!s.ended && news != [] ==> s'.chunks == s.chunks + FramesOf(news, types) && !s'.ended)
      && (!s.ended && news != [] ==> s'.position == if news[|news| - 1].seqNo > s.position then news[|news| - 1].seqNo else s.position)
      && (!s.ended && news == [] ==> s'.position == s.position)
      && (!s.ended && news == [] ==> (s'.ended <==> terminal(2 * turns + 1) && |log(2 * turns + 1)| <= s.position))
      && (!s.ended && news == [] ==> s'.chunks == if !s'.ended && beats(turns) then s.chunks + [Beat] else s.chunks)
  {
    hide EventsAfter, FramesOf;
  }

  /** Once the run is over and its log grows no more, two rounds end the loop, with all of it written. */
  lemma ServerEnds(log: Reads, terminal: nat -> bool, start: nat, types: Types, beats: nat -> bool, turns: nat, full: seq<Event>)
    requires Growing(log) && forall k: nat :: k >= 2 * turns ==> terminal(k) && log(k) == full
    ensures var s := Serve(log, terminal, start, types, beats, turns + 2);
      s.ended && EventsOf(s.chunks) == Segment(full, start, s.position, types)
    ensures !Serve(log, terminal, start, types, beats, turns).ended ==> Serve(log, terminal, start, types, beats, turns + 2).position >= |full|
  {
    hide EventsAfter, FramesOf, Growing, Serve, Segment, EventsOf, LogOk;
    var s, next := Serve(log, terminal, start, types, beats, turns), Serve(log, terminal, start, types, beats, turns + 1);
    RoundIs(log, terminal, start, types, beats, turns);
    RoundIs(log, terminal, start, types, beats, turns + 1);
    GrowingIsNumbered(log, 2 * turns);
    forall t: nat | t < 2 * (turns + 2) ensures log(t) <= full { GrowsTo(log, t, 2 * (turns + 2)); }
    ServerWritesTheLog(log, terminal, start, types, beats, turns + 2, full);
    if EventsAfter(full, s.position, None) != [] {
      BatchIsSuffix(full, s.position);
      LastIsNumbered(full);
    }
    NothingAfter(full, s.position);
    NothingAfter(full, next.position);
  }

  lemma LastIsNumbered(log: seq<Event>)
    requires LogOk(log) && log != []
    ensures log[|log| - 1].seqNo == |log|
  {
  }

  lemma NothingAfter(log: seq<Event>, position: nat)
    requires LogOk(log)
    ensures EventsAfter(log, position, None) == [] <==> position >= |log|
  {
    EventsAfterIsSuffix(log, position, None);
    if position <= |log| { ChosenAll(log[position..]); }
  }

  // ---------------------------------------------------------------- one frame

  /** A frame's data is taken exactly if it reads as an event whose number and type are those of the frame, where the frame gives them. */
  lemma DecodesExactly(p: Parser, codec: Codec, e: Event)
    ensures Decode(p, codec) == Some(e) <==>
      && codec.read(Join(p.data)) == Some(e)
      && (p.id.Some? ==> IsDigits(p.id.value) && Number(p.id.value) == e.seqNo)
      && (p.name.Some? ==> p.name.value == e.kind)
  {
    hide Join, IsDigits, Number;
  }

  /** A blank line ends a frame: nothing without data, a protocol error if the data is not taken, and the event otherwise. */
  lemma BlankLineEnds(c: Client, codec: Codec)
    requires c.stop == OPEN
    ensures var r := Consume(c, "", codec);
      && (c.parser.data == [] ==> r == c.(parser := EventStream.BLANK))
      && (c.parser.data != [] && Decode(c.parser, codec).None? ==> r == c.(stop := BROKEN))
      && (c.parser.data != [] && Decode(c.parser, codec).Some? ==> r == Take(c.(parser := EventStream.BLANK), Decode(c.parser, codec).value))
  {
    hide Take, Decode;
  }

  /** Comments and unknown fields change nothing. */
  lemma OtherLinesAreIgnored(c: Client, line: string, codec: Codec)
    requires line != "" && (line[0] == ':' || Field(line).0 !in {"id", "event", "data"})
    ensures Consume(c, line, codec) == c
  {
    hide Take, Decode, Field;
  }

  /** Several data lines are one text, with line feeds between them. */
  lemma {:induction false} DataIsJoined(lines: seq<string>, line: string)
    requires lines != []
    ensures Join(lines + [line]) == Join(lines) + "\n" + line && Join([line]) == line && Join([]) == ""
  {
    assert (lines + [line])[..|lines|] == lines;
  }

  /** An event moves the position up to its number and is handed over unless its identifier was seen; a terminal one ends the stream. */
  lemma TakingAnEvent(c: Client, e: Event)
    requires c.stop == OPEN
    ensures var r := Take(c, e);
      && r.parser == c.parser
      && (e.seqNo == 0 ==> r == c.(stop := BROKEN))
      && (e.seqNo >= 1 ==> r.current == if e.seqNo > c.current then e.seqNo else c.current)
      && (e.seqNo >= 1 && e.id in c.seen ==> r.seen == c.seen && r.yielded == c.yielded && r.stop == OPEN)
      && (e.seqNo >= 1 && e.id !in c.seen ==> r.seen == c.seen + {e.id} && r.yielded == c.yielded + [e])
      && (e.seqNo >= 1 && e.id !in c.seen ==>
            (r.stop == FINISHED <==> e.kind in {"run.completed.v1", "run.failed.v1", "run.canceled.v1", "run.expired.v1"})
            && (r.stop == FINISHED || r.stop == OPEN))
  {
  }

  // ---------------------------------------------------------------- one page

  /** An event is chosen exactly if it is there and its type is one of those asked for, or none were. */
  lemma {:induction false} ChosenExactly(events: seq<Event>, types: Types, e: Event)
    ensures e in Chosen(events, types) <==> e in events && (types.Some? ==> e.kind in types.value)
    decreases |events|
  {
    if events != [] {
      var init, last := events[..|events| - 1], events[|events| - 1];
      ChosenExactly(init, types, e);
      assert events == init + [last];
    }
  }

  /** The events of a log after a number that are chosen, and no others, are read. */
  lemma {:induction false} ReadExactly(log: seq<Event>, after: nat, types: Types, e: Event)
    ensures e in EventsAfter(log, after, types) <==> e in log && e.seqNo > after && (types.Some? ==> e.kind in types.value)
    decreases |log|
  {
    if log != [] {
      var init, last := log[..|log| - 1], log[|log| - 1];
      ReadExactly(init, after, types, e);
      assert log == init + [last];
    }
  }


  /** A request is refused exactly for a limit outside 1 to 100, or a cursor without one; no cursor expires. */
  lemma RequestErrors(snapshotSeq: nat, log: seq<Event>, request: Request)
    ensures var r := ReadEvents(snapshotSeq, log, request);
      && (r == Err(BadLimit) <==> request.First? && request.limit.Some? && (request.limit.value < 1 || request.limit.value > 100))
      && (r == Err(InvalidCursor) <==> request.Follow? && request.cursor.limit == 0)
      && (r.Err? ==> r.error == BadLimit || r.error == InvalidCursor)
  {
    hide UpTo, EventsAfter;
  }

  /** A first request reads from the start unless told otherwise, fifty events unless told otherwise, up to the snapshot; a cursor carries all that on. */
  lemma FirstIsACursor(snapshotSeq: nat, log: seq<Event>, after: Option<nat>, limit: Option<nat>, types: Types)
    requires limit.Some? ==> 1 <= limit.value <= 100
    ensures ReadEvents(snapshotSeq, log, First(after, limit, types)) ==
      ReadEvents(snapshotSeq, log, Follow(Cursor(if after.Some? then after.value else 0, snapshotSeq, if limit.Some? then limit.value else 50, types)))
  {
    hide UpTo, EventsAfter;
  }

  /** A page holds as much of its window as the limit allows; there is a next one exactly if something is left, and it starts after the last item. */
  lemma PageIs(snapshotSeq: nat, log: seq<Event>, at: Cursor)
    requires LogOk(log) && at.high <= |log| && at.limit >= 1
    ensures var r := ReadEvents(snapshotSeq, log, Follow(at)); var w := Window(log, at.position, at.high, at.types);
      && r.Ok? && r.value.high == at.high
      && r.value.items == (if |w| <= at.limit then w else w[..at.limit])
      && (r.value.next.Some? <==> |w| > at.limit)
      && (r.value.next.Some? ==> r.value.next.value == at.(position := w[at.limit - 1].seqNo))
  {
    CandidatesAreTheWindow(log, at.position, at.high, at.types);
    hide UpTo, EventsAfter, Window;
  }
}
