/**
  Following a run over server-sent events: the server's frames, line by line, the client's parser
  and de-duplication, and its reconnects with Last-Event-ID, while the log keeps growing and the
  connection may be cut after any character.
*/
module EventStream {
  import opened Wrappers
  import opened RunStore
  import opened EventPaging
  import opened Text
  import opened StreamText

  // ---------------------------------------------------------------- the server's frames

  /** JSON, as far as it matters here: what is written can be read back. */
  datatype Codec = Codec(write: Event -> string, read: string -> Option<Event>)

  ghost predicate Faithful(codec: Codec) {
    forall e :: codec.read(codec.write(e)) == Some(e)
  }

  /** Neither the type nor the JSON text of the event holds a line break. */
  predicate Printable(e: Event, codec: Codec) {
    OneLine(e.kind) && OneLine(codec.write(e))
  }

  datatype Chunk = Frame(event: Event) | Beat

  function LinesOf(chunk: Chunk, codec: Codec): seq<string> {
    match chunk
    case Beat => [": heartbeat", ""]
    case Frame(e) => ["id: " + Decimal(e.seqNo), "event: " + e.kind, "data: " + codec.write(e), ""]
  }

  function Flatten(chunks: seq<Chunk>, codec: Codec): seq<string> {
    if chunks == [] then [] else Flatten(chunks[..|chunks| - 1], codec) + LinesOf(chunks[|chunks| - 1], codec)
  }

  function FramesOf(events: seq<Event>, types: Types): seq<Chunk> {
    if events == [] then []
    else
      var last := events[|events| - 1];
      FramesOf(events[..|events| - 1], types) + if Wanted(last, types) then [Frame(last)] else []
  }

  function EventsOf(chunks: seq<Chunk>): seq<Event> {
    if chunks == [] then []
    else EventsOf(chunks[..|chunks| - 1]) + match chunks[|chunks| - 1] case Frame(e) => [e] case Beat => []
  }

  datatype Served = Served(chunks: seq<Chunk>, position: nat, ended: bool)

  /**
    What the server has written after `turns` rounds of its loop, its position, and whether the loop
    has ended. A round reads the events and, when there are none, the run's snapshot: it ends if the
    run is terminal and the position is not short of the snapshot's last number.
  */
  function Serve(log: Reads, terminal: nat -> bool, start: nat, types: Types, beats: nat -> bool, turns: nat): Served {
    if turns == 0 then Served([], start, false)
    else
      var s := Serve(log, terminal, start, types, beats, turns - 1);
      var t := 2 * (turns - 1);
      var batch := EventsAfter(log(t), s.position, None);
      if s.ended then s
      else if batch != [] then
        Served(s.chunks + FramesOf(batch, types), if s.position < batch[|batch| - 1].seqNo then batch[|batch| - 1].seqNo else s.position, false)
      else if terminal(t + 1) && s.position >= |log(t + 1)| then s.(ended := true)
      else if beats(turns - 1) then s.(chunks := s.chunks + [Beat])
      else s
  }

  // ---------------------------------------------------------------- the client's parser

  datatype Parser = Parser(id: Option<string>, name: Option<string>, data: seq<string>)

  const BLANK := Parser(None, None, [])

  datatype Stop = OPEN | FINISHED | BROKEN

  datatype Client = Client(parser: Parser, current: nat, seen: set<Id>, yielded: seq<Event>, stop: Stop)

  const TERMINAL_TYPES := {"run.completed.v1", "run.failed.v1", "run.canceled.v1", "run.expired.v1"}

  function Join(lines: seq<string>): string {
    if lines == [] then "" else if |lines| == 1 then lines[0] else Join(lines[..|lines| - 1]) + "\n" + lines[|lines| - 1]
  }

  /** The field before the first colon, and its value less one leading space. */
  function Field(line: string): (string, string) {
    match Split(line, ':')
    case None => (line, "")
    case Some((field, value)) => (field, if value != "" && value[0] == ' ' then value[1..] else value)
  }

  function Decode(p: Parser, codec: Codec): Option<Event> {
    match codec.read(Join(p.data))
    case None => None
    case Some(e) =>
      if p.id.Some? && (!IsDigits(p.id.value) || Number(p.id.value) != e.seqNo) then None
      else if p.name.Some? && p.name.value != e.kind then None
      else Some(e)
  }

  /** One complete event has arrived. */
  function Take(c: Client, e: Event): Client {
    if c.stop != OPEN then c
    else if e.seqNo < 1 then c.(stop := BROKEN)
    else
      var moved := c.(current := if c.current < e.seqNo then e.seqNo else c.current);
      if e.id in c.seen then moved
      else moved.(seen := c.seen + {e.id}, yielded := c.yielded + [e], stop := if e.kind in TERMINAL_TYPES then FINISHED else OPEN)
  }

  function Consume(c: Client, line: string, codec: Codec): Client {
    if c.stop != OPEN then c
    else if line == "" then
      if c.parser.data == [] then c.(parser := BLANK)
      else
        match Decode(c.parser, codec)
        case None => c.(stop := BROKEN)
        case Some(e) => Take(c.(parser := BLANK), e)
    else if line[0] == ':' then c
    else
      var (field, value) := Field(line);
      if field == "id" then c.(parser := c.parser.(id := Some(value)))
      else if field == "event" then c.(parser := c.parser.(name := Some(value)))
      else if field == "data" then c.(parser := c.parser.(data := c.parser.data + [value]))
      else c
  }

  function ConsumeAll(c: Client, lines: seq<string>, codec: Codec): Client {
    if lines == [] then c else Consume(ConsumeAll(c, lines[..|lines| - 1], codec), lines[|lines| - 1], codec)
  }

  function TakeAll(c: Client, events: seq<Event>): Client {
    if events == [] then c else Take(TakeAll(c, events[..|events| - 1]), events[|events| - 1])
  }

  // ---------------------------------------------------------------- lines carry exactly the events

  lemma FieldReadsBack(name: string, value: string)
    requires ':' !in name
    ensures Field(name + ": " + value) == (name, value)
  {
    assert name + ": " + value == name + ":" + (" " + value);
    SplitReadsBack(name, ':', " " + value);
    assert (" " + value)[1..] == value;
  }

  lemma {:induction false} ConsumeAdds(c: Client, a: seq<string>, b: seq<string>, codec: Codec)
    ensures ConsumeAll(c, a + b, codec) == ConsumeAll(ConsumeAll(c, a, codec), b, codec)
    decreases |b|
  {
    if b == [] {
      assert a + b == a;
    } else {
      var init := b[..|b| - 1];
      ConsumeAdds(c, a, init, codec);
      assert (a + b)[..|a + b| - 1] == a + init;
      assert (a + b)[|a + b| - 1] == b[|b| - 1];
    }
  }

  lemma ConsumeNext(c: Client, lines: seq<string>, line: string, codec: Codec)
    ensures ConsumeAll(c, lines + [line], codec) == Consume(ConsumeAll(c, lines, codec), line, codec)
  {
    assert (lines + [line])[..|lines|] == lines;
  }

  lemma ConsumeFour(c: Client, w: string, x: string, y: string, z: string, codec: Codec)
    ensures ConsumeAll(c, [w, x, y, z], codec) == Consume(Consume(Consume(Consume(c, w, codec), x, codec), y, codec), z, codec)
  {
    hide Consume;
    ConsumeNext(c, [], w, codec);
    ConsumeNext(c, [w], x, codec);
    ConsumeNext(c, [w, x], y, codec);
    ConsumeNext(c, [w, x, y], z, codec);
    assert [] + [w] == [w] && [w] + [x] == [w, x] && [w, x] + [y] == [w, x, y] && [w, x, y] + [z] == [w, x, y, z];
  }

  lemma IdLine(c: Client, value: string, codec: Codec)
    requires c.stop == OPEN
    ensures Consume(c, "id: " + value, codec) == c.(parser := c.parser.(id := Some(value)))
  {
    FieldReadsBack("id", value);
    assert "id" + ": " == "id: ";
    hide Field, Decode, Take;
  }

  lemma EventLine(c: Client, value: string, codec: Codec)
    requires c.stop == OPEN
    ensures Consume(c, "event: " + value, codec) == c.(parser := c.parser.(name := Some(value)))
  {
    FieldReadsBack("event", value);
    assert "event" + ": " == "event: ";
    assert "event" != "id" by { assert |"event"| != |"id"|; }
    hide Field, Decode, Take;
  }

  lemma DataLine(c: Client, value: string, codec: Codec)
    requires c.stop == OPEN
    ensures Consume(c, "data: " + value, codec) == c.(parser := c.parser.(data := c.parser.data + [value]))
  {
    FieldReadsBack("data", value);
    assert "data" + ": " == "data: ";
    assert "data" != "id" && "data" != "event" by { assert |"data"| != |"id"| && |"data"| != |"event"|; }
    hide Field, Decode, Take;
  }

  lemma FrameDecodes(e: Event, codec: Codec)
    requires Faithful(codec)
    ensures Decode(Parser(Some(Decimal(e.seqNo)), Some(e.kind), [codec.write(e)]), codec) == Some(e)
  {
    DecimalReadsBack(e.seqNo);
    assert Join([codec.write(e)]) == codec.write(e);
    hide Decimal, Number, IsDigits;
  }

  /** A whole frame is the event it was made of: its identifier, type and text agree. */
  lemma FrameIsEvent(c: Client, e: Event, codec: Codec)
    requires Faithful(codec) && c.parser == BLANK
    ensures ConsumeAll(c, LinesOf(Frame(e), codec), codec) == Take(c, e)
  {
    var w, x, y := "id: " + Decimal(e.seqNo), "event: " + e.kind, "data: " + codec.write(e);
    ConsumeFour(c, w, x, y, "", codec);
    if c.stop == OPEN {
      IdLine(c, Decimal(e.seqNo), codec);
      var c1 := Consume(c, w, codec);
      EventLine(c1, e.kind, codec);
      var c2 := Consume(c1, x, codec);
      DataLine(c2, codec.write(e), codec);
      var c3 := Consume(c2, y, codec);
      FrameDecodes(e, codec);
      BlankDispatches(c3, e, codec);
      assert c3.(parser := BLANK) == c;
    }
    hide Consume, Take, Decode, Decimal, Faithful;
  }

  lemma BlankDispatches(c: Client, e: Event, codec: Codec)
    requires c.stop == OPEN && c.parser.data != [] && Decode(c.parser, codec) == Some(e)
    ensures Consume(c, "", codec) == Take(c.(parser := BLANK), e)
  {
    hide Take, Decode;
  }

  lemma BeatIsNothing(c: Client, codec: Codec)
    requires c.parser == BLANK
    ensures ConsumeAll(c, LinesOf(Beat, codec), codec) == c
  {
    ConsumeNext(c, [], ": heartbeat", codec);
    ConsumeNext(c, [": heartbeat"], "", codec);
    assert [] + [": heartbeat"] == [": heartbeat"] && [": heartbeat"] + [""] == [": heartbeat", ""];
    assert Consume(c, ": heartbeat", codec) == c;
    hide Field, Decode, Take, ConsumeAll;
  }

  lemma {:induction false} ChunksAreEvents(c: Client, chunks: seq<Chunk>, codec: Codec)
    requires Faithful(codec) && c.parser == BLANK
    ensures ConsumeAll(c, Flatten(chunks, codec), codec) == TakeAll(c, EventsOf(chunks))
    ensures TakeAll(c, EventsOf(chunks)).parser == BLANK
    decreases |chunks|
  {
    hide Faithful, Consume, Take, LinesOf;
    if chunks != [] {
      var init, last := chunks[..|chunks| - 1], chunks[|chunks| - 1];
      ChunksAreEvents(c, init, codec);
      ConsumeAdds(c, Flatten(init, codec), LinesOf(last, codec), codec);
      var before := TakeAll(c, EventsOf(init));
      if last.Beat? {
        BeatIsNothing(before, codec);
        assert EventsOf(init) + [] == EventsOf(init);
      } else {
        FrameIsEvent(before, last.event, codec);
        var all := EventsOf(chunks);
        assert all[..|all| - 1] == EventsOf(init) && all[|all| - 1] == last.event;
        TakeKeepsParser(before, last.event);
      }
    }
  }

  lemma {:induction false} PrintableLines(chunks: seq<Chunk>, codec: Codec)
    requires forall e :: e in EventsOf(chunks) ==> Printable(e, codec)
    ensures forall line :: line in Flatten(chunks, codec) ==> OneLine(line)
    decreases |chunks|
  {
    hide OneLine, LinesOf;
    if chunks != [] {
      var init, last := chunks[..|chunks| - 1], chunks[|chunks| - 1];
      assert forall e :: e in EventsOf(init) ==> e in EventsOf(chunks);
      PrintableLines(init, codec);
      if last.Frame? {
        assert EventsOf(chunks)[|EventsOf(init)|] == last.event;
        FrameLines(last.event, codec);
      } else {
        BeatLines(codec);
      }
    }
  }

  lemma FrameLines(e: Event, codec: Codec)
    requires Printable(e, codec)
    ensures forall line :: line in LinesOf(Frame(e), codec) ==> OneLine(line)
  {
    hide IsBreak;
    NamesAreOneLine();
    DecimalIsOneLine(e.seqNo);
    TwoParts("id: ", Decimal(e.seqNo));
    TwoParts("event: ", e.kind);
    TwoParts("data: ", codec.write(e));
  }

  lemma BeatLines(codec: Codec)
    ensures forall line :: line in LinesOf(Beat, codec) ==> OneLine(line)
  {
  }

  lemma NamesAreOneLine()
    ensures OneLine("id: ") && OneLine("event: ") && OneLine("data: ") && OneLine("")
  {
  }

  lemma TwoParts(a: string, b: string)
    requires OneLine(a) && OneLine(b)
    ensures OneLine(a + b)
  {
    hide IsBreak;
  }

  lemma DecimalIsOneLine(n: nat)
    ensures OneLine(Decimal(n))
  {
    DecimalReadsBack(n);
    assert forall c :: IsDigit(c) ==> !IsBreak(c);
    hide IsBreak, Decimal;
  }

  /** Any part of the text of a series of frames and heartbeats is read as the events of the first ones. */
  lemma TextIsEvents(c: Client, chunks: seq<Chunk>, codec: Codec, cut: nat) returns (j: nat)
    requires Faithful(codec) && c.parser == BLANK && forall e :: e in EventsOf(chunks) ==> Printable(e, codec)
    requires cut <= |Written(Flatten(chunks, codec))|
    ensures var text := Written(Flatten(chunks, codec));
      && j <= |chunks|
      && ConsumeAll(c, Lines(text[..cut]).0, codec).(parser := BLANK) == TakeAll(c, EventsOf(chunks[..j])).(parser := BLANK)
      && (cut == |text| ==> j == |chunks|)
  {
    hide Faithful, ConsumeAll, TakeAll, EventsOf, Written, Lines, Flatten, Printable, OneLine;
    var lines := Flatten(chunks, codec);
    var text := Written(lines);
    PrintableLines(chunks, codec);
    if cut == |text| {
      j := |chunks|;
      WrittenReadsBack(lines);
      assert text[..cut] == text && chunks[..j] == chunks;
      ChunksAreEvents(c, chunks, codec);
    } else {
      var n := PartReadsBack(lines, cut);
      var rest;
      j, rest := CutBetweenChunks(chunks, codec, n);
      ChunksAreEvents(c, chunks[..j], codec);
      ConsumePartial(c, Flatten(chunks[..j], codec), rest, codec);
    }
  }

  lemma ConsumePartial(c: Client, whole: seq<string>, rest: seq<string>, codec: Codec)
    requires "" !in rest
    ensures ConsumeAll(c, whole + rest, codec).(parser := BLANK) == ConsumeAll(c, whole, codec).(parser := BLANK)
  {
    ConsumeAdds(c, whole, rest, codec);
    PartialYieldsNothing(ConsumeAll(c, whole, codec), rest, codec);
    hide ConsumeAll;
  }

  // ---------------------------------------------------------------- text with line breaks in it

  /** No part of the text can be read on its own, as no part of a JSON object can. */
  ghost predicate Whole(e: Event, codec: Codec) {
    forall k :: 0 <= k < |codec.write(e)| ==> codec.read(codec.write(e)[..k]) == None
  }

  predicate LooksLikeField(line: string) {
    line != "" && line[0] != ':' && Field(line).0 in {"id", "event", "data"}
  }

  /** What the client makes of a frame's text. */
  function FrameText(e: Event, codec: Codec): seq<string> {
    Lines(Written(LinesOf(Frame(e), codec))).0
  }

  /**
    A frame is read as its event exactly when its JSON text holds no line break; otherwise the client
    raises a protocol error. No piece after the first break may pass for a field of its own.
  */
  lemma FrameIsReadExactly(c: Client, e: Event, codec: Codec)
    requires c.stop == OPEN && c.parser == BLANK && e.seqNo > 0
    requires Faithful(codec) && Whole(e, codec) && OneLine(e.kind)
    requires forall i :: 3 <= i < |FrameText(e, codec)| ==> !LooksLikeField(FrameText(e, codec)[i])
    ensures var r := ConsumeAll(c, FrameText(e, codec), codec);
      && (r == Take(c, e) <==> OneLine(codec.write(e)))
      && (r.stop == BROKEN <==> !OneLine(codec.write(e)))
  {
    hide Faithful, Whole, ConsumeAll, OneLine, LinesOf, Lines, Written, LooksLikeField;
    if OneLine(codec.write(e)) {
      FrameLines(e, codec) by { assert Printable(e, codec); }
      WrittenReadsBack(LinesOf(Frame(e), codec));
      FrameIsEvent(c, e, codec);
    } else {
      BreakIsRefused(c, e, codec);
    }
  }

  lemma BreakIsRefused(c: Client, e: Event, codec: Codec)
    requires c.stop == OPEN && c.parser == BLANK && Whole(e, codec) && OneLine(e.kind) && !OneLine(codec.write(e))
    requires forall i :: 3 <= i < |FrameText(e, codec)| ==> !LooksLikeField(FrameText(e, codec)[i])
    ensures ConsumeAll(c, FrameText(e, codec), codec).stop == BROKEN
  {
    hide ConsumeAll, OneLine, LooksLikeField, FrameText, Decimal;
    var m := BrokenFrameLines(e, codec);
    var lines, part := FrameText(e, codec), codec.write(e)[..m];
    var three := ["id: " + Decimal(e.seqNo), "event: " + e.kind, "data: " + part];
    assert lines == three + lines[3..];
    ConsumeAdds(c, three, lines[3..], codec);
    ThreeLines(c, Decimal(e.seqNo), e.kind, part, codec);
    RestIsRefused(ConsumeAll(c, three, codec), lines[3..], part, codec);
  }

  lemma ThreeLines(c: Client, id: string, kind: string, part: string, codec: Codec)
    requires c.stop == OPEN && c.parser == BLANK
    ensures var r := ConsumeAll(c, ["id: " + id, "event: " + kind, "data: " + part], codec);
      r.stop == OPEN && r.parser.data == [part]
  {
    hide Consume;
    var x, y, z := "id: " + id, "event: " + kind, "data: " + part;
    ConsumeNext(c, [], x, codec);
    ConsumeNext(c, [x], y, codec);
    ConsumeNext(c, [x, y], z, codec);
    assert [] + [x] == [x] && [x] + [y] == [x, y] && [x, y] + [z] == [x, y, z];
    IdLine(c, id, codec);
    EventLine(Consume(c, x, codec), kind, codec);
    DataLine(Consume(Consume(c, x, codec), y, codec), part, codec);
  }

  lemma {:induction false} RestIsRefused(c: Client, rest: seq<string>, part: string, codec: Codec)
    requires c.stop == OPEN && c.parser.data == [part] && codec.read(part) == None
    requires forall i :: 0 <= i < |rest| ==> !LooksLikeField(rest[i])
    ensures var r := ConsumeAll(c, rest, codec);
      if "" in rest then r.stop == BROKEN else r.stop == OPEN && r.parser.data == [part]
    decreases |rest|
  {
    hide Field;
    if rest != [] {
      var n := |rest| - 1;
      RestIsRefused(c, rest[..n], part, codec);
      assert rest == rest[..n] + [rest[n]];
      OneRefused(ConsumeAll(c, rest[..n], codec), rest[n], part, codec);
    }
  }

  lemma OneRefused(c: Client, line: string, part: string, codec: Codec)
    requires c.stop == BROKEN || (c.stop == OPEN && c.parser.data == [part])
    requires codec.read(part) == None && !LooksLikeField(line)
    ensures var r := Consume(c, line, codec);
      if c.stop == BROKEN || line == "" then r.stop == BROKEN else r.stop == OPEN && r.parser.data == [part]
  {
    assert Join([part]) == part;
    hide Field, Take;
  }

  lemma FirstBreak(s: string) returns (m: nat)
    requires !OneLine(s)
    ensures m < |s| && OneLine(s[..m]) && IsBreak(s[m])
  {
    hide IsBreak;
    m := 0;
    while !IsBreak(s[m])
      invariant m < |s| && OneLine(s[..m]) && exists i :: m <= i < |s| && IsBreak(s[i])
      decreases |s| - m
    {
      m := m + 1;
    }
  }

  /** The frame's lines up to the first break in its data; the last line is blank. */
  lemma BrokenFrameLines(e: Event, codec: Codec) returns (m: nat)
    requires OneLine(e.kind) && !OneLine(codec.write(e))
    ensures var text := codec.write(e);
      && m < |text|
      && |FrameText(e, codec)| > 3
      && FrameText(e, codec)[..3] == ["id: " + Decimal(e.seqNo), "event: " + e.kind, "data: " + text[..m]]
      && "" in FrameText(e, codec)[3..]
  {
    hide IsBreak, Lines, Decimal;
    var text := codec.write(e);
    m := FirstBreak(text);
    var x, y, z := "id: " + Decimal(e.seqNo), "event: " + e.kind, "data: " + text[..m];
    NamesAreOneLine();
    DecimalIsOneLine(e.seqNo);
    TwoParts("id: ", Decimal(e.seqNo));
    TwoParts("event: ", e.kind);
    TwoParts("data: ", text[..m]);
    ThreeRead(x, y, z, text[m]);
    var head := Written([x, y]) + z + [text[m]];
    var all := Written(LinesOf(Frame(e), codec));
    var more := text[m + 1..] + ['\n'] + ['\n'];
    FrameWritten(x, y, "data: " + text);
    assert text == text[..m] + [text[m]] + text[m + 1..];
    assert all == head + more;
    LinesOnlyGrow(head, more);
    var lines := FrameText(e, codec);
    assert lines[..3] == [x, y, z];
    LastIsBlank(all[..|all| - 2]);
    assert all == all[..|all| - 2] + ['\n'] + ['\n'];
    assert lines[|lines| - 1] == "" && |z| > 0 && |x| > 0 && |y| > 0;
    assert |lines| > 3;
    assert lines[3..][|lines| - 4] == "";
  }

  lemma FrameWritten(x: string, y: string, z: string)
    ensures Written([x, y, z, ""]) == Written([x, y]) + z + ['\n'] + ['\n']
  {
    assert [x, y, z, ""][..3] == [x, y, z] && [x, y, z][..2] == [x, y];
    assert Written([x, y, z, ""]) == Written([x, y, z]) + "" + ['\n'];
    assert Written([x, y, z]) + "" == Written([x, y, z]);
  }

  lemma ThreeRead(x: string, y: string, z: string, c: char)
    requires OneLine(x) && OneLine(y) && OneLine(z) && z != "" && IsBreak(c)
    ensures Lines(Written([x, y]) + z + [c]) == ([x, y, z], "")
  {
    hide IsBreak, Lines, Written;
    WrittenReadsBack([x, y]);
    TailIsRest(Written([x, y]), z);
    FeedIsBreak();
    var t := Written([x, y]) + z;
    assert t[|t| - 1] == z[|z| - 1];
    LinesNext(t, c);
    assert "" + z == z && [x, y] + [z] == [x, y, z];
  }

  lemma LastIsBlank(text: string)
    ensures Lines(text + ['\n'] + ['\n']) == (Lines(text + ['\n']).0 + [""], "")
  {
    hide IsBreak, Lines;
    FeedIsBreak();
    LinesNext(text + ['\n'], '\n');
    BreakEndsLine(text, '\n');
  }

  lemma BreakEndsLine(text: string, c: char)
    requires IsBreak(c)
    ensures Lines(text + [c]).1 == ""
  {
    hide IsBreak, Lines;
    FeedIsBreak();
    LinesNext(text, c);
    if c == '\n' && text != "" && text[|text| - 1] == '\r' {
      assert text == text[..|text| - 1] + ['\r'];
      LinesNext(text[..|text| - 1], '\r');
    }
  }

  lemma TakeKeepsParser(c: Client, e: Event)
    ensures Take(c, e).parser == c.parser
  {
  }

  /** Lines without a blank one among them announce nothing, whatever they are. */
  lemma {:induction false} PartialYieldsNothing(c: Client, lines: seq<string>, codec: Codec)
    requires "" !in lines
    ensures ConsumeAll(c, lines, codec).(parser := BLANK) == c.(parser := BLANK)
    decreases |lines|
  {
    if lines != [] {
      PartialYieldsNothing(c, lines[..|lines| - 1], codec);
      assert lines[|lines| - 1] != "";
      hide Field, Decode, Take;
    }
  }

  /** A cut anywhere in the text leaves whole chunks and a rest without a blank line. */
  lemma {:induction false} CutBetweenChunks(chunks: seq<Chunk>, codec: Codec, cut: nat) returns (j: nat, rest: seq<string>)
    requires cut <= |Flatten(chunks, codec)|
    ensures j <= |chunks| && Flatten(chunks, codec)[..cut] == Flatten(chunks[..j], codec) + rest && "" !in rest
    decreases |chunks|
  {
    var lines := Flatten(chunks, codec);
    if cut == |lines| {
      j, rest := |chunks|, [];
      assert chunks[..j] == chunks && lines[..cut] == lines;
    } else {
      var init := chunks[..|chunks| - 1];
      var before := Flatten(init, codec);
      if cut <= |before| {
        j, rest := CutBetweenChunks(init, codec, cut);
        assert lines[..cut] == before[..cut] && init[..j] == chunks[..j];
      } else {
        var last := LinesOf(chunks[|chunks| - 1], codec);
        j, rest := |chunks| - 1, last[..cut - |before|];
        assert lines == before + last;
        assert lines[..cut] == before + rest;
        OnlyTheLastIsBlank(chunks[|chunks| - 1], codec, cut - |before|);
      }
    }
  }

  lemma OnlyTheLastIsBlank(chunk: Chunk, codec: Codec, k: nat)
    requires k < |LinesOf(chunk, codec)|
    ensures "" !in LinesOf(chunk, codec)[..k]
  {
    var lines := LinesOf(chunk, codec);
    assert forall i :: 0 <= i < |lines| - 1 ==> lines[i] != "";
  }

  // ---------------------------------------------------------------- the server writes the log

  lemma {:induction false} EventsAdd(a: seq<Chunk>, b: seq<Chunk>)
    ensures EventsOf(a + b) == EventsOf(a) + EventsOf(b)
    decreases |b|
  {
    if b == [] {
      assert a + b == a;
      assert EventsOf(a) + [] == EventsOf(a);
    } else {
      var init := b[..|b| - 1];
      EventsAdd(a, init);
      assert (a + b)[..|a + b| - 1] == a + init;
      assert (a + b)[|a + b| - 1] == b[|b| - 1];
    }
  }

  lemma {:induction false} FramesCarry(events: seq<Event>, types: Types)
    ensures EventsOf(FramesOf(events, types)) == Chosen(events, types)
    decreases |events|
  {
    if events != [] {
      var init, last := events[..|events| - 1], events[|events| - 1];
      FramesCarry(init, types);
      var frames := FramesOf(init, types);
      if Wanted(last, types) {
        assert (frames + [Frame(last)])[..|frames|] == frames;
      } else {
        assert frames + [] == frames;
        assert Chosen(init, types) + [] == Chosen(init, types);
      }
    }
  }

  /** The part of a log between two positions, filtered; nothing when the log does not reach that far. */
  function Segment(log: seq<Event>, start: nat, position: nat, types: Types): seq<Event> {
    if start <= position <= |log| then Chosen(log[start..position], types) else []
  }

  lemma SegmentsJoin(log: seq<Event>, start: nat, mid: nat, position: nat, types: Types)
    requires start <= mid <= position && (mid == start || mid <= |log|) && (position == mid || position <= |log|)
    ensures Segment(log, start, position, types) == Segment(log, start, mid, types) + Segment(log, mid, position, types)
  {
    if position <= |log| {
      assert log[start..position] == log[start..mid] + log[mid..position];
      ChosenAdds(log[start..mid], log[mid..position], types);
    } else {
      assert position == mid == start;
    }
  }

  lemma {:induction false} ChosenAll(events: seq<Event>)
    ensures Chosen(events, None) == events
    decreases |events|
  {
    hide Chosen;
    if events == [] {
      ChosenNone(None);
    } else {
      var init, last := events[..|events| - 1], events[|events| - 1];
      ChosenAll(init);
      ChosenNext(init, last, None);
      assert events == init + [last];
    }
  }

  /** The server writes the filtered log from its starting position on, without gaps or repeats. */
  lemma {:induction false} ServerWritesTheLog(log: Reads, terminal: nat -> bool, start: nat, types: Types, beats: nat -> bool, turns: nat, full: seq<Event>)
    requires Growing(log) && LogOk(full) && forall t: nat :: t < 2 * turns ==> log(t) <= full
    ensures var s := Serve(log, terminal, start, types, beats, turns);
      && start <= s.position && (s.position == start || s.position <= |full|)
      && EventsOf(s.chunks) == Segment(full, start, s.position, types)
    decreases turns
  {
    hide Growing, EventsAfter, Chosen, FramesOf, EventsOf, Segment, LogOk;
    if turns == 0 {
      NoChunks();
      NothingInSegment(full, start, types);
    } else {
      ServerWritesTheLog(log, terminal, start, types, beats, turns - 1, full);
      var s := Serve(log, terminal, start, types, beats, turns - 1);
      var t := 2 * (turns - 1);
      GrowingIsNumbered(log, t);
      if EventsAfter(log(t), s.position, None) != [] {
        OneBatch(log(t), s.position, types, s.chunks, start, full);
      } else if beats(turns - 1) {
        EventsAdd(s.chunks, [Beat]);
        BeatsCarryNothing();
        assert EventsOf(s.chunks) + [] == EventsOf(s.chunks);
      }
    }
  }

  /** The loop ends only where some snapshot read was terminal and everything it counted had been written. */
  lemma {:induction false} EndedAtTheEnd(log: Reads, terminal: nat -> bool, start: nat, types: Types, beats: nat -> bool, turns: nat) returns (k: nat)
    requires Serve(log, terminal, start, types, beats, turns).ended
    ensures k < 2 * turns && terminal(k) && Serve(log, terminal, start, types, beats, turns).position >= |log(k)|
  {
    hide EventsAfter, FramesOf;
    if Serve(log, terminal, start, types, beats, turns - 1).ended {
      k := EndedAtTheEnd(log, terminal, start, types, beats, turns - 1);
    } else {
      k := 2 * (turns - 1) + 1;
    }
  }

  lemma NothingInSegment(log: seq<Event>, start: nat, types: Types)
    ensures Segment(log, start, start, types) == []
  {
  }

  lemma OneBatch(now: seq<Event>, position: nat, types: Types, chunks: seq<Chunk>, start: nat, full: seq<Event>)
    requires LogOk(now) && now <= full && EventsAfter(now, position, None) != []
    requires start <= position && (position == start || position <= |full|)
    requires EventsOf(chunks) == Segment(full, start, position, types)
    ensures var batch := EventsAfter(now, position, None);
      && position < |now| == batch[|batch| - 1].seqNo
      && EventsOf(chunks + FramesOf(batch, types)) == Segment(full, start, |now|, types)
  {
    hide EventsAfter, Chosen, FramesOf, EventsOf;
    BatchIsSuffix(now, position);
    var batch := EventsAfter(now, position, None);
    assert batch == full[position..|now|];
    FramesCarry(batch, types);
    EventsAdd(chunks, FramesOf(batch, types));
    SegmentsJoin(full, start, position, |now|, types);
  }

  lemma NoChunks()
    ensures EventsOf([]) == []
  {
  }

  lemma BeatsCarryNothing()
    ensures EventsOf([Beat]) == []
  {
    assert [Beat][..0] == [];
  }

  lemma GrowingIsNumbered(log: Reads, k: nat)
    requires Growing(log)
    ensures LogOk(log(k))
  {
  }

  lemma BatchIsSuffix(log: seq<Event>, position: nat)
    requires LogOk(log) && EventsAfter(log, position, None) != []
    ensures position < |log| && EventsAfter(log, position, None) == log[position..]
  {
    EventsAfterIsSuffix(log, position, None);
    if position <= |log| { ChosenAll(log[position..]); }
  }
}
