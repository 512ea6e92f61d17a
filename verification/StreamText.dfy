/** The text of a stream and the lines a client makes of it, for any part of the text that arrives. */
module StreamText {

  /** The characters at which the client's line iterator splits; a line feed after a carriage return is one break with it. */
  predicate IsBreak(c: char) {
    c in {'\n', '\r', '\U{B}', '\U{C}', '\U{1C}', '\U{1D}', '\U{1E}', '\U{85}', '\U{2028}', '\U{2029}'}
  }

  predicate OneLine(s: string) {
    forall i :: 0 <= i < |s| ==> !IsBreak(s[i])
  }

  /** The lines that are complete, and what has come since the last break. */
  function Lines(text: string): (seq<string>, string) {
    if text == "" then ([], "")
    else
      var n := |text| - 1;
      var (lines, rest) := Lines(text[..n]);
      if text[n] == '\n' && n > 0 && text[n - 1] == '\r' then (lines, rest)
      else if IsBreak(text[n]) then (lines + [rest], "")
      else (lines, rest + [text[n]])
  }

  /** What the server sends for a series of lines. */
  function Written(lines: seq<string>): string {
    if lines == [] then "" else Written(lines[..|lines| - 1]) + lines[|lines| - 1] + ['\n']
  }

  lemma FeedIsBreak()
    ensures IsBreak('\n') && IsBreak('\r') && '\r' != '\n'
  {
  }

  lemma LinesNext(text: string, c: char)
    ensures Lines(text + [c]) ==
      var (lines, rest) := Lines(text);
      if c == '\n' && text != "" && text[|text| - 1] == '\r' then (lines, rest)
      else if IsBreak(c) then (lines + [rest], "")
      else (lines, rest + [c])
  {
    assert (text + [c])[..|text|] == text;
  }

  lemma {:induction false} TailIsRest(text: string, tail: string)
    requires OneLine(tail)
    ensures Lines(text + tail) == (Lines(text).0, Lines(text).1 + tail)
    decreases |tail|
  {
    hide Lines, IsBreak;
    if tail == "" {
      assert text + tail == text;
      assert Lines(text).1 + tail == Lines(text).1;
    } else {
      var n := |tail| - 1;
      TailIsRest(text, tail[..n]);
      assert text + tail == (text + tail[..n]) + [tail[n]];
      FeedIsBreak();
      assert tail[n] != '\n';
      LinesNext(text + tail[..n], tail[n]);
      assert Lines(text).1 + tail == Lines(text).1 + tail[..n] + [tail[n]];
    }
  }

  lemma WrittenEnds(lines: seq<string>)
    ensures Written(lines) != "" ==> Written(lines)[|Written(lines)| - 1] == '\n'
  {
  }

  lemma LineEnds(text: string, line: string)
    requires OneLine(line) && (text != "" ==> text[|text| - 1] == '\n') && Lines(text).1 == ""
    ensures Lines(text + line + ['\n']) == (Lines(text).0 + [line], "")
  {
    hide Lines, IsBreak;
    TailIsRest(text, line);
    FeedIsBreak();
    assert "" + line == line;
    NotAReturn(text, line);
    LinesNext(text + line, '\n');
  }

  lemma NotAReturn(text: string, line: string)
    requires OneLine(line) && (text != "" ==> text[|text| - 1] == '\n')
    ensures text + line != "" ==> (text + line)[|text + line| - 1] != '\r'
  {
    hide IsBreak;
    FeedIsBreak();
    if line == "" {
      assert text + line == text;
    } else {
      assert (text + line)[|text + line| - 1] == line[|line| - 1];
    }
  }

  /** Lines without breaks inside come back as they were written. */
  lemma {:induction false} WrittenReadsBack(lines: seq<string>)
    requires forall line :: line in lines ==> OneLine(line)
    ensures Lines(Written(lines)) == (lines, "")
  {
    if lines != [] {
      var init, last := lines[..|lines| - 1], lines[|lines| - 1];
      WrittenReadsBack(init);
      WrittenEnds(init);
      LineEnds(Written(init), last);
      assert init + [last] == lines;
    }
  }

  /** A text that is cut off anywhere still yields the first lines as they were written. */
  lemma {:induction false} PartReadsBack(lines: seq<string>, cut: nat) returns (j: nat)
    requires (forall line :: line in lines ==> OneLine(line)) && cut <= |Written(lines)|
    ensures j <= |lines| && Lines(Written(lines)[..cut]).0 == lines[..j]
  {
    if cut == |Written(lines)| {
      WrittenReadsBack(lines);
      j := |lines|;
      assert Written(lines)[..cut] == Written(lines) && lines[..j] == lines;
    } else {
      var init, last := lines[..|lines| - 1], lines[|lines| - 1];
      var before := Written(init);
      if cut <= |before| {
        j := PartReadsBack(init, cut);
        assert Written(lines)[..cut] == before[..cut] && lines[..j] == init[..j];
      } else {
        var tail := last[..cut - |before|];
        assert Written(lines)[..cut] == before + tail;
        assert last in lines;
        TailIsRest(before, tail);
        WrittenReadsBack(init);
        j := |init|;
      }
    }
  }

  lemma {:induction false} LinesOnlyGrow(text: string, more: string)
    ensures Lines(text).0 <= Lines(text + more).0
    decreases |more|
  {
    if more == "" {
      assert text + more == text;
    } else {
      var n := |more| - 1;
      LinesOnlyGrow(text, more[..n]);
      assert text + more == (text + more[..n]) + [more[n]];
      LinesNext(text + more[..n], more[n]);
    }
  }
}
