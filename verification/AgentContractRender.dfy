/** The rendered document read as a whole: its sections are found again, with and without a webhooks section. */
module AgentContractRender {
  import opened Wrappers
  import opened AgentContract
  import opened AgentContractMeaning

  /** The lines of a text: none is empty, line ends come last, and all lines but the last one have theirs. */
  predicate LinesOk(lines: seq<Line>) {
    forall i :: 0 <= i < |lines| ==>
      lines[i] != "" && '\n' !in lines[i][..|lines[i]| - 1] && (i < |lines| - 1 ==> Ended(lines[i]))
  }

  // ---------------------------------------------------------------- finding the sections again

  lemma FindEndingIs(lines: seq<Line>, tail: string, p: nat)
    requires p < |lines| && EndsWith(lines[p], tail) && forall k :: 0 <= k < p ==> !EndsWith(lines[k], tail)
    ensures FindEnding(lines, tail, 0) == Some(p)
  {
    hide EndsWith;
  }

  lemma FindLineIs(lines: seq<Line>, line: Line, i: nat, c: nat)
    requires i <= c < |lines| && lines[c] == line && forall k :: i <= k < c ==> lines[k] != line
    ensures FindLine(lines, line, i) == Some(c)
  {
  }

  lemma {:induction false} ChompUndoesRejoin(lines: seq<Line>)
    requires forall i :: 0 <= i < |lines| ==> lines[i] != ""
    ensures Chomp(Rejoin(lines)) == lines
  {
    var joined := Rejoin(lines);
    if lines == [] || Ended(lines[|lines| - 1]) {
      assert joined[..|lines|] == lines;
    } else {
      var n := |lines| - 1;
      assert joined[n] == lines[n] + "\n" && joined[..n] == lines[..n];
      assert joined[n][..|joined[n]| - 1] == lines[n];
      assert lines == lines[..n] + [lines[n]];
    }
  }

  lemma RejoinIsNotEmpty(lines: seq<Line>)
    ensures Rejoin(lines) != []
  {
  }

  lemma MarkersDiffer(line: Line)
    requires EndsWith(line, TITLE) || EndsWith(line, NEW_TITLE)
    ensures !EndsWith(line, PATHS_MARKER)
  {
    assert TITLE[|TITLE| - 2] == 'I' && NEW_TITLE[|NEW_TITLE| - 2] == 'I' && PATHS_MARKER[|PATHS_MARKER| - 2] == ':';
    if EndsWith(line, TITLE) { assert line[|line| - 2] == line[|line| - |TITLE|..][|TITLE| - 2]; }
    if EndsWith(line, NEW_TITLE) { assert line[|line| - 2] == line[|line| - |NEW_TITLE|..][|NEW_TITLE| - 2]; }
    if EndsWith(line, PATHS_MARKER) { PenultimateOfMarker(line); }
  }

  lemma PenultimateOfMarker(line: Line)
    requires EndsWith(line, PATHS_MARKER)
    ensures |line| >= 2 && line[|line| - 2] == ':'
  {
    assert line[|line| - 2] == line[|line| - |PATHS_MARKER|..][|PATHS_MARKER| - 2];
  }

  lemma RetitleKeepsMarker(prefix: seq<Line>, p: nat)
    requires |prefix| == p + 1 && Retitle(prefix).Some?
    requires EndsWith(prefix[p], PATHS_MARKER) && forall k :: 0 <= k < p ==> !EndsWith(prefix[k], PATHS_MARKER)
    ensures var renamed := Retitle(prefix).value;
      |renamed| == p + 1 && EndsWith(renamed[p], PATHS_MARKER) && forall k :: 0 <= k < p ==> !EndsWith(renamed[k], PATHS_MARKER)
  {
    var i := FindEnding(prefix, TITLE, 0).value;
    var renamed := Retitle(prefix).value;
    MarkersDiffer(prefix[i]);
    var line := renamed[i];
    assert line[|line| - |NEW_TITLE|..] == NEW_TITLE;
    assert EndsWith(line, NEW_TITLE);
    MarkersDiffer(line);
    hide EndsWith;
  }

  lemma NoticeHasNoMarker(k: nat)
    requires k < |NOTICE|
    ensures !EndsWith(NOTICE[k], PATHS_MARKER)
  {
    assert NOTICE[0][|NOTICE[0]| - 2] == '.' && NOTICE[1][|NOTICE[1]| - 2] == '.';
    if EndsWith(NOTICE[k], PATHS_MARKER) {
      PenultimateOfMarker(NOTICE[k]);
    }
  }

  /** A body that hides no components line is found again in the document written around it. */
  lemma SectionsAreFound(prefix: seq<Line>, p: nat, body: seq<Line>, components: seq<Line>)
    requires |prefix| == p + 1 && EndsWith(prefix[p], PATHS_MARKER) && forall k :: 0 <= k < p ==> !EndsWith(prefix[k], PATHS_MARKER)
    requires components != [] && components[0] == COMPONENTS_LINE
    requires forall i :: 0 <= i < |body| ==> body[i] != ""
    requires forall k :: 1 <= k < |Rejoin(body)| ==> Rejoin(body)[k] != COMPONENTS_LINE
    ensures ContractSections(NOTICE + prefix + Rejoin(body) + components) == Ok(Sections(NOTICE + prefix, body, components))
  {
    hide EndsWith, Rejoin, Chomp;
    ChompUndoesRejoin(body);
    RejoinIsNotEmpty(body);
    var joined := Rejoin(body);
    var all := NOTICE + prefix + joined + components;
    var q := |NOTICE| + p;
    forall k | 0 <= k < q ensures !EndsWith(all[k], PATHS_MARKER) {
      if k < |NOTICE| { NoticeHasNoMarker(k); assert all[k] == NOTICE[k]; } else { assert all[k] == prefix[k - |NOTICE|]; }
    }
    assert all[q] == prefix[p];
    FindEndingIs(all, PATHS_MARKER, q);
    var c := q + 1 + |joined|;
    assert all[c] == components[0];
    forall k | q + 2 <= k < c ensures all[k] != COMPONENTS_LINE { assert all[k] == joined[k - q - 1]; }
    FindLineIs(all, COMPONENTS_LINE, q + 2, c);
    assert all[..q + 1] == NOTICE + prefix;
    assert all[q + 1..c] == joined;
    assert all[c..] == components;
  }

  // ---------------------------------------------------------------- no components line hides in a body

  /** Not the components line, with or without its line end. */
  predicate Clean(line: Line) {
    line != COMPONENTS_LINE && line != "components:" && line != ""
  }

  lemma ChompedIsClean(line: Line)
    requires Ended(line) && line != "\n" && '\n' !in line[..|line| - 1]
    ensures line[..|line| - 1] != "" && (line != COMPONENTS_LINE ==> Clean(line[..|line| - 1]))
  {
    var bare := line[..|line| - 1];
    assert line == bare + "\n";
    assert bare == "components:" ==> line == COMPONENTS_LINE;
    assert COMPONENTS_LINE[11] == '\n';
    assert |bare| == 12 ==> bare[11] in bare;
  }

  lemma ChompIsClean(part: seq<Line>)
    requires forall k :: 0 <= k < |part| ==> Ended(part[k]) && '\n' !in part[k][..|part[k]| - 1]
    requires forall k :: 1 <= k < |part| ==> part[k] != COMPONENTS_LINE
    ensures forall k :: 1 <= k < |Chomp(part)| ==> Clean(Chomp(part)[k])
    ensures forall k :: 0 <= k < |Chomp(part)| ==> Chomp(part)[k] != ""
  {
    if part != [] && part[|part| - 1] != "\n" {
      ChompedIsClean(part[|part| - 1]);
    }
    assert !Ended("components:") by { assert "components:"[10] == ':'; }
  }

  lemma BodyIsClean(lines: seq<Line>)
    requires LinesOk(lines) && ContractSections(lines).Ok?
    ensures var body := ContractSections(lines).value.body;
      (forall k :: 1 <= k < |body| ==> Clean(body[k])) && (forall k :: 0 <= k < |body| ==> body[k] != "")
  {
    hide EndsWith, Chomp, Clean;
    var p := FindEnding(lines, PATHS_MARKER, 0).value;
    var c := FindLine(lines, COMPONENTS_LINE, p + 2).value;
    var part := lines[p + 1..c];
    forall k | 0 <= k < |part| ensures Ended(part[k]) && '\n' !in part[k][..|part[k]| - 1] {
      assert part[k] == lines[p + 1 + k];
    }
    ChompIsClean(part);
  }

  lemma TrimmedStart(line: Line)
    requires PathHeader(line).Some?
    ensures |line| >= 2 && line[0] == ' '
  {
    TrimIsPrefix(line);
    var s := TrimEnd(line);
    assert s[..2][0] == ' ';
    hide TrimEnd;
  }

  lemma {:induction false} TrimIsPrefix(s: string)
    ensures TrimEnd(s) <= s
    decreases |s|
  {
    if s != "" && IsSpace(s[|s| - 1]) {
      TrimIsPrefix(s[..|s| - 1]);
    }
  }

  lemma HeaderIsClean(line: Line)
    requires PathHeader(line).Some?
    ensures Clean(line)
  {
    TrimmedStart(line);
    assert COMPONENTS_LINE[0] == 'c' && "components:"[0] == 'c';
  }

  /** Of a body's preamble and segments, only the very first line can look like the components line. */
  lemma SegmentsAreClean(body: seq<Line>)
    requires forall k :: 1 <= k < |body| ==> Clean(body[k])
    ensures forall x :: x in Flatten(Segments(PATH, body).1) ==> Clean(x)
    ensures forall k :: 1 <= k < |Segments(PATH, body).0| ==> Clean(Segments(PATH, body).0[k])
  {
    hide Segments, Flatten, Clean, Header;
    var (pre, segments) := Segments(PATH, body);
    SegmentsRejoin(PATH, body);
    var flat := Flatten(segments);
    forall k | 0 <= k < |flat| ensures Clean(flat[k]) {
      assert flat[k] == body[|pre| + k];
      if |pre| + k == 0 {
        FlattenStarts(segments);
        HeaderIsClean(flat[0]);
      }
    }
    forall k | 1 <= k < |pre| ensures Clean(pre[k]) { assert pre[k] == body[k]; }
  }

  lemma FlattenStarts(segments: seq<Segment>)
    requires Headed(PATH, segments) && Flatten(segments) != []
    ensures PathHeader(Flatten(segments)[0]).Some?
  {
    assert segments != [];
    assert Header(PATH, segments[0].head).Some?;
    hide PathHeader;
  }

  lemma RejoinIsClean(lines: seq<Line>)
    requires forall k :: 1 <= k < |lines| ==> Clean(lines[k])
    ensures forall k :: 1 <= k < |Rejoin(lines)| ==> Clean(Rejoin(lines)[k])
  {
    assert COMPONENTS_LINE == "components:" + "\n";
    var joined := Rejoin(lines);
    forall k | 1 <= k < |joined| ensures Clean(joined[k]) {
      if k < |lines| && joined[k] != lines[k] {
        assert joined[k] == lines[k] + "\n";
        assert joined[k][..|lines[k]|] == lines[k];
        assert joined[k] != "components:" by { assert joined[k][|joined[k]| - 1] == '\n' && "components:"[10] == ':'; }
      } else if k == |lines| {
        assert joined[k] == "\n";
      }
    }
  }

  lemma KeptIsClean(paths: seq<Line>, wanted: set<string>)
    requires forall k :: 1 <= k < |paths| ==> Clean(paths[k])
    requires forall k :: 0 <= k < |paths| ==> paths[k] != ""
    requires RenderPaths(Segments(PATH, paths).1, wanted).Ok?
    ensures var kept := Segments(PATH, paths).0 + RenderPaths(Segments(PATH, paths).1, wanted).value.0;
      (forall k :: 1 <= k < |kept| ==> Clean(kept[k])) && (forall k :: 0 <= k < |kept| ==> kept[k] != "")
  {
    var (pre, entries) := Segments(PATH, paths);
    PathsAreFiltered(entries, wanted);
    SegmentsRejoin(PATH, paths);
    KeptPathsAreHeaded(entries, wanted);
    SegmentsAreClean(paths);
    hide Segments, RenderPaths, Flatten, KeptPaths, ParsePaths, Header;
    var lines := RenderPaths(entries, wanted).value.0;
    forall x | x in lines ensures Clean(x) { assert x in Flatten(KeptPaths(entries, wanted)); }
    var kept := pre + lines;
    forall k | 0 <= k < |kept| ensures kept[k] != "" && (k >= 1 ==> Clean(kept[k])) {
      if k < |pre| { assert kept[k] == pre[k] == paths[k]; } else { assert kept[k] in lines; }
    }
  }

  lemma SectionFacts(lines: seq<Line>)
    requires ContractSections(lines).Ok?
    ensures var s := ContractSections(lines).value;
      && |s.prefix| >= 1 && EndsWith(s.prefix[|s.prefix| - 1], PATHS_MARKER)
      && (forall k :: 0 <= k < |s.prefix| - 1 ==> !EndsWith(s.prefix[k], PATHS_MARKER))
      && s.components != [] && s.components[0] == COMPONENTS_LINE
  {
    hide EndsWith, Chomp;
  }

  // ---------------------------------------------------------------- without webhooks

  /**
    For a contract without a webhooks section, reading the rendered contract gives exactly the
    allowlisted operations of the original, in order; every allowlisted identifier is there, once.
  */
  lemma RenderKeepsMeaning(lines: seq<Line>, wanted: set<string>)
    requires LinesOk(lines) && Render(lines, wanted).Ok?
    requires SplitWebhooks(ContractSections(lines).value.body).1 == []
    ensures ParseOperations(lines).Ok?
    ensures ParseOperations(Render(lines, wanted).value) == Ok(Allowed(ParseOperations(lines).value, wanted))
    ensures var kept := Allowed(ParseOperations(lines).value, wanted); DistinctIds(kept) && Ids(kept) == wanted
  {
    var s := ContractSections(lines).value;
    BodyIsClean(lines);
    SectionFacts(lines);
    PathsAreFiltered(Segments(PATH, s.body).1, wanted);
    FilteredBodyReads(s.body, wanted);
    KeptIsClean(s.body, wanted);
    hide Segments, RenderPaths, ContractSections, Retitle, Rejoin, EndsWith, ParsePaths, Allowed, KeptPaths, DistinctIds;
    var p := |s.prefix| - 1;
    var kept := Segments(PATH, s.body).0 + RenderPaths(Segments(PATH, s.body).1, wanted).value.0;
    RetitleKeepsMarker(s.prefix, p);
    RejoinIsClean(kept);
    SectionsAreFound(Retitle(s.prefix).value, p, kept, s.components);
    AllowedIdsAreWanted(ParsePaths(Segments(PATH, s.body).1).value, wanted);
  }

  lemma {:induction false} AllowedIdsAreWanted(operations: seq<Operation>, wanted: set<string>)
    ensures Ids(Allowed(operations, wanted)) <= wanted
    decreases |operations|
  {
    if operations != [] {
      AllowedIdsAreWanted(operations[..|operations| - 1], wanted);
      var before, last := Allowed(operations[..|operations| - 1], wanted), operations[|operations| - 1];
      IdsAdd(before, if last.id in wanted then [last] else []);
    }
  }
}
