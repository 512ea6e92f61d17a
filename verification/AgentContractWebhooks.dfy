/** The same for a contract with a webhooks section, which is carried over as it is. */
module AgentContractWebhooks {
  import opened Wrappers
  import opened AgentContract
  import opened AgentContractMeaning
  import opened AgentContractRender

  // ---------------------------------------------------------------- lines that read the same

  /** Two lines that every pattern reads the same way. */
  predicate Alike(a: Line, b: Line) {
    PathHeader(a) == PathHeader(b) && ChildHeader(a) == ChildHeader(b) && OperationId(a) == OperationId(b)
  }

  /** A line no pattern matches. */
  predicate Inert(line: Line) {
    PathHeader(line) == None && ChildHeader(line) == None && OperationId(line) == None
  }

  /** The same lines up to line ends, and further lines that mean nothing. */
  predicate Similar(a: seq<Line>, b: seq<Line>) {
    && |a| <= |b|
    && (forall i :: 0 <= i < |a| ==> Alike(a[i], b[i]))
    && (forall i :: |a| <= i < |b| ==> Inert(b[i]))
  }

  lemma TrimmedAlike(a: Line, b: Line)
    requires TrimEnd(a) == TrimEnd(b)
    ensures Alike(a, b)
  {
    hide TrimEnd;
  }

  lemma LineEndIsAlike(line: Line)
    ensures Alike(line, line + "\n")
  {
    assert (line + "\n")[..|line|] == line;
    TrimmedAlike(line, line + "\n");
  }

  lemma BlankIsInert()
    ensures Inert("\n")
  {
    assert "\n"[..0] == "";
  }

  lemma WebhooksLineIsInert()
    ensures Inert(WEBHOOKS_LINE)
  {
    var s := TrimEnd(WEBHOOKS_LINE);
    TrimIsPrefix(WEBHOOKS_LINE);
    assert WEBHOOKS_LINE[0] == 'w';
    if |s| >= 2 { assert s[..2][0] == 'w'; }
    if |s| >= 4 { assert s[..4][0] == 'w'; }
    assert ID_FIELD[0] == ' ';
    hide TrimEnd;
  }

  lemma ReadsItself(line: Line)
    ensures Alike(line, line)
  {
  }

  lemma RejoinIsSimilar(lines: seq<Line>)
    ensures Similar(lines, Rejoin(lines))
  {
    hide PathHeader, ChildHeader, OperationId;
    BlankIsInert();
    if lines != [] { LineEndIsAlike(lines[|lines| - 1]); }
  }

  lemma ChompIsSimilar(lines: seq<Line>)
    ensures Similar(Chomp(lines), lines)
  {
    hide PathHeader, ChildHeader, OperationId, Alike, Inert;
    forall i | 0 <= i < |lines| ensures Alike(lines[i], lines[i]) { ReadsItself(lines[i]); }
    BlankIsInert();
    if lines != [] && Ended(lines[|lines| - 1]) {
      var last := lines[|lines| - 1];
      var bare := last[..|last| - 1];
      assert last == bare + "\n";
      LineEndIsAlike(bare);
    }
  }

  lemma MoreInert(a: seq<Line>, b: seq<Line>, line: Line)
    requires Similar(a, b) && Inert(line)
    ensures Similar(a, b + [line])
  {
    hide Alike, Inert;
  }

  // ---------------------------------------------------------------- and so do the operations in them

  predicate SimilarSegments(a: seq<Segment>, b: seq<Segment>) {
    |a| == |b| && forall i :: 0 <= i < |a| ==>
      a[i].key == b[i].key && Alike(a[i].head, b[i].head) && Similar(a[i].rest, b[i].rest)
  }

  lemma AlikeHeader(level: Level, a: Line, b: Line)
    requires Alike(a, b)
    ensures Header(level, a) == Header(level, b)
  {
    hide PathHeader, ChildHeader, OperationId;
  }

  lemma InertHasNoHeader(level: Level, lines: seq<Line>)
    requires forall i :: 0 <= i < |lines| ==> Inert(lines[i])
    ensures NoHeader(level, lines)
  {
    hide PathHeader, ChildHeader, OperationId;
  }

  lemma {:induction false} SimilarCut(level: Level, a: seq<Line>, b: seq<Line>)
    requires Similar(a, b)
    ensures Similar(Segments(level, a).0, Segments(level, b).0)
    ensures SimilarSegments(Segments(level, a).1, Segments(level, b).1)
    decreases |a|
  {
    hide Alike, Inert, Header;
    if a == [] {
      InertHasNoHeader(level, b);
      SegmentsOfPlain(level, b, []);
      assert b + [] == b;
      assert Segments(level, []) == ([], []);
      assert b + Segments(level, []).0 == b;
    } else {
      AlikeHeader(level, a[0], b[0]);
      SimilarCut(level, a[1..], b[1..]);
      var (pre, segments) := Segments(level, a[1..]);
      var (pre', segments') := Segments(level, b[1..]);
      match Header(level, a[0])
      case Some(key) =>
        SimilarPrepended(Segment(a[0], key, pre), Segment(b[0], key, pre'), segments, segments');
      case None =>
    }
  }

  lemma SimilarPrepended(x: Segment, y: Segment, a: seq<Segment>, b: seq<Segment>)
    requires SimilarSegments(a, b) && x.key == y.key && Alike(x.head, y.head) && Similar(x.rest, y.rest)
    ensures SimilarSegments([x] + a, [y] + b)
  {
    hide Alike, Similar;
  }

  lemma {:induction false} InertIds(lines: seq<Line>)
    requires forall i :: 0 <= i < |lines| ==> Inert(lines[i])
    ensures OperationIds(lines) == []
  {
    hide PathHeader, ChildHeader, OperationId;
    if lines != [] { InertIds(lines[1..]); }
  }

  lemma {:induction false} SimilarIds(a: seq<Line>, b: seq<Line>)
    requires Similar(a, b)
    ensures OperationIds(a) == OperationIds(b)
    decreases |a|
  {
    hide PathHeader, ChildHeader, OperationId;
    if a == [] {
      InertIds(b);
    } else {
      SimilarIds(a[1..], b[1..]);
    }
  }

  lemma SimilarOperation(path: string, a: Segment, b: Segment)
    requires a.key == b.key && Alike(a.head, b.head) && Similar(a.rest, b.rest)
    ensures OperationOf(path, a) == OperationOf(path, b)
  {
    hide Alike, Inert, OperationIds;
    SimilarIds([a.head] + a.rest, [b.head] + b.rest);
  }

  lemma {:induction false} SimilarChildren(path: string, a: seq<Segment>, b: seq<Segment>)
    requires SimilarSegments(a, b)
    ensures ParseChildren(path, a) == ParseChildren(path, b)
    decreases |a|
  {
    hide Alike, Similar, OperationOf;
    if a != [] {
      SimilarChildren(path, a[..|a| - 1], b[..|b| - 1]);
      SimilarOperation(path, a[|a| - 1], b[|b| - 1]);
    }
  }

  lemma {:induction false} SimilarPaths(a: seq<Segment>, b: seq<Segment>)
    requires SimilarSegments(a, b)
    ensures ParsePaths(a) == ParsePaths(b)
    decreases |a|
  {
    hide Alike, Similar, ParseChildren, Unquote, Segments;
    if a != [] {
      SimilarPaths(a[..|a| - 1], b[..|b| - 1]);
      var x, y := a[|a| - 1], b[|b| - 1];
      SimilarCut(CHILD, x.rest, y.rest);
      SimilarChildren(Unquote(x.key), Segments(CHILD, x.rest).1, Segments(CHILD, y.rest).1);
    }
  }

  lemma SimilarBodies(a: seq<Line>, b: seq<Line>)
    requires Similar(a, b)
    ensures ParseBody(a) == ParseBody(b)
  {
    hide Similar, ParsePaths, Segments, SimilarSegments;
    SimilarCut(PATH, a, b);
    SimilarPaths(Segments(PATH, a).1, Segments(PATH, b).1);
  }

  // ---------------------------------------------------------------- two bodies one after the other

  function Both(a: Result<seq<Operation>, Error>, b: Result<seq<Operation>, Error>): Result<seq<Operation>, Error> {
    if a.Err? then a else if b.Err? then b else Ok(a.value + b.value)
  }

  lemma {:induction false} ParsePathsAdds(a: seq<Segment>, b: seq<Segment>)
    ensures ParsePaths(a + b) == Both(ParsePaths(a), ParsePaths(b))
    decreases |b|
  {
    hide ParseChildren, Segments, Unquote;
    if b == [] {
      assert a + b == a;
      if ParsePaths(a).Ok? { assert ParsePaths(a).value + [] == ParsePaths(a).value; }
    } else {
      var init, last := b[..|b| - 1], b[|b| - 1];
      ParsePathsAdds(a, init);
      assert (a + b)[..|a + b| - 1] == a + init && (a + b)[|a + b| - 1] == last;
      if ParsePaths(a).Ok? && ParsePaths(init).Ok? && OperationsOf(last).Ok? {
        var x, y, z := ParsePaths(a).value, ParsePaths(init).value, OperationsOf(last).value;
        assert x + y + z == x + (y + z);
      }
    }
  }

  /** A part that begins with a header of its own, or is empty. */
  predicate StartsWithHeader(lines: seq<Line>) {
    lines != [] ==> PathHeader(lines[0]).Some?
  }

  lemma HeadedAdds(a: seq<Segment>, b: seq<Segment>)
    requires Headed(PATH, a) && Headed(PATH, b)
    ensures Headed(PATH, a + b)
  {
    hide Header, NoHeader;
  }

  lemma ParseBodyAdds(a: seq<Line>, b: seq<Line>)
    requires StartsWithHeader(b)
    ensures ParseBody(a + b) == Both(ParseBody(a), ParseBody(b))
  {
    hide Segments, Flatten, ParsePaths, StartsWithHeader, Headed, NoHeader;
    SegmentsRejoin(PATH, a);
    SegmentsRejoin(PATH, b);
    StartsClean(b);
    var (pre, segments) := Segments(PATH, a);
    var more := Segments(PATH, b).1;
    FlattenAdds(segments, more);
    HeadedAdds(segments, more);
    assert [] + Flatten(more) == Flatten(more);
    assert a + b == pre + Flatten(segments + more);
    SegmentsAreUnique(PATH, pre, segments + more);
    ParsePathsAdds(segments, more);
  }

  lemma StartsClean(lines: seq<Line>)
    requires StartsWithHeader(lines)
    ensures Segments(PATH, lines).0 == []
  {
    hide PathHeader;
  }

  // ---------------------------------------------------------------- the theorem

  lemma WebhookBodyIsClean(kept: seq<Line>, body: seq<Line>, w: nat)
    requires 1 <= w < |body| && forall k :: 1 <= k < |body| ==> Clean(body[k])
    requires (forall k :: 1 <= k < |kept| ==> Clean(kept[k])) && (forall k :: 0 <= k < |kept| ==> kept[k] != "")
    ensures var all := Rejoin(kept) + body[w..];
      (forall k :: 1 <= k < |all| ==> Clean(all[k])) && (forall k :: 0 <= k < |all| ==> all[k] != "")
  {
    RejoinIsClean(kept);
    hide Clean;
    var joined := Rejoin(kept);
    forall k | 1 <= k < |joined + body[w..]| ensures Clean((joined + body[w..])[k]) {
      if k >= |joined| { assert (joined + body[w..])[k] == body[w + k - |joined|]; }
    }
    assert forall k :: 1 <= k < |joined + body[w..]| ==> (joined + body[w..])[k] != "" by { CleanIsNotEmpty(joined + body[w..]); }
  }

  lemma CleanIsNotEmpty(lines: seq<Line>)
    requires forall k :: 1 <= k < |lines| ==> Clean(lines[k])
    ensures forall k :: 1 <= k < |lines| ==> lines[k] != ""
  {
  }

  lemma ChompedPathsAreClean(body: seq<Line>, w: nat)
    requires w <= |body| && forall k :: 1 <= k < |body| ==> Clean(body[k])
    requires forall k :: 0 <= k < |body| ==> body[k] != "" && (k < w ==> '\n' !in body[k][..|body[k]| - 1])
    ensures var paths := Chomp(body[..w]);
      (forall k :: 1 <= k < |paths| ==> Clean(paths[k])) && (forall k :: 0 <= k < |paths| ==> paths[k] != "")
  {
    var part := body[..w];
    if part != [] && Ended(part[|part| - 1]) && part[|part| - 1] != "\n" {
      ChompedIsClean(part[|part| - 1]);
    }
  }

  lemma BodyHasNoInnerEnds(lines: seq<Line>)
    requires LinesOk(lines) && ContractSections(lines).Ok?
    ensures var body := ContractSections(lines).value.body;
      forall k :: 0 <= k < |body| ==> body[k] != "" && '\n' !in body[k][..|body[k]| - 1]
  {
    BodyIsClean(lines);
    hide EndsWith, Clean;
    var p := FindEnding(lines, PATHS_MARKER, 0).value;
    var c := FindLine(lines, COMPONENTS_LINE, p + 2).value;
    var part := lines[p + 1..c];
    var body := Chomp(part);
    forall k | 0 <= k < |body| ensures '\n' !in body[k][..|body[k]| - 1] {
      assert part[k] == lines[p + 1 + k];
      if body[k] != part[k] {
        assert body[k] == part[k][..|part[k]| - 1];
        assert body[k][..|body[k]| - 1] <= body[k];
      }
    }
  }

  /**
    With a webhooks section that opens with an entry: the original reads as the operations of its
    paths followed by those of its webhooks, the rendered contract as the allowlisted ones of its
    paths followed by the same webhooks.
  */
  lemma WebhooksAreCarriedOver(lines: seq<Line>, wanted: set<string>, w: nat)
    requires LinesOk(lines) && Render(lines, wanted).Ok?
    requires FindLine(ContractSections(lines).value.body, WEBHOOKS_LINE, 1) == Some(w)
    requires StartsWithHeader(ContractSections(lines).value.body[w + 1..])
    ensures var body := ContractSections(lines).value.body;
      var paths, webhooks := ParseBody(Chomp(body[..w])), ParseBody(body[w + 1..]);
      && paths.Ok?
      && ParseOperations(lines) == Both(paths, webhooks)
      && ParseOperations(Render(lines, wanted).value) == Both(Ok(Allowed(paths.value, wanted)), webhooks)
      && DistinctIds(Allowed(paths.value, wanted)) && Ids(Allowed(paths.value, wanted)) == wanted
  {
    var s := ContractSections(lines).value;
    var body, paths := s.body, Chomp(s.body[..w]);
    BodyIsClean(lines);
    BodyHasNoInnerEnds(lines);
    SectionFacts(lines);
    ChompedPathsAreClean(body, w);
    PathsAreFiltered(Segments(PATH, paths).1, wanted);
    FilteredBodyReads(paths, wanted);
    KeptIsClean(paths, wanted);
    AllowedIdsAreWanted(ParsePaths(Segments(PATH, paths).1).value, wanted);
    hide Segments, RenderPaths, ContractSections, Retitle, Rejoin, Chomp, EndsWith, ParsePaths, Allowed, KeptPaths, DistinctIds, Clean, PathHeader;
    var kept := Segments(PATH, paths).0 + RenderPaths(Segments(PATH, paths).1, wanted).value.0;
    var all := Rejoin(kept) + body[w..];
    WebhookBodyIsClean(kept, body, w);
    RetitleKeepsMarker(s.prefix, |s.prefix| - 1);
    RejoinIsClean(all);
    CleanIsNoMarker(Rejoin(all));
    SectionsAreFound(Retitle(s.prefix).value, |s.prefix| - 1, all, s.components);
    assert ParseOperations(Render(lines, wanted).value) == ParseBody(all);
    OneAfterTheOther(body[..w], paths, kept, body, w);
  }

  lemma CleanIsNoMarker(lines: seq<Line>)
    requires forall k :: 1 <= k < |lines| ==> Clean(lines[k])
    ensures forall k :: 1 <= k < |lines| ==> lines[k] != COMPONENTS_LINE
  {
  }

  /** Both documents are their paths, the webhooks line, and the webhooks. */
  lemma OneAfterTheOther(original: seq<Line>, paths: seq<Line>, kept: seq<Line>, body: seq<Line>, w: nat)
    requires w < |body| && body[w] == WEBHOOKS_LINE && original == body[..w] && paths == Chomp(original)
    requires StartsWithHeader(body[w + 1..])
    ensures ParseBody(body) == Both(ParseBody(paths), ParseBody(body[w + 1..]))
    ensures ParseBody(Rejoin(kept) + body[w..]) == Both(ParseBody(kept), ParseBody(body[w + 1..]))
  {
    hide ParseBody, Chomp, Rejoin, Similar, Inert, StartsWithHeader;
    var hooks := body[w + 1..];
    WebhooksLineIsInert();
    ChompIsSimilar(original);
    MoreInert(paths, original, WEBHOOKS_LINE);
    SimilarBodies(paths, original + [WEBHOOKS_LINE]);
    ParseBodyAdds(original + [WEBHOOKS_LINE], hooks);
    assert body == original + [WEBHOOKS_LINE] + hooks;
    RejoinIsSimilar(kept);
    MoreInert(kept, Rejoin(kept), WEBHOOKS_LINE);
    SimilarBodies(kept, Rejoin(kept) + [WEBHOOKS_LINE]);
    ParseBodyAdds(Rejoin(kept) + [WEBHOOKS_LINE], hooks);
    assert Rejoin(kept) + body[w..] == Rejoin(kept) + [WEBHOOKS_LINE] + hooks;
  }
}
