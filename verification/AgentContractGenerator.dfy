/** The generator as it runs: documents read and written segment by segment, stopping at the first error. */
module AgentContractGenerator {
  import opened Wrappers
  import opened AgentContract
  import opened AgentContractMeaning
  import opened AgentContractRender
  import opened AgentContractWebhooks

  const ACTIVE_OPERATION_IDS: seq<string> := [
    "getAgentInterfaceManifest", "getAgentRunContext", "listAgentRunActions", "createDatasetUpload",
    "signDatasetUploadParts", "finalizeDatasetUpload", "getDatasetVersion", "createRun",
    "getRun", "readRunEvents", "listRunOutputs", "getRunOutput",
    "listDecisionPackets", "answerDecisionPacket", "pauseRun", "resumeRun",
    "cancelRun", "getCommand", "getRunResult", "getArtifact",
    "createArtifactDownloadTicket", "createWebhookEndpoint", "listWebhookEndpoints", "getWebhookEndpoint",
    "deleteWebhookEndpoint", "rotateWebhookEndpointSecret", "enableWebhookEndpoint", "listWebhookDeliveries",
    "getWebhookDelivery", "redeliverWebhookDelivery"]

  // ---------------------------------------------------------------- the first error decides

  lemma {:induction false} ParseChildrenStops(path: string, children: seq<Segment>, i: nat)
    requires i <= |children| && ParseChildren(path, children[..i]).Err?
    ensures ParseChildren(path, children) == ParseChildren(path, children[..i])
    decreases |children|
  {
    hide OperationOf;
    if i == |children| {
      assert children[..i] == children;
    } else {
      var init := children[..|children| - 1];
      assert init[..i] == children[..i];
      ParseChildrenStops(path, init, i);
    }
  }

  lemma {:induction false} ParsePathsStops(paths: seq<Segment>, i: nat)
    requires i <= |paths| && ParsePaths(paths[..i]).Err?
    ensures ParsePaths(paths) == ParsePaths(paths[..i])
    decreases |paths|
  {
    hide ParseChildren, Segments, Unquote;
    if i == |paths| {
      assert paths[..i] == paths;
    } else {
      var init := paths[..|paths| - 1];
      assert init[..i] == paths[..i];
      ParsePathsStops(init, i);
    }
  }

  lemma {:induction false} RenderChildrenStops(path: string, children: seq<Segment>, wanted: set<string>, selected: set<string>, i: nat)
    requires i <= |children| && RenderChildren(path, children[..i], wanted, selected).Err?
    ensures RenderChildren(path, children, wanted, selected) == RenderChildren(path, children[..i], wanted, selected)
    decreases |children|
  {
    hide OperationOf;
    if i == |children| {
      assert children[..i] == children;
    } else {
      var init := children[..|children| - 1];
      assert init[..i] == children[..i];
      RenderChildrenStops(path, init, wanted, selected, i);
    }
  }

  lemma {:induction false} RenderPathsStops(paths: seq<Segment>, wanted: set<string>, i: nat)
    requires i <= |paths| && RenderPaths(paths[..i], wanted).Err?
    ensures RenderPaths(paths, wanted) == RenderPaths(paths[..i], wanted)
    decreases |paths|
  {
    hide RenderChildren, Segments, Unquote;
    if i == |paths| {
      assert paths[..i] == paths;
    } else {
      var init := paths[..|paths| - 1];
      assert init[..i] == paths[..i];
      RenderPathsStops(init, wanted, i);
    }
  }

  // ---------------------------------------------------------------- reading

  method ReadChildren(path: string, children: seq<Segment>) returns (r: Result<seq<Operation>, Error>)
    ensures r == ParseChildren(path, children)
  {
    hide OperationOf;
    var operations: seq<Operation> := [];
    assert children[..0] == [];
    for i := 0 to |children|
      invariant ParseChildren(path, children[..i]) == Ok(operations)
    {
      assert children[..i + 1][..i] == children[..i];
      var found := OperationOf(path, children[i]);
      if found.Err? {
        ParseChildrenStops(path, children, i + 1);
        return Err(found.error);
      }
      if found.value.Some? { operations := operations + [found.value.value]; }
    }
    assert children[..|children|] == children;
    r := Ok(operations);
  }

  method ReadOperations(lines: seq<Line>) returns (r: Result<seq<Operation>, Error>)
    ensures r == ParseOperations(lines)
  {
    hide ContractSections, ParseChildren, Segments, Unquote;
    var sections := ContractSections(lines);
    if sections.Err? { return Err(sections.error); }
    var _, paths := SegmentLines(PATH, sections.value.body);
    var operations: seq<Operation> := [];
    assert paths[..0] == [];
    for i := 0 to |paths|
      invariant ParsePaths(paths[..i]) == Ok(operations)
    {
      assert paths[..i + 1][..i] == paths[..i];
      var _, children := SegmentLines(CHILD, paths[i].rest);
      var found := ReadChildren(Unquote(paths[i].key), children);
      if found.Err? {
        ParsePathsStops(paths, i + 1);
        return Err(found.error);
      }
      operations := operations + found.value;
    }
    assert paths[..|paths|] == paths;
    r := Ok(operations);
  }

  // ---------------------------------------------------------------- writing

  method WriteChildren(path: string, children: seq<Segment>, wanted: set<string>, selected: set<string>) returns (r: Result<Kept, Error>)
    ensures r == RenderChildren(path, children, wanted, selected)
  {
    hide OperationOf;
    var kept := Kept([], selected, false);
    assert children[..0] == [];
    for i := 0 to |children|
      invariant RenderChildren(path, children[..i], wanted, selected) == Ok(kept)
    {
      assert children[..i + 1][..i] == children[..i];
      var found := OperationOf(path, children[i]);
      if found.Err? {
        RenderChildrenStops(path, children, wanted, selected, i + 1);
        return Err(found.error);
      }
      if found.value.Some? {
        var id := found.value.value.id;
        if id !in wanted { continue; }
        if id in kept.selected {
          RenderChildrenStops(path, children, wanted, selected, i + 1);
          return Err(Duplicate);
        }
        kept := kept.(selected := kept.selected + {id}, any := true);
      }
      kept := kept.(lines := kept.lines + [children[i].head] + children[i].rest);
    }
    assert children[..|children|] == children;
    r := Ok(kept);
  }

  method WritePaths(paths: seq<Segment>, wanted: set<string>) returns (r: Result<(seq<Line>, set<string>), Error>)
    ensures r == RenderPaths(paths, wanted)
  {
    hide RenderChildren, Segments, Unquote;
    var lines: seq<Line>, selected: set<string> := [], {};
    assert paths[..0] == [];
    for i := 0 to |paths|
      invariant RenderPaths(paths[..i], wanted) == Ok((lines, selected))
    {
      assert paths[..i + 1][..i] == paths[..i];
      var pre, children := SegmentLines(CHILD, paths[i].rest);
      var written := WriteChildren(Unquote(paths[i].key), children, wanted, selected);
      if written.Err? {
        RenderPathsStops(paths, wanted, i + 1);
        return Err(written.error);
      }
      var kept := written.value;
      if kept.any { lines := lines + [paths[i].head] + pre + kept.lines; }
      selected := kept.selected;
    }
    assert paths[..|paths|] == paths;
    r := Ok((lines, selected));
  }

  method RenderAgentContract(lines: seq<Line>, wanted: set<string>) returns (r: Result<seq<Line>, Error>)
    ensures r == Render(lines, wanted)
  {
    hide ContractSections, RenderPaths, Segments, Retitle, SplitWebhooks, Rejoin;
    var sections := ContractSections(lines);
    if sections.Err? { return Err(sections.error); }
    var (body, webhooks) := SplitWebhooks(sections.value.body);
    var pre, paths := SegmentLines(PATH, body);
    var written := WritePaths(paths, wanted);
    if written.Err? { return Err(written.error); }
    var (kept, selected) := written.value;
    if !(wanted <= selected) { return Err(Missing); }
    var prefix := Retitle(sections.value.prefix);
    if prefix.None? { return Err(TitleChanged); }
    var rendered := pre + kept;
    if webhooks != [] { rendered := Rejoin(rendered) + webhooks; }
    r := Ok(NOTICE + prefix.value + Rejoin(rendered) + sections.value.components);
  }

  const ALLOWLIST := set id | id in ACTIVE_OPERATION_IDS

  /**
    What the written contract says, read again: of the operations of the original the allowlisted ones
    in order, each identifier of the allowlist once, and after them the original's webhooks unchanged.
  */
  predicate SaysTheSame(lines: seq<Line>, written: seq<Line>)
    requires ContractSections(lines).Ok?
  {
    var body := ContractSections(lines).value.body;
    match FindLine(body, WEBHOOKS_LINE, 1)
    case None =>
      && ParseOperations(lines).Ok?
      && ParseOperations(written) == Ok(Allowed(ParseOperations(lines).value, ALLOWLIST))
      && OnceEach(Allowed(ParseOperations(lines).value, ALLOWLIST))
    case Some(w) =>
      StartsWithHeader(body[w + 1..]) ==>
        var paths, webhooks := ParseBody(Chomp(body[..w])), ParseBody(body[w + 1..]);
        && paths.Ok?
        && ParseOperations(lines) == Both(paths, webhooks)
        && ParseOperations(written) == Both(Ok(Allowed(paths.value, ALLOWLIST)), webhooks)
        && OnceEach(Allowed(paths.value, ALLOWLIST))
  }

  predicate OnceEach(operations: seq<Operation>) {
    DistinctIds(operations) && Ids(operations) == ALLOWLIST
  }

  lemma RenderSaysTheSame(lines: seq<Line>)
    requires LinesOk(lines) && Render(lines, ALLOWLIST).Ok?
    ensures SaysTheSame(lines, Render(lines, ALLOWLIST).value)
  {
    hide LinesOk, FindLine, StartsWithHeader, ParseBody, Allowed, DistinctIds, Chomp, Both, ParseOperations, Render, ContractSections, Ids;
    RenderedHasSections(lines, ALLOWLIST);
    match FindLine(ContractSections(lines).value.body, WEBHOOKS_LINE, 1)
    case None => RenderKeepsMeaning(lines, ALLOWLIST);
    case Some(w) =>
      if StartsWithHeader(ContractSections(lines).value.body[w + 1..]) { WebhooksAreCarriedOver(lines, ALLOWLIST, w); }
  }

  /** The contract written for the thirty active operations means what the original means of them. */
  method GenerateAgentContract(lines: seq<Line>) returns (r: Result<seq<Line>, Error>)
    ensures r.Ok? ==> ContractSections(lines).Ok?
    ensures r.Ok? && LinesOk(lines) ==> SaysTheSame(lines, r.value)
    ensures r.Err? <==> Render(lines, ALLOWLIST).Err?
  {
    hide LinesOk, SaysTheSame, ContractSections;
    r := RenderAgentContract(lines, ALLOWLIST);
    if r.Ok? {
      RenderedHasSections(lines, ALLOWLIST);
      if LinesOk(lines) { RenderSaysTheSame(lines); }
    }
  }

  lemma RenderedHasSections(lines: seq<Line>, wanted: set<string>)
    requires Render(lines, wanted).Ok?
    ensures ContractSections(lines).Ok?
  {
  }
}
