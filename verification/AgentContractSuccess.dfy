/** Exactly which contracts can be rendered for an allowlist. */
module AgentContractSuccess {
  import opened AgentContract
  import opened AgentContractLines
  import opened AgentContractMeaning

  lemma PartsOfDistinct(a: seq<Operation>, b: seq<Operation>)
    requires DistinctIds(a + b)
    ensures DistinctIds(a) && DistinctIds(b) && Ids(a) !! Ids(b)
  {
    assert forall i :: 0 <= i < |a| ==> (a + b)[i] == a[i];
    assert forall i :: 0 <= i < |b| ==> (a + b)[|a| + i] == b[i];
    forall i, j | 0 <= i < |a| && 0 <= j < |b| ensures a[i].id != b[j].id {
      assert (a + b)[i].id != (a + b)[|a| + j].id;
    }
  }

  /** Children that can be read, and whose allowed operations are new and distinct, can be rendered. */
  lemma {:induction false} ChildrenSucceed(path: string, children: seq<Segment>, wanted: set<string>, selected: set<string>)
    requires ParseChildren(path, children).Ok?
    requires var allowed := Allowed(ParseChildren(path, children).value, wanted); DistinctIds(allowed) && selected !! Ids(allowed)
    ensures RenderChildren(path, children, wanted, selected).Ok?
    decreases |children|
  {
    if children != [] {
      hide Ids, DistinctIds, OperationOf, Allowed, ChildrenFiltered;
      var init, last := children[..|children| - 1], children[|children| - 1];
      assert children == init + [last];
      ParseOneMore(path, init, last);
      var operations := ParseChildren(path, init).value;
      var more := if OperationOf(path, last).value.Some? then [OperationOf(path, last).value.value] else [];
      AllowedAdds(operations, more, wanted);
      PartsOfDistinct(Allowed(operations, wanted), Allowed(more, wanted));
      IdsAdd(Allowed(operations, wanted), Allowed(more, wanted));
      ChildrenSucceed(path, init, wanted, selected);
      ChildrenAreFiltered(path, init, wanted, selected);
      SelectedAre(path, init, wanted, selected);
      if more != [] && more[0].id in wanted { OneIsAllowed(more[0], wanted); }
    }
  }

  lemma SelectedAre(path: string, children: seq<Segment>, wanted: set<string>, selected: set<string>)
    requires RenderChildren(path, children, wanted, selected).Ok?
    requires ChildrenFiltered(path, children, wanted, selected, RenderChildren(path, children, wanted, selected).value)
    ensures ParseChildren(path, children).Ok?
    ensures RenderChildren(path, children, wanted, selected).value.selected == selected + Ids(Allowed(ParseChildren(path, children).value, wanted))
  {
    hide ParseChildren, RenderChildren, Allowed, Ids;
  }

  lemma OneIsAllowed(operation: Operation, wanted: set<string>)
    requires operation.id in wanted
    ensures Allowed([operation], wanted) == [operation] && operation.id in Ids([operation])
  {
    assert [operation][..0] == [] && [operation][0] == operation;
  }

  lemma {:induction false} PathsSucceed(paths: seq<Segment>, wanted: set<string>)
    requires ParsePaths(paths).Ok? && DistinctIds(Allowed(ParsePaths(paths).value, wanted))
    ensures RenderPaths(paths, wanted).Ok?
    decreases |paths|
  {
    if paths != [] {
      hide Ids, DistinctIds, Allowed, PathsFiltered, Segments, ParseChildren, RenderChildren, Unquote;
      var init, last := paths[..|paths| - 1], paths[|paths| - 1];
      var children := Segments(CHILD, last.rest).1;
      var operations, more := ParsePaths(init).value, ParseChildren(Unquote(last.key), children).value;
      AllowedAdds(operations, more, wanted);
      PartsOfDistinct(Allowed(operations, wanted), Allowed(more, wanted));
      PathsSucceed(init, wanted);
      PathsAreFiltered(init, wanted);
      FilteredSelects(init, wanted);
      ChildrenSucceed(Unquote(last.key), children, wanted, RenderPaths(init, wanted).value.1);
    }
  }

  lemma FilteredSelects(paths: seq<Segment>, wanted: set<string>)
    requires RenderPaths(paths, wanted).Ok?
    requires PathsFiltered(paths, wanted, RenderPaths(paths, wanted).value.0, RenderPaths(paths, wanted).value.1)
    ensures ParsePaths(paths).Ok? && DistinctIds(Allowed(ParsePaths(paths).value, wanted))
    ensures RenderPaths(paths, wanted).value.1 == Ids(Allowed(ParsePaths(paths).value, wanted))
  {
    hide ParsePaths, RenderPaths, Allowed, Ids, DistinctIds;
  }

  /** The paths of a contract: what comes before its webhooks. */
  function PathsOf(lines: seq<Line>): seq<Segment>
    requires ContractSections(lines).Ok?
  {
    Segments(PATH, SplitWebhooks(ContractSections(lines).value.body).0).1
  }

  /**
    A contract can be rendered exactly if its sections are found, its paths can be read, every identifier
    of the allowlist is declared by one operation of theirs and no more, and its title is the known one.
  */
  lemma RenderSucceedsExactly(lines: seq<Line>, wanted: set<string>)
    ensures Render(lines, wanted).Ok? <==>
      && ContractSections(lines).Ok?
      && ParsePaths(PathsOf(lines)).Ok?
      && var allowed := Allowed(ParsePaths(PathsOf(lines)).value, wanted);
      && DistinctIds(allowed) && wanted <= Ids(allowed)
      && exists i :: 0 <= i < |ContractSections(lines).value.prefix| && EndsWith(ContractSections(lines).value.prefix[i], TITLE)
  {
    hide RenderPaths, ParsePaths, Segments, SplitWebhooks, EndsWith, Allowed, Ids, DistinctIds, ContractSections, PathsFiltered, Retitle, Rejoin;
    if ContractSections(lines).Ok? {
      var paths := PathsOf(lines);
      if RenderPaths(paths, wanted).Ok? {
        PathsAreFiltered(paths, wanted);
        FilteredSelects(paths, wanted);
        RenderErrors(lines, wanted);
      } else if ParsePaths(paths).Ok? && DistinctIds(Allowed(ParsePaths(paths).value, wanted)) {
        PathsSucceed(paths, wanted);
      }
    }
  }
}
