/** Filtering the contract preserves its meaning: reading the result gives exactly the allowed operations. */
module AgentContractMeaning {
  import opened Wrappers
  import opened AgentContract

  /** The operations an allowlist names, in order. */
  function Allowed(operations: seq<Operation>, wanted: set<string>): seq<Operation> {
    if operations == [] then []
    else
      var last := operations[|operations| - 1];
      Allowed(operations[..|operations| - 1], wanted) + if last.id in wanted then [last] else []
  }

  lemma {:induction false} AllowedAdds(a: seq<Operation>, b: seq<Operation>, wanted: set<string>)
    ensures Allowed(a + b, wanted) == Allowed(a, wanted) + Allowed(b, wanted)
    decreases |b|
  {
    if b == [] {
      assert a + b == a;
      assert Allowed(a, wanted) + [] == Allowed(a, wanted);
    } else {
      var init := b[..|b| - 1];
      AllowedAdds(a, init, wanted);
      assert (a + b)[..|a + b| - 1] == a + init;
      assert (a + b)[|a + b| - 1] == b[|b| - 1];
    }
  }

  function Ids(operations: seq<Operation>): set<string> {
    set i | 0 <= i < |operations| :: operations[i].id
  }

  predicate DistinctIds(operations: seq<Operation>) {
    forall i, j :: 0 <= i < j < |operations| ==> operations[i].id != operations[j].id
  }

  lemma IdsAdd(a: seq<Operation>, b: seq<Operation>)
    ensures Ids(a + b) == Ids(a) + Ids(b)
  {
    forall id | id in Ids(a) ensures id in Ids(a + b) {
      var i :| 0 <= i < |a| && a[i].id == id;
      assert (a + b)[i].id == id;
    }
    forall id | id in Ids(b) ensures id in Ids(a + b) {
      var i :| 0 <= i < |b| && b[i].id == id;
      assert (a + b)[|a| + i].id == id;
    }
  }

  lemma DistinctAdd(a: seq<Operation>, b: seq<Operation>)
    requires DistinctIds(a) && DistinctIds(b) && Ids(a) !! Ids(b)
    ensures DistinctIds(a + b)
  {
    forall i, j | 0 <= i < j < |a + b| ensures (a + b)[i].id != (a + b)[j].id {
      if i < |a| <= j {
        assert a[i].id in Ids(a) && b[j - |a|].id in Ids(b);
      }
    }
  }

  // ---------------------------------------------------------------- the children of one path

  predicate Keeps(found: Result<Option<Operation>, Error>, wanted: set<string>) {
    found.Ok? && found.value.Some? ==> found.value.value.id in wanted
  }

  /** What rendering keeps of a path: everything that is no operation, and the allowed operations. */
  function KeptChildren(path: string, children: seq<Segment>, wanted: set<string>): seq<Segment> {
    if children == [] then []
    else
      var last := children[|children| - 1];
      KeptChildren(path, children[..|children| - 1], wanted) + if Keeps(OperationOf(path, last), wanted) then [last] else []
  }

  lemma {:induction false} KeptAreChildren(path: string, children: seq<Segment>, wanted: set<string>)
    ensures forall c :: c in KeptChildren(path, children, wanted) ==> c in children
    decreases |children|
  {
    if children != [] {
      var init := children[..|children| - 1];
      KeptAreChildren(path, init, wanted);
      assert children == init + [children[|children| - 1]];
    }
  }

  lemma ParseOneMore(path: string, children: seq<Segment>, last: Segment)
    requires ParseChildren(path, children).Ok? && OperationOf(path, last).Ok?
    ensures ParseChildren(path, children + [last]) ==
      Ok(ParseChildren(path, children).value +
         if OperationOf(path, last).value.Some? then [OperationOf(path, last).value.value] else [])
  {
    assert (children + [last])[..|children|] == children;
    assert OperationOf(path, last).value.None? ==> ParseChildren(path, children).value + [] == ParseChildren(path, children).value;
  }

  /** `kept` is what rendering makes of these children when `selected` was there before. */
  predicate ChildrenFiltered(path: string, children: seq<Segment>, wanted: set<string>, selected: set<string>, kept: Kept) {
    && ParseChildren(path, children).Ok?
    && var allowed := Allowed(ParseChildren(path, children).value, wanted);
    && kept.lines == Flatten(KeptChildren(path, children, wanted))
    && ParseChildren(path, KeptChildren(path, children, wanted)) == Ok(allowed)
    && kept.selected == selected + Ids(allowed) && selected !! Ids(allowed) && DistinctIds(allowed)
    && (kept.any <==> allowed != [])
  }

  lemma KeepsOneMore(path: string, children: seq<Segment>, last: Segment, wanted: set<string>)
    ensures KeptChildren(path, children + [last], wanted) ==
      KeptChildren(path, children, wanted) + if Keeps(OperationOf(path, last), wanted) then [last] else []
  {
    assert (children + [last])[..|children|] == children;
    hide OperationOf;
  }

  lemma PlainChild(path: string, children: seq<Segment>, last: Segment, wanted: set<string>, selected: set<string>, kept: Kept)
    requires ChildrenFiltered(path, children, wanted, selected, kept) && OperationOf(path, last) == Ok(None)
    ensures ChildrenFiltered(path, children + [last], wanted, selected, kept.(lines := kept.lines + [last.head] + last.rest))
  {
    hide OperationOf, Flatten, ParseChildren, KeptChildren, Allowed, Ids, DistinctIds;
    var before := KeptChildren(path, children, wanted);
    KeepsOneMore(path, children, last, wanted);
    ParseOneMore(path, children, last);
    ParseOneMore(path, before, last);
    assert ParseChildren(path, children).value + [] == ParseChildren(path, children).value;
    assert ParseChildren(path, before).value + [] == ParseChildren(path, before).value;
    FlattenAdds(before, [last]);
    FlattenOne(last);
    assert Flatten(before) + [last.head] + last.rest == Flatten(before) + ([last.head] + last.rest);
  }

  lemma DroppedChild(path: string, children: seq<Segment>, last: Segment, operation: Operation, wanted: set<string>, selected: set<string>, kept: Kept)
    requires ChildrenFiltered(path, children, wanted, selected, kept)
    requires OperationOf(path, last) == Ok(Some(operation)) && operation.id !in wanted
    ensures ChildrenFiltered(path, children + [last], wanted, selected, kept)
  {
    hide OperationOf, Flatten, ParseChildren, KeptChildren, Allowed, Ids, DistinctIds;
    KeepsOneMore(path, children, last, wanted);
    ParseOneMore(path, children, last);
    var operations := ParseChildren(path, children).value;
    AllowedAdds(operations, [operation], wanted);
    AllowedOne(operation, wanted);
    assert Allowed(operations, wanted) + [] == Allowed(operations, wanted);
    assert KeptChildren(path, children, wanted) + [] == KeptChildren(path, children, wanted);
  }

  lemma AllowedChild(path: string, children: seq<Segment>, last: Segment, operation: Operation, wanted: set<string>, selected: set<string>, kept: Kept)
    requires ChildrenFiltered(path, children, wanted, selected, kept)
    requires OperationOf(path, last) == Ok(Some(operation)) && operation.id in wanted && operation.id !in kept.selected
    ensures ChildrenFiltered(path, children + [last], wanted, selected,
                             Kept(kept.lines + [last.head] + last.rest, kept.selected + {operation.id}, true))
  {
    hide OperationOf, Flatten, ParseChildren, KeptChildren, Allowed;
    var before := KeptChildren(path, children, wanted);
    KeepsOneMore(path, children, last, wanted);
    ParseOneMore(path, children, last);
    ParseOneMore(path, before, last);
    var operations := ParseChildren(path, children).value;
    AllowedAdds(operations, [operation], wanted);
    AllowedOne(operation, wanted);
    IdsAdd(Allowed(operations, wanted), [operation]);
    assert Ids([operation]) == {operation.id} by { assert [operation][0].id in Ids([operation]); }
    DistinctAdd(Allowed(operations, wanted), [operation]);
    FlattenAdds(before, [last]);
    FlattenOne(last);
    assert Flatten(before) + [last.head] + last.rest == Flatten(before) + ([last.head] + last.rest);
    hide Ids, DistinctIds;
  }

  /** Rendering the children of a path writes the kept ones, whose operations are the allowed ones, each new. */
  lemma {:induction false} ChildrenAreFiltered(path: string, children: seq<Segment>, wanted: set<string>, selected: set<string>)
    requires RenderChildren(path, children, wanted, selected).Ok?
    ensures ChildrenFiltered(path, children, wanted, selected, RenderChildren(path, children, wanted, selected).value)
    decreases |children|
  {
    if children == [] {
      EmptyFlatten();
      assert Ids([]) == {};
    } else {
      hide OperationOf, ChildrenFiltered;
      var init, last := children[..|children| - 1], children[|children| - 1];
      assert init + [last] == children;
      ChildrenAreFiltered(path, init, wanted, selected);
      var before := RenderChildren(path, init, wanted, selected).value;
      match OperationOf(path, last).value
      case None => PlainChild(path, init, last, wanted, selected, before);
      case Some(operation) =>
        if operation.id in wanted {
          AllowedChild(path, init, last, operation, wanted, selected, before);
        } else {
          DroppedChild(path, init, last, operation, wanted, selected, before);
        }
    }
  }

  lemma AllowedOne(operation: Operation, wanted: set<string>)
    ensures Allowed([operation], wanted) == if operation.id in wanted then [operation] else []
  {
    assert [operation][..0] == [];
  }

  // ---------------------------------------------------------------- all paths

  function OperationsOf(path: Segment): Result<seq<Operation>, Error> {
    ParseChildren(Unquote(path.key), Segments(CHILD, path.rest).1)
  }

  function KeptPath(path: Segment, wanted: set<string>): Segment {
    var (pre, children) := Segments(CHILD, path.rest);
    path.(rest := pre + Flatten(KeptChildren(Unquote(path.key), children, wanted)))
  }

  function KeptPaths(paths: seq<Segment>, wanted: set<string>): seq<Segment> {
    if paths == [] then []
    else
      var last := paths[|paths| - 1];
      var any := OperationsOf(last).Ok? && Allowed(OperationsOf(last).value, wanted) != [];
      KeptPaths(paths[..|paths| - 1], wanted) + if any then [KeptPath(last, wanted)] else []
  }

  lemma ParseOnePath(paths: seq<Segment>, last: Segment)
    requires ParsePaths(paths).Ok? && OperationsOf(last).Ok?
    ensures ParsePaths(paths + [last]) == Ok(ParsePaths(paths).value + OperationsOf(last).value)
  {
    assert (paths + [last])[..|paths|] == paths;
  }

  /** Reading a kept path again finds the same cut and the kept children. */
  lemma KeptPathReads(path: Segment, wanted: set<string>)
    ensures Segments(CHILD, KeptPath(path, wanted).rest) ==
      (Segments(CHILD, path.rest).0, KeptChildren(Unquote(path.key), Segments(CHILD, path.rest).1, wanted))
  {
    hide Flatten, Segments, KeptChildren;
    var (pre, children) := Segments(CHILD, path.rest);
    SegmentsRejoin(CHILD, path.rest);
    var kept := KeptChildren(Unquote(path.key), children, wanted);
    KeptAreChildren(Unquote(path.key), children, wanted);
    forall i | 0 <= i < |kept| ensures Header(CHILD, kept[i].head) == Some(kept[i].key) && NoHeader(CHILD, kept[i].rest) {
      assert kept[i] in children;
    }
    SegmentsAreUnique(CHILD, pre, kept);
  }

  predicate PathsFiltered(paths: seq<Segment>, wanted: set<string>, lines: seq<Line>, selected: set<string>) {
    && ParsePaths(paths).Ok?
    && var allowed := Allowed(ParsePaths(paths).value, wanted);
    && lines == Flatten(KeptPaths(paths, wanted))
    && ParsePaths(KeptPaths(paths, wanted)) == Ok(allowed)
    && selected == Ids(allowed) && DistinctIds(allowed)
  }

  lemma KeepsOneMorePath(paths: seq<Segment>, last: Segment, wanted: set<string>)
    requires OperationsOf(last).Ok?
    ensures KeptPaths(paths + [last], wanted) == KeptPaths(paths, wanted) +
      if Allowed(OperationsOf(last).value, wanted) != [] then [KeptPath(last, wanted)] else []
  {
    assert (paths + [last])[..|paths|] == paths;
    hide OperationsOf, KeptPath, Allowed;
  }

  lemma OnePathFiltered(paths: seq<Segment>, last: Segment, wanted: set<string>, lines: seq<Line>, selected: set<string>, kept: Kept)
    requires PathsFiltered(paths, wanted, lines, selected)
    requires ChildrenFiltered(Unquote(last.key), Segments(CHILD, last.rest).1, wanted, selected, kept)
    ensures PathsFiltered(paths + [last], wanted,
                          if kept.any then lines + [last.head] + Segments(CHILD, last.rest).0 + kept.lines else lines, kept.selected)
  {
    hide Flatten, Segments, ParseChildren, KeptChildren, Unquote, ParsePaths, KeptPaths, Allowed, Ids, DistinctIds;
    var (pre, children) := Segments(CHILD, last.rest);
    assert OperationsOf(last) == ParseChildren(Unquote(last.key), children);
    var before, more := Allowed(ParsePaths(paths).value, wanted), Allowed(OperationsOf(last).value, wanted);
    ParseOnePath(paths, last);
    AllowedAdds(ParsePaths(paths).value, OperationsOf(last).value, wanted);
    IdsAdd(before, more);
    DistinctAdd(before, more);
    KeepsOneMorePath(paths, last, wanted);
    var keptBefore, keptLast := KeptPaths(paths, wanted), KeptPath(last, wanted);
    if more != [] {
      KeptPathReads(last, wanted);
      assert OperationsOf(keptLast) == Ok(more);
      ParseOnePath(keptBefore, keptLast);
      FlattenAdds(keptBefore, [keptLast]);
      FlattenOne(keptLast);
      assert lines + [last.head] + pre + kept.lines == lines + ([last.head] + (pre + kept.lines));
    } else {
      assert before + more == before && keptBefore + [] == keptBefore;
    }
  }

  lemma {:induction false} PathsAreFiltered(paths: seq<Segment>, wanted: set<string>)
    requires RenderPaths(paths, wanted).Ok?
    ensures PathsFiltered(paths, wanted, RenderPaths(paths, wanted).value.0, RenderPaths(paths, wanted).value.1)
    decreases |paths|
  {
    if paths == [] {
      EmptyFlatten();
      assert Ids([]) == {};
    } else {
      hide Segments, RenderChildren, PathsFiltered, ChildrenFiltered, Unquote;
      var init, last := paths[..|paths| - 1], paths[|paths| - 1];
      assert init + [last] == paths;
      PathsAreFiltered(init, wanted);
      var (lines, selected) := RenderPaths(init, wanted).value;
      var children := Segments(CHILD, last.rest).1;
      ChildrenAreFiltered(Unquote(last.key), children, wanted, selected);
      OnePathFiltered(init, last, wanted, lines, selected, RenderChildren(Unquote(last.key), children, wanted, selected).value);
    }
  }

  /** The kept paths are still paths: each under its own header, with no other header in it. */
  lemma {:induction false} KeptPathsAreHeaded(paths: seq<Segment>, wanted: set<string>)
    requires Headed(PATH, paths)
    ensures Headed(PATH, KeptPaths(paths, wanted))
    ensures forall x :: x in Flatten(KeptPaths(paths, wanted)) ==> x in Flatten(paths)
    decreases |paths|
  {
    hide Flatten, Segments, OperationsOf, KeptPath, Header, Headed;
    if paths != [] {
      var init, last := paths[..|paths| - 1], paths[|paths| - 1];
      HeadedParts(paths);
      KeptPathsAreHeaded(init, wanted);
      KeptPathIsHeaded(last, wanted);
      HeadedWith(KeptPaths(init, wanted), KeptPath(last, wanted), last);
      var keptBefore, kept := KeptPaths(init, wanted), KeptPath(last, wanted);
      FlattenAdds(init, [last]);
      assert init + [last] == paths;
      FlattenOne(last);
      FlattenAdds(keptBefore, [kept]);
      FlattenOne(kept);
      assert keptBefore + [] == keptBefore;
    } else {
      EmptyFlatten();
    }
  }

  lemma HeadedParts(paths: seq<Segment>)
    requires paths != [] && Headed(PATH, paths)
    ensures Headed(PATH, paths[..|paths| - 1]) && Headed(PATH, [paths[|paths| - 1]])
  {
    hide Header, NoHeader;
    var init, last := paths[..|paths| - 1], paths[|paths| - 1];
    forall i | 0 <= i < |init| ensures Header(PATH, init[i].head) == Some(init[i].key) && NoHeader(PATH, init[i].rest) {
      assert init[i] == paths[i];
    }
    assert [last][0] == last;
  }

  lemma HeadedWith(segments: seq<Segment>, kept: Segment, last: Segment)
    requires Headed(PATH, segments) && Headed(PATH, [last])
    requires kept.head == last.head && kept.key == last.key && forall x :: x in kept.rest ==> x in last.rest
    ensures Headed(PATH, segments + [kept])
  {
    hide Header;
    assert [last][0] == last;
    forall i | 0 <= i < |kept.rest| ensures Header(PATH, kept.rest[i]) == None {
      assert kept.rest[i] in last.rest;
    }
  }

  lemma KeptPathIsHeaded(path: Segment, wanted: set<string>)
    ensures KeptPath(path, wanted).head == path.head && KeptPath(path, wanted).key == path.key
    ensures forall x :: x in KeptPath(path, wanted).rest ==> x in path.rest
  {
    hide Segments;
    var (pre, children) := Segments(CHILD, path.rest);
    SegmentsRejoin(CHILD, path.rest);
    KeptLinesAreLines(Unquote(path.key), children, wanted);
  }

  lemma {:induction false} KeptLinesAreLines(path: string, children: seq<Segment>, wanted: set<string>)
    ensures forall x :: x in Flatten(KeptChildren(path, children, wanted)) ==> x in Flatten(children)
    decreases |children|
  {
    hide Flatten, OperationOf;
    if children != [] {
      var init, last := children[..|children| - 1], children[|children| - 1];
      KeptLinesAreLines(path, init, wanted);
      assert init + [last] == children;
      FlattenAdds(init, [last]);
      var kept := KeptChildren(path, init, wanted);
      FlattenAdds(kept, [last]);
      assert kept + [] == kept;
    }
  }

  /** The rendered paths, as lines, read as the allowed operations. */
  lemma FilteredBodyReads(paths: seq<Line>, wanted: set<string>)
    requires RenderPaths(Segments(PATH, paths).1, wanted).Ok?
    ensures var (pre, entries) := Segments(PATH, paths);
      var kept := pre + RenderPaths(entries, wanted).value.0;
      && ParseBody(paths).Ok? && ParseBody(kept) == Ok(Allowed(ParseBody(paths).value, wanted))
      && Segments(PATH, kept).0 == pre
  {
    hide Segments, RenderPaths, ParsePaths, KeptPaths, Flatten;
    var (pre, entries) := Segments(PATH, paths);
    SegmentsRejoin(PATH, paths);
    PathsAreFiltered(entries, wanted);
    KeptPathsAreHeaded(entries, wanted);
    SegmentsAreUnique(PATH, pre, KeptPaths(entries, wanted));
  }
}
