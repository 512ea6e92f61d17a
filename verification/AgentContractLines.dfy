/** The lines of the contract as the program's patterns read them, and the errors they lead to. */
module AgentContractLines {
  import opened Wrappers
  import opened AgentContract

  predicate AllSpace(s: string) {
    forall i :: 0 <= i < |s| ==> s[i] == ' ' || s[i] == '\t' || s[i] == '\n' || s[i] == '\r'
  }

  predicate Letter(c: char) { 'a' <= c <= 'z' || 'A' <= c <= 'Z' }
  predicate WordChar(c: char) { Letter(c) || '0' <= c <= '9' || c == '_' }

  // ---------------------------------------------------------------- trimming

  /** What is left of a line without the space at its end. */
  lemma {:induction false} TrimmedAtEnd(s: string) returns (space: string)
    ensures s == TrimEnd(s) + space && AllSpace(space)
    ensures TrimEnd(s) != "" ==> !AllSpace([TrimEnd(s)[|TrimEnd(s)| - 1]])
  {
    if s != "" && IsSpace(s[|s| - 1]) {
      space := TrimmedAtEnd(s[..|s| - 1]);
      assert s == TrimEnd(s) + (space + [s[|s| - 1]]);
      space := space + [s[|s| - 1]];
    } else {
      space := "";
      if s != "" { assert [s[|s| - 1]][0] == s[|s| - 1]; }
    }
  }

  lemma {:induction false} TrimEndIs(s: string, core: string, space: string)
    requires s == core + space && AllSpace(space) && (core != "" ==> !AllSpace([core[|core| - 1]]))
    ensures TrimEnd(s) == core
    decreases |space|
  {
    if space == "" {
      assert s == core;
      if core != "" { assert [core[|core| - 1]][0] == core[|core| - 1]; }
    } else {
      var n := |space| - 1;
      assert s[|s| - 1] == space[n] && s[..|s| - 1] == core + space[..n];
      TrimEndIs(s[..|s| - 1], core, space[..n]);
    }
  }

  lemma {:induction false} TrimStartIs(s: string, space: string, core: string)
    requires s == space + core && AllSpace(space) && (core != "" ==> !AllSpace([core[0]]))
    ensures TrimStart(s) == core
    decreases |space|
  {
    if space == "" {
      assert s == core;
      if core != "" { assert [core[0]][0] == core[0]; }
    } else {
      assert s[0] == space[0] && s[1..] == space[1..] + core;
      TrimStartIs(s[1..], space[1..], core);
    }
  }

  lemma {:induction false} TrimmedAtStart(s: string) returns (space: string)
    ensures s == space + TrimStart(s) && AllSpace(space)
  {
    if s != "" && IsSpace(s[0]) {
      space := TrimmedAtStart(s[1..]);
      space := [s[0]] + space;
      assert s == [s[0]] + s[1..];
    } else {
      space := "";
    }
  }

  // ---------------------------------------------------------------- headers and identifiers

  /** A line is the header of a path exactly if it is two spaces, the path, which starts with no space, a colon, and space. */
  lemma PathHeaderIs(line: Line, key: string)
    ensures PathHeader(line) == Some(key) <==>
      key != "" && !AllSpace(key[..1]) && exists space :: AllSpace(space) && line == "  " + key + ":" + space
  {
    var space := TrimmedAtEnd(line);
    var s := TrimEnd(line);
    if PathHeader(line) == Some(key) {
      assert s == "  " + key + ":" && key[0] == s[2];
      assert key[..1][0] == key[0];
    }
    if key != "" && !AllSpace(key[..1]) && exists space :: AllSpace(space) && line == "  " + key + ":" + space {
      var end :| AllSpace(end) && line == "  " + key + ":" + end;
      assert !AllSpace([':']) by { assert [':'][0] == ':'; }
      TrimEndIs(line, "  " + key + ":", end);
      assert s[2] == key[0] && key[..1] == [key[0]];
    }
  }

  predicate IsWordKey(s: string) {
    s != "" && Letter(s[0]) && forall i :: 0 <= i < |s| ==> WordChar(s[i]) || s[i] == '-'
  }

  /** A line is the header of a child exactly if it is four spaces, a key of letters, digits, underscores and dashes, a colon, and space. */
  lemma ChildHeaderIs(line: Line, key: string)
    ensures ChildHeader(line) == Some(key) <==>
      IsWordKey(key) && exists space :: AllSpace(space) && line == "    " + key + ":" + space
  {
    var space := TrimmedAtEnd(line);
    var s := TrimEnd(line);
    if ChildHeader(line) == Some(key) {
      assert s == "    " + key + ":";
    }
    if IsWordKey(key) && exists space :: AllSpace(space) && line == "    " + key + ":" + space {
      var end :| AllSpace(end) && line == "    " + key + ":" + end;
      assert !AllSpace([':']) by { assert [':'][0] == ':'; }
      TrimEndIs(line, "    " + key + ":", end);
      assert s[4..|s| - 1] == key;
    }
  }

  predicate IsWord(s: string) {
    s != "" && Letter(s[0]) && forall i :: 0 <= i < |s| ==> WordChar(s[i])
  }

  /** The field's name at six spaces, an identifier, and space around it. */
  predicate Declares(line: Line, before: string, id: string, after: string) {
    AllSpace(before) && AllSpace(after) && line == "      operationId:" + before + id + after
  }

  /** A line declares an operation exactly if it is such a line. */
  lemma OperationIdIs(line: Line, id: string)
    ensures OperationId(line) == Some(id) <==> IsWord(id) && exists before, after :: Declares(line, before, id, after)
  {
    if OperationId(line) == Some(id) { DeclaredOnceRead(line, id); }
    if IsWord(id) && exists before, after :: Declares(line, before, id, after) {
      var before, after :| Declares(line, before, id, after);
      ReadOnceDeclared(line, before, id, after);
    }
    hide OperationId, Declares, IsWord;
  }

  lemma DeclaredOnceRead(line: Line, id: string)
    requires OperationId(line) == Some(id)
    ensures IsWord(id) && exists before, after :: Declares(line, before, id, after)
  {
    var after := TrimmedAtEnd(line);
    var s := TrimEnd(line);
    var before := TrimmedAtStart(s[|ID_FIELD|..]);
    assert s == ID_FIELD + s[|ID_FIELD|..];
    assert line == "      operationId:" + before + id + after;
    assert Declares(line, before, id, after);
    hide TrimEnd, TrimStart;
  }

  lemma ReadOnceDeclared(line: Line, before: string, id: string, after: string)
    requires IsWord(id) && Declares(line, before, id, after)
    ensures OperationId(line) == Some(id)
  {
    hide TrimEnd, TrimStart;
    var core := "      operationId:" + before + id;
    WordEnds(id);
    assert core[|core| - 1] == id[|id| - 1];
    TrimEndIs(line, core, after);
    assert core == ID_FIELD + (before + id);
    assert core[|ID_FIELD|..] == before + id;
    TrimStartIs(before + id, before, id);
  }

  lemma WordEnds(id: string)
    requires IsWord(id)
    ensures !AllSpace([id[|id| - 1]]) && !AllSpace([id[0]])
  {
    assert WordChar(id[|id| - 1]) && WordChar(id[0]);
    assert [id[|id| - 1]][0] == id[|id| - 1] && [id[0]][0] == id[0];
  }

  /** A quoted path loses its quotes. */
  lemma UnquoteIs(s: string, inner: string)
    ensures Unquote("'" + inner + "'") == inner && Unquote("\"" + inner + "\"") == inner
    ensures |s| < 2 || s[0] != s[|s| - 1] || (s[0] != '\'' && s[0] != '"') ==> Unquote(s) == s
  {
    var q, d := "'" + inner + "'", "\"" + inner + "\"";
    assert q[0] == '\'' && q[|q| - 1] == '\'' && q[1..|q| - 1] == inner;
    assert d[0] == '"' && d[|d| - 1] == '"' && d[1..|d| - 1] == inner;
    assert '\'' in "'\"" && '"' in "'\"" by { assert "'\""[0] == '\'' && "'\""[1] == '"'; }
  }

  /** A child is an operation exactly if its key is a method; it must then declare one identifier. */
  lemma OperationIs(path: string, child: Segment)
    ensures var r := OperationOf(path, child); var ids := OperationIds([child.head] + child.rest);
      && (r == Ok(None) <==> child.key !in {"get", "put", "post", "delete", "options", "head", "patch", "trace"})
      && (r == Err(BadOperation) <==> child.key in METHODS && |ids| != 1)
      && (r.Err? ==> r.error == BadOperation)
      && (child.key in METHODS && |ids| == 1 ==> r == Ok(Some(Operation(path, child.key, ids[0]))))
  {
  }

  // ---------------------------------------------------------------- errors of the generator

  /** A contract without the paths marker, or without a components line after it, is refused as such. */
  lemma SectionErrors(lines: seq<Line>, wanted: set<string>)
    ensures Render(lines, wanted) == Err(NoPaths) <==> forall i :: 0 <= i < |lines| ==> !EndsWith(lines[i], "paths:\n")
    ensures (forall i :: 0 <= i < |lines| ==> lines[i] != "components:\n") && Render(lines, wanted) != Err(NoPaths) ==>
      Render(lines, wanted) == Err(NoComponents)
    ensures ContractSections(lines).Err? ==> Render(lines, wanted) == Err(ContractSections(lines).error) && ParseOperations(lines) == Err(ContractSections(lines).error)
  {
    RenderPathsErrors(Segments(PATH, SplitWebhooks(if ContractSections(lines).Ok? then ContractSections(lines).value.body else []).0).1, wanted);
    hide RenderPaths, Segments, Retitle, EndsWith, SplitWebhooks, ParseBody;
  }

  lemma {:induction false} RenderChildrenErrors(path: string, children: seq<Segment>, wanted: set<string>, selected: set<string>)
    ensures var r := RenderChildren(path, children, wanted, selected);
      r.Err? ==> r.error == BadOperation || r.error == Duplicate
  {
    if children != [] {
      RenderChildrenErrors(path, children[..|children| - 1], wanted, selected);
      OperationIs(path, children[|children| - 1]);
    }
    hide OperationOf;
  }

  lemma {:induction false} RenderPathsErrors(paths: seq<Segment>, wanted: set<string>)
    ensures var r := RenderPaths(paths, wanted);
      r.Err? ==> r.error == BadOperation || r.error == Duplicate
  {
    if paths != [] {
      var init, last := paths[..|paths| - 1], paths[|paths| - 1];
      RenderPathsErrors(init, wanted);
      if RenderPaths(init, wanted).Ok? {
        RenderChildrenErrors(Unquote(last.key), Segments(CHILD, last.rest).1, wanted, RenderPaths(init, wanted).value.1);
      }
    }
    hide RenderChildren, Segments, Unquote;
  }

  /** With its sections found and its operations sound, a contract is refused exactly for a missing operation, then for its title. */
  lemma RenderErrors(lines: seq<Line>, wanted: set<string>)
    requires ContractSections(lines).Ok?
    requires RenderPaths(Segments(PATH, SplitWebhooks(ContractSections(lines).value.body).0).1, wanted).Ok?
    ensures var (_, selected) := RenderPaths(Segments(PATH, SplitWebhooks(ContractSections(lines).value.body).0).1, wanted).value;
      var titled := exists i :: 0 <= i < |ContractSections(lines).value.prefix| && EndsWith(ContractSections(lines).value.prefix[i], TITLE);
      && (Render(lines, wanted) == Err(Missing) <==> exists id :: id in wanted && id !in selected)
      && (Render(lines, wanted) == Err(TitleChanged) <==> (forall id :: id in wanted ==> id in selected) && !titled)
      && (Render(lines, wanted).Ok? <==> (forall id :: id in wanted ==> id in selected) && titled)
  {
    hide RenderPaths, Segments, ContractSections, EndsWith, SplitWebhooks, Rejoin;
  }

  /** The first line that ends with the old title ends with the new one; no other line changes. */
  lemma RetitleIs(prefix: seq<Line>) returns (i: nat)
    requires Retitle(prefix).Some?
    ensures i < |prefix| && EndsWith(prefix[i], TITLE) && forall k :: 0 <= k < i ==> !EndsWith(prefix[k], TITLE)
    ensures var r := Retitle(prefix).value;
      && |r| == |prefix| && (forall k :: 0 <= k < |prefix| && k != i ==> r[k] == prefix[k])
      && r[i] == prefix[i][..|prefix[i]| - |TITLE|] + "  title: Managed AutoML Agent Tools API\n"
  {
    i := FindEnding(prefix, TITLE, 0).value;
  }
}
