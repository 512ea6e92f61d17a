/**
  The agent tool contract: a contract document read by indentation, cut into sections, paths and
  operations, and written again with only the operations an allowlist names. A document is its
  lines, each with its line end.
*/
module AgentContract {
  import opened Wrappers

  type Line = string

  // ---------------------------------------------------------------- reading one line

  predicate IsSpace(c: char) { c in " \t\n\r" }
  predicate IsLetter(c: char) { 'a' <= c <= 'z' || 'A' <= c <= 'Z' }
  predicate IsWord(c: char) { IsLetter(c) || '0' <= c <= '9' || c == '_' }

  function TrimEnd(s: string): string {
    if s != "" && IsSpace(s[|s| - 1]) then TrimEnd(s[..|s| - 1]) else s
  }

  function TrimStart(s: string): string {
    if s != "" && IsSpace(s[0]) then TrimStart(s[1..]) else s
  }

  /** A line at two spaces that ends with a colon: a path, or a named entry of another section. */
  function PathHeader(line: Line): Option<string> {
    var s := TrimEnd(line);
    if |s| >= 4 && s[..2] == "  " && !IsSpace(s[2]) && s[|s| - 1] == ':' then Some(s[2..|s| - 1]) else None
  }

  predicate IsKey(s: string) {
    s != "" && IsLetter(s[0]) && forall i :: 0 <= i < |s| ==> IsWord(s[i]) || s[i] == '-'
  }

  /** A key at four spaces that ends with a colon. */
  function ChildHeader(line: Line): Option<string> {
    var s := TrimEnd(line);
    if |s| >= 6 && s[..4] == "    " && s[|s| - 1] == ':' && IsKey(s[4..|s| - 1]) then Some(s[4..|s| - 1]) else None
  }

  predicate IsIdentifier(s: string) {
    s != "" && IsLetter(s[0]) && forall i :: 0 <= i < |s| ==> IsWord(s[i])
  }

  const ID_FIELD := "      operationId:"

  /** The operation identifier a line declares. */
  function OperationId(line: Line): Option<string> {
    var s := TrimEnd(line);
    if ID_FIELD <= s && IsIdentifier(TrimStart(s[|ID_FIELD|..])) then Some(TrimStart(s[|ID_FIELD|..])) else None
  }

  function OperationIds(lines: seq<Line>): seq<string> {
    if lines == [] then []
    else (match OperationId(lines[0]) case Some(id) => [id] case None => []) + OperationIds(lines[1..])
  }

  // ---------------------------------------------------------------- segments

  datatype Level = PATH | CHILD

  function Header(level: Level, line: Line): Option<string> {
    match level case PATH => PathHeader(line) case CHILD => ChildHeader(line)
  }

  datatype Segment = Segment(head: Line, key: string, rest: seq<Line>)

  /** What comes before the first header, and each header with the lines up to the next one. */
  function Segments(level: Level, lines: seq<Line>): (seq<Line>, seq<Segment>) {
    if lines == [] then ([], [])
    else
      var (pre, segments) := Segments(level, lines[1..]);
      match Header(level, lines[0])
      case Some(key) => ([], [Segment(lines[0], key, pre)] + segments)
      case None => ([lines[0]] + pre, segments)
  }

  function Flatten(segments: seq<Segment>): seq<Line> {
    if segments == [] then [] else [segments[0].head] + segments[0].rest + Flatten(segments[1..])
  }

  predicate NoHeader(level: Level, lines: seq<Line>) {
    forall i :: 0 <= i < |lines| ==> Header(level, lines[i]) == None
  }

  predicate Headed(level: Level, segments: seq<Segment>) {
    forall i :: 0 <= i < |segments| ==>
      Header(level, segments[i].head) == Some(segments[i].key) && NoHeader(level, segments[i].rest)
  }

  /** Cutting loses nothing: preamble and segments put together are the lines again. */
  lemma {:induction false} SegmentsRejoin(level: Level, lines: seq<Line>)
    ensures var (pre, segments) := Segments(level, lines);
      pre + Flatten(segments) == lines && NoHeader(level, pre) && Headed(level, segments)
  {
    if lines != [] {
      SegmentsRejoin(level, lines[1..]);
      var (pre, segments) := Segments(level, lines[1..]);
      assert lines == [lines[0]] + lines[1..];
      match Header(level, lines[0])
      case Some(key) =>
        var all := [Segment(lines[0], key, pre)] + segments;
        assert all[1..] == segments;
        assert [] + Flatten(all) == Flatten(all);
        assert [lines[0]] + pre + Flatten(segments) == [lines[0]] + (pre + Flatten(segments));
      case None =>
        assert [lines[0]] + pre + Flatten(segments) == [lines[0]] + (pre + Flatten(segments));
    }
  }

  lemma {:induction false} SegmentsOfPlain(level: Level, pre: seq<Line>, lines: seq<Line>)
    requires NoHeader(level, pre)
    ensures Segments(level, pre + lines) == (pre + Segments(level, lines).0, Segments(level, lines).1)
    decreases |pre|
  {
    if pre == [] {
      assert pre + lines == lines;
      assert pre + Segments(level, lines).0 == Segments(level, lines).0;
    } else {
      SegmentsOfPlain(level, pre[1..], lines);
      assert (pre + lines)[1..] == pre[1..] + lines;
      assert (pre + lines)[0] == pre[0];
      var tail := Segments(level, lines).0;
      assert [pre[0]] + (pre[1..] + tail) == pre + tail;
    }
  }

  /** And it is the only way to cut them. */
  lemma {:induction false} SegmentsAreUnique(level: Level, pre: seq<Line>, segments: seq<Segment>)
    requires NoHeader(level, pre) && Headed(level, segments)
    ensures Segments(level, pre + Flatten(segments)) == (pre, segments)
    decreases |segments|
  {
    hide Header;
    if segments == [] {
      SegmentsOfPlain(level, pre, []);
      assert pre + [] == pre;
    } else {
      var first, later := segments[0], segments[1..];
      SegmentsAreUnique(level, first.rest, later);
      var body := Flatten(segments);
      assert body == [first.head] + (first.rest + Flatten(later));
      assert body[1..] == first.rest + Flatten(later) && body[0] == first.head;
      assert Segments(level, body) == ([], [first] + later);
      assert [first] + later == segments;
      SegmentsOfPlain(level, pre, body);
      assert pre + [] == pre;
    }
  }

  lemma {:induction false} FlattenAdds(a: seq<Segment>, b: seq<Segment>)
    ensures Flatten(a + b) == Flatten(a) + Flatten(b)
    decreases |a|
  {
    if a == [] {
      assert a + b == b;
    } else {
      FlattenAdds(a[1..], b);
      assert (a + b)[1..] == a[1..] + b && (a + b)[0] == a[0];
    }
  }

  lemma FlattenOne(s: Segment)
    ensures Flatten([s]) == [s.head] + s.rest
  {
    assert [s][1..] == [];
  }

  /** The positions of all headers, in order. */
  predicate HeaderPositions(level: Level, lines: seq<Line>, starts: seq<nat>, n: nat) {
    && n <= |lines|
    && (forall k :: 0 <= k < |starts| ==> starts[k] < n && Header(level, lines[starts[k]]).Some?)
    && (forall j, k :: 0 <= j < k < |starts| ==> starts[j] < starts[k])
    && (forall j: nat :: j < n && Header(level, lines[j]).Some? ==> j in starts)
  }

  method FindHeaders(level: Level, lines: seq<Line>) returns (starts: seq<nat>)
    ensures HeaderPositions(level, lines, starts, |lines|)
  {
    hide Header;
    starts := [];
    for i := 0 to |lines|
      invariant HeaderPositions(level, lines, starts, i)
    {
      if Header(level, lines[i]).Some? { starts := starts + [i]; }
    }
  }

  lemma BetweenHeaders(level: Level, lines: seq<Line>, starts: seq<nat>, from: nat, to: nat)
    requires HeaderPositions(level, lines, starts, |lines|) && from <= to <= |lines|
    requires forall k :: 0 <= k < |starts| ==> starts[k] < from || to <= starts[k]
    ensures NoHeader(level, lines[from..to])
  {
    hide Header;
    forall j | from <= j < to ensures Header(level, lines[j]) == None {
      assert j !in starts;
    }
  }

  function End(starts: seq<nat>, k: nat, size: nat): nat {
    if k < |starts| then starts[k] else size
  }

  /** The slice from one header to the next is one more segment. */
  lemma OneSlice(level: Level, lines: seq<Line>, starts: seq<nat>, k: nat, segments: seq<Segment>)
    requires HeaderPositions(level, lines, starts, |lines|) && k < |starts|
    requires starts[0] <= starts[k] && Headed(level, segments) && Flatten(segments) == lines[starts[0]..starts[k]]
    ensures var end := End(starts, k + 1, |lines|);
      var segment := Segment(lines[starts[k]], Header(level, lines[starts[k]]).value, lines[starts[k] + 1..end]);
      starts[k] < end <= |lines| && Headed(level, segments + [segment]) && Flatten(segments + [segment]) == lines[starts[0]..end]
  {
    hide Header, Flatten;
    var end := End(starts, k + 1, |lines|);
    var segment := Segment(lines[starts[k]], Header(level, lines[starts[k]]).value, lines[starts[k] + 1..end]);
    assert forall j :: 0 <= j <= k ==> starts[j] <= starts[k];
    assert forall j :: k < j < |starts| ==> end <= starts[j];
    BetweenHeaders(level, lines, starts, starts[k] + 1, end);
    FlattenAdds(segments, [segment]);
    FlattenOne(segment);
    assert lines[starts[0]..end] == lines[starts[0]..starts[k]] + ([lines[starts[k]]] + lines[starts[k] + 1..end]);
  }

  /** The cut as the program makes it: first where the headers are, then the slices between them. */
  method SegmentLines(level: Level, lines: seq<Line>) returns (pre: seq<Line>, segments: seq<Segment>)
    ensures (pre, segments) == Segments(level, lines)
  {
    hide Segments, Flatten, Header, NoHeader;
    var starts := FindHeaders(level, lines);
    segments := [];
    EmptyFlatten();
    if starts == [] {
      pre := lines;
      BetweenHeaders(level, lines, starts, 0, |lines|);
      assert lines[0..|lines|] == lines && lines + [] == lines;
      SegmentsAreUnique(level, pre, segments);
      return;
    }
    pre := lines[..starts[0]];
    BetweenHeaders(level, lines, starts, 0, starts[0]);
    assert pre == lines[0..starts[0]];
    for k := 0 to |starts|
      invariant Headed(level, segments) && starts[0] <= End(starts, k, |lines|) <= |lines|
      invariant Flatten(segments) == lines[starts[0]..End(starts, k, |lines|)]
    {
      OneSlice(level, lines, starts, k, segments);
      var end := End(starts, k + 1, |lines|);
      segments := segments + [Segment(lines[starts[k]], Header(level, lines[starts[k]]).value, lines[starts[k] + 1..end])];
    }
    assert lines == pre + lines[starts[0]..|lines|];
    SegmentsAreUnique(level, pre, segments);
  }

  lemma EmptyFlatten()
    ensures Flatten([]) == []
  {
  }

  // ---------------------------------------------------------------- operations

  datatype Operation = Operation(path: string, verb: string, id: string)

  datatype Error = NoPaths | NoComponents | BadOperation | Duplicate | Missing | TitleChanged

  const METHODS := {"get", "put", "post", "delete", "options", "head", "patch", "trace"}

  function Unquote(s: string): string {
    if |s| >= 2 && s[0] == s[|s| - 1] && s[0] in "'\"" then s[1..|s| - 1] else s
  }

  function OperationOf(path: string, child: Segment): Result<Option<Operation>, Error> {
    if child.key !in METHODS then Ok(None)
    else
      var ids := OperationIds([child.head] + child.rest);
      if |ids| == 1 then Ok(Some(Operation(path, child.key, ids[0]))) else Err(BadOperation)
  }

  function ParseChildren(path: string, children: seq<Segment>): Result<seq<Operation>, Error> {
    if children == [] then Ok([])
    else
      match ParseChildren(path, children[..|children| - 1])
      case Err(e) => Err(e)
      case Ok(before) =>
        match OperationOf(path, children[|children| - 1])
        case Err(e) => Err(e)
        case Ok(None) => Ok(before)
        case Ok(Some(operation)) => Ok(before + [operation])
  }

  function ParsePaths(paths: seq<Segment>): Result<seq<Operation>, Error> {
    if paths == [] then Ok([])
    else
      var last := paths[|paths| - 1];
      match ParsePaths(paths[..|paths| - 1])
      case Err(e) => Err(e)
      case Ok(before) =>
        match ParseChildren(Unquote(last.key), Segments(CHILD, last.rest).1)
        case Err(e) => Err(e)
        case Ok(operations) => Ok(before + operations)
  }

  function ParseBody(body: seq<Line>): Result<seq<Operation>, Error> {
    ParsePaths(Segments(PATH, body).1)
  }

  // ---------------------------------------------------------------- sections

  const PATHS_MARKER := "paths:\n"
  const COMPONENTS_LINE := "components:\n"
  const WEBHOOKS_LINE := "webhooks:\n"

  predicate EndsWith(s: string, tail: string) {
    |s| >= |tail| && s[|s| - |tail|..] == tail
  }

  /** The first line, from `i` on, that ends with a text. */
  function FindEnding(lines: seq<Line>, tail: string, i: nat): (r: Option<nat>)
    ensures r.Some? ==> i <= r.value < |lines| && EndsWith(lines[r.value], tail)
    ensures forall k :: i <= k < (if r.Some? then r.value else |lines|) ==> !EndsWith(lines[k], tail)
    decreases |lines| - i
  {
    if i >= |lines| then None else if EndsWith(lines[i], tail) then Some(i) else FindEnding(lines, tail, i + 1)
  }

  /** The first line, from `i` on, that is a given line. */
  function FindLine(lines: seq<Line>, line: Line, i: nat): (r: Option<nat>)
    ensures r.Some? ==> i <= r.value < |lines| && lines[r.value] == line
    ensures forall k :: i <= k < (if r.Some? then r.value else |lines|) ==> lines[k] != line
    decreases |lines| - i
  {
    if i >= |lines| then None else if lines[i] == line then Some(i) else FindLine(lines, line, i + 1)
  }

  predicate Ended(line: Line) { line != "" && line[|line| - 1] == '\n' }

  /** Lines whose last line end belongs to the marker that follows. */
  function Chomp(lines: seq<Line>): seq<Line> {
    if lines == [] || !Ended(lines[|lines| - 1]) then lines
    else
      var n := |lines| - 1;
      if lines[n] == "\n" then lines[..n] else lines[..n] + [lines[n][..|lines[n]| - 1]]
  }

  /** The same line end put back. */
  function Rejoin(lines: seq<Line>): seq<Line> {
    if lines == [] || Ended(lines[|lines| - 1]) then lines + ["\n"]
    else lines[..|lines| - 1] + [lines[|lines| - 1] + "\n"]
  }

  datatype Sections = Sections(prefix: seq<Line>, body: seq<Line>, components: seq<Line>)

  /** Up to and with the paths marker; the paths; from the components line on. */
  function ContractSections(lines: seq<Line>): Result<Sections, Error> {
    match FindEnding(lines, PATHS_MARKER, 0)
    case None => Err(NoPaths)
    case Some(p) =>
      match FindLine(lines, COMPONENTS_LINE, p + 2)
      case None => Err(NoComponents)
      case Some(c) => Ok(Sections(lines[..p + 1], Chomp(lines[p + 1..c]), lines[c..]))
  }

  function ParseOperations(lines: seq<Line>): Result<seq<Operation>, Error> {
    match ContractSections(lines)
    case Err(e) => Err(e)
    case Ok(sections) => ParseBody(sections.body)
  }

  // ---------------------------------------------------------------- rendering

  const NOTICE := ["# Generated by scripts/generate_agent_openapi.py from openapi/automl-api.yaml.\n", "# Do not edit this file directly.\n"]
  const TITLE := "  title: Managed AutoML API\n"
  const NEW_TITLE := "  title: Managed AutoML Agent Tools API\n"

  function Retitle(prefix: seq<Line>): Option<seq<Line>> {
    match FindEnding(prefix, TITLE, 0)
    case None => None
    case Some(i) => Some(prefix[i := prefix[i][..|prefix[i]| - |TITLE|] + NEW_TITLE])
  }

  datatype Kept = Kept(lines: seq<Line>, selected: set<string>, any: bool)

  function RenderChildren(path: string, children: seq<Segment>, wanted: set<string>, selected: set<string>): Result<Kept, Error> {
    if children == [] then Ok(Kept([], selected, false))
    else
      match RenderChildren(path, children[..|children| - 1], wanted, selected)
      case Err(e) => Err(e)
      case Ok(before) =>
        var child := children[|children| - 1];
        match OperationOf(path, child)
        case Err(e) => Err(e)
        case Ok(None) => Ok(before.(lines := before.lines + [child.head] + child.rest))
        case Ok(Some(operation)) =>
          if operation.id !in wanted then Ok(before)
          else if operation.id in before.selected then Err(Duplicate)
          else Ok(Kept(before.lines + [child.head] + child.rest, before.selected + {operation.id}, true))
  }

  function RenderPaths(paths: seq<Segment>, wanted: set<string>): Result<(seq<Line>, set<string>), Error> {
    if paths == [] then Ok(([], {}))
    else
      match RenderPaths(paths[..|paths| - 1], wanted)
      case Err(e) => Err(e)
      case Ok((lines, selected)) =>
        var path := paths[|paths| - 1];
        var (pre, children) := Segments(CHILD, path.rest);
        match RenderChildren(Unquote(path.key), children, wanted, selected)
        case Err(e) => Err(e)
        case Ok(kept) => Ok((if kept.any then lines + [path.head] + pre + kept.lines else lines, kept.selected))
  }

  /** The paths part of a body, and the webhooks section if it has one. */
  function SplitWebhooks(body: seq<Line>): (seq<Line>, seq<Line>) {
    match FindLine(body, WEBHOOKS_LINE, 1)
    case None => (body, [])
    case Some(w) => (Chomp(body[..w]), body[w..])
  }

  function Render(lines: seq<Line>, wanted: set<string>): Result<seq<Line>, Error> {
    match ContractSections(lines)
    case Err(e) => Err(e)
    case Ok(sections) =>
      var (paths, webhooks) := SplitWebhooks(sections.body);
      var (pre, entries) := Segments(PATH, paths);
      match RenderPaths(entries, wanted)
      case Err(e) => Err(e)
      case Ok((kept, selected)) =>
        if !(wanted <= selected) then Err(Missing)
        else
          match Retitle(sections.prefix)
          case None => Err(TitleChanged)
          case Some(prefix) =>
            var body := if webhooks == [] then pre + kept else Rejoin(pre + kept) + webhooks;
            Ok(NOTICE + prefix + Rejoin(body) + sections.components)
  }
}
