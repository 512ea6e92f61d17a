/** Serving a byte range of an artifact (sections 14.1.2, 14.4 and 15.3.7 of RFC 9110). */
module ArtifactRange {
  import opened Wrappers
  import opened Text

  type Bytes = seq<bv8>

  // ---------------------------------------------------------------- numbers as the server reads them

  predicate IsSpace(c: char) { c in " \t\n\r" }

  function Strip(s: string): string
    decreases |s|
  {
    if s == "" then s
    else if IsSpace(s[0]) then Strip(s[1..])
    else if IsSpace(s[|s| - 1]) then Strip(s[..|s| - 1])
    else s
  }

  /** Digits, with single underscores allowed between them. */
  function Digits(s: string): Option<nat>
    decreases |s|
  {
    if s == "" || !IsDigit(s[|s| - 1]) then None
    else
      var last, n := DigitValue(s[|s| - 1]), |s| - 1;
      if n == 0 then Some(last)
      else
        match Digits(if s[n - 1] == '_' then s[..n - 1] else s[..n])
        case None => None
        case Some(high) => Some(high * 10 + last)
  }

  /** An integer literal: surrounding space and one sign are allowed. */
  function Int(text: string): Option<int> {
    var s := Strip(text);
    if s != "" && s[0] == '-' then Signed(s[1..], -1)
    else if s != "" && s[0] == '+' then Signed(s[1..], 1)
    else Signed(s, 1)
  }

  function Signed(s: string, sign: int): Option<int> {
    match Digits(s)
    case None => None
    case Some(n) => Some(sign * n)
  }

  lemma {:induction false} DigitsReadBack(n: nat)
    ensures Digits(Decimal(n)) == Some(n)
  {
    DecimalReadsBack(n);
    var s := Decimal(n);
    if n < 10 {
      assert |s| == 1;
    } else {
      DigitsReadBack(n / 10);
      DecimalReadsBack(n / 10);
      assert s[..|s| - 1] == Decimal(n / 10);
      assert IsDigit(s[|s| - 2]);
    }
  }

  lemma IntReadsBack(n: nat)
    ensures Int(Decimal(n)) == Some(n)
  {
    DecimalReadsBack(n);
    DigitsReadBack(n);
    assert IsDigit(Decimal(n)[0]) && IsDigit(Decimal(n)[|Decimal(n)| - 1]);
  }

  /** Space around a text that has none at its ends goes away. */
  lemma {:induction false} StripReadsBack(before: string, core: string, after: string)
    requires (forall c :: c in before ==> IsSpace(c)) && (forall c :: c in after ==> IsSpace(c))
    requires core != "" && !IsSpace(core[0]) && !IsSpace(core[|core| - 1])
    ensures Strip(before + core + after) == core
    decreases |before| + |after|
  {
    var s := before + core + after;
    if before != "" {
      assert s[0] == before[0] && s[1..] == before[1..] + core + after;
      StripReadsBack(before[1..], core, after);
    } else if after != "" {
      var n := |after| - 1;
      assert s[0] == core[0] && s[|s| - 1] == after[n] && s[..|s| - 1] == before + core + after[..n];
      StripReadsBack(before, core, after[..n]);
    } else {
      assert s == core;
    }
  }

  datatype Sign = PLAIN | PLUS | MINUS

  function SignText(sign: Sign): string {
    match sign case PLAIN => "" case PLUS => "+" case MINUS => "-"
  }

  /** A number is accepted with space around it and a sign before it, which is more than the header's grammar allows. */
  lemma IntAcceptsMore(before: string, sign: Sign, n: nat, after: string)
    requires (forall c :: c in before ==> IsSpace(c)) && (forall c :: c in after ==> IsSpace(c))
    ensures Int(before + (SignText(sign) + Decimal(n)) + after) == Some((if sign == MINUS then -1 else 1) * n)
  {
    DecimalReadsBack(n);
    DigitsReadBack(n);
    var core := SignText(sign) + Decimal(n);
    assert !IsSpace(core[0]) && core[|core| - 1] == Decimal(n)[|Decimal(n)| - 1];
    StripReadsBack(before, core, after);
    hide Strip, Decimal, Digits;
    if sign != PLAIN { assert core[1..] == Decimal(n); } else { assert core == Decimal(n) && IsDigit(core[0]); }
  }

  /** Digits with single underscores between them, and nothing else, are read as a number. */
  lemma {:induction false} DigitsExactly(s: string)
    ensures Digits(s).Some? <==>
      && s != "" && IsDigit(s[0]) && IsDigit(s[|s| - 1])
      && (forall i :: 0 <= i < |s| ==> IsDigit(s[i]) || s[i] == '_')
      && (forall i :: 0 < i < |s| ==> s[i - 1] != '_' || s[i] != '_')
    decreases |s|
  {
    if s != "" && IsDigit(s[|s| - 1]) && |s| > 1 {
      var n := |s| - 1;
      var rest := if s[n - 1] == '_' then s[..n - 1] else s[..n];
      DigitsExactly(rest);
      if rest != "" {
        assert rest[0] == s[0];
        assert forall i :: 0 <= i < |rest| ==> rest[i] == s[i];
        if Digits(rest).Some? {
          forall i | 0 < i < |s| ensures s[i - 1] != '_' || s[i] != '_' {
            if i < |rest| { assert rest[i - 1] != '_' || rest[i] != '_'; }
          }
        }
      }
    }
  }

  /** An underscore before a last digit makes no difference to the number. */
  lemma UnderscoreIsSkipped(s: string, d: char)
    requires Digits(s).Some? && IsDigit(d)
    ensures Digits(s + ['_', d]) == Digits(s + [d]) == Some(Digits(s).value * 10 + DigitValue(d))
  {
    var with, without := s + ['_', d], s + [d];
    assert with[..|with| - 2] == s && without[..|without| - 1] == s;
    assert IsDigit(s[|s| - 1]) && without[|without| - 2] == s[|s| - 1];
  }

  // ---------------------------------------------------------------- the Range header

  datatype RangeError = Malformed | NotSatisfiable

  /** The first and last position to send, or None for the whole artifact. */
  function ParseByteRange(header: Option<string>, size: nat): Result<Option<(nat, nat)>, RangeError> {
    if header.None? then Ok(None)
    else if !("bytes=" <= header.value) || ',' in header.value then Err(Malformed)
    else
      match Split(header.value[6..], '-')
      case None => Err(Malformed)
      case Some((first, last)) =>
        if first == "" && last == "" then Err(Malformed)
        else if first != "" then
          match (Int(first), if last == "" then Some(size - 1) else Int(last))
          case (Some(start), Some(end)) => Bounded(start, end, size)
          case _ => Err(Malformed)
        else
          match Int(last)
          case None => Err(Malformed)
          case Some(suffix) =>
            if suffix <= 0 then Err(Malformed)
            else Bounded(if size > suffix then size - suffix else 0, size - 1, size)
  }

  function Bounded(start: int, end: int, size: nat): Result<Option<(nat, nat)>, RangeError> {
    if start < 0 || end < start || start >= size then Err(NotSatisfiable)
    else Ok(Some((start, if end < size - 1 then end else size - 1)))
  }

  /** What a client may ask for: positions from a first one on, up to a last one if given, or the last so many. */
  datatype Spec = Positions(first: nat, last: Option<nat>) | Suffix(length: nat)

  function Render(spec: Spec): string {
    match spec
    case Positions(first, last) => "bytes=" + Decimal(first) + "-" + if last.None? then "" else Decimal(last.value)
    case Suffix(length) => "bytes=-" + Decimal(length)
  }

  predicate Requests(spec: Spec, size: nat, position: nat) {
    && position < size
    && match spec
       case Positions(first, last) => first <= position && (last.Some? ==> position <= last.value)
       case Suffix(length) => size - length <= position
  }

  lemma RangeText(spec: Spec)
    ensures "bytes=" <= Render(spec) && ',' !in Render(spec)
    ensures Split(Render(spec)[6..], '-') == match spec
      case Positions(first, last) => Some((Decimal(first), if last.None? then "" else Decimal(last.value)))
      case Suffix(length) => Some(("", Decimal(length)))
  {
    match spec
    case Positions(first, last) =>
      var tail := if last.None? then "" else Decimal(last.value);
      DigitsHaveNoSeparator(first, '-');
      DigitsHaveNoSeparator(first, ',');
      if last.Some? { DigitsHaveNoSeparator(last.value, ','); }
      SplitReadsBack(Decimal(first), '-', tail);
      assert Render(spec)[6..] == Decimal(first) + ['-'] + tail;
      assert ',' !in "bytes=" && ',' !in "-";
    case Suffix(length) =>
      DigitsHaveNoSeparator(length, ',');
      SplitReadsBack("", '-', Decimal(length));
      assert Render(spec)[6..] == "" + ['-'] + Decimal(length);
      assert ',' !in "bytes=-";
  }

  /**
    For every range a client can write, the positions served are exactly those requested that the
    artifact has; the request is refused exactly when there are none.
  */
  lemma RangeIsTheIntersection(spec: Spec, size: nat)
    ensures match ParseByteRange(Some(Render(spec)), size)
      case Ok(Some((start, end))) =>
        start <= end < size && forall p: nat :: start <= p <= end <==> Requests(spec, size, p)
      case Ok(None) => false
      case Err(_) => forall p: nat :: !Requests(spec, size, p)
  {
    hide Decimal, Int, Split, Render;
    RangeText(spec);
    match spec
    case Positions(first, last) =>
      IntReadsBack(first);
      DecimalNotEmpty(first);
      if last.Some? { IntReadsBack(last.value); DecimalNotEmpty(last.value); }
    case Suffix(length) =>
      IntReadsBack(length);
      DecimalNotEmpty(length);
  }

  lemma DecimalNotEmpty(n: nat)
    ensures Decimal(n) != ""
  {
  }

  /** Whatever the header says, what is served lies inside the artifact and is never empty. */
  lemma ServedRangeIsInside(header: Option<string>, size: nat)
    requires ParseByteRange(header, size).Ok? && ParseByteRange(header, size).value.Some?
    ensures var (start, end) := ParseByteRange(header, size).value.value; start <= end < size
  {
    hide Int, Split;
  }

  // ---------------------------------------------------------------- the response

  datatype Response = Response(
    status: nat, etag: Option<string>, contentLength: Option<string>, contentEncoding: Option<string>, contentRange: Option<string>)

  function ContentRange(start: nat, end: nat, size: nat): string {
    "bytes " + Decimal(start) + "-" + Decimal(end) + "/" + Decimal(size)
  }

  /** Status, headers and body for an artifact. */
  function Serve(artifact: Bytes, etag: string, header: Option<string>): (Response, Bytes) {
    match ParseByteRange(header, |artifact|)
    case Err(_) => (Response(416, None, None, None, None), [])
    case Ok(None) => (Response(200, Some(etag), Some(Decimal(|artifact|)), None, None), artifact)
    case Ok(Some((start, end))) =>
      ServedRangeIsInside(header, |artifact|);
      (Response(206, Some(etag), Some(Decimal(end - start + 1)), None, Some(ContentRange(start, end, |artifact|))), artifact[start..end + 1])
  }

  lemma RestIsParsed(offset: nat, size: nat)
    requires offset < size
    ensures ParseByteRange(Some(Render(Positions(offset, None))), size) == Ok(Some((offset, size - 1)))
  {
    hide Decimal, Int, Split, Render;
    RangeText(Positions(offset, None));
    IntReadsBack(offset);
    DecimalNotEmpty(offset);
  }

  /** Asking for everything from an offset inside the artifact gets exactly the rest of it. */
  lemma RestIsServed(artifact: Bytes, etag: string, offset: nat)
    requires offset < |artifact|
    ensures Serve(artifact, etag, Some(Render(Positions(offset, None)))) ==
      (Response(206, Some(etag), Some(Decimal(|artifact| - offset)), None, Some(ContentRange(offset, |artifact| - 1, |artifact|))),
       artifact[offset..])
  {
    hide Decimal, Render, ContentRange, ParseByteRange;
    RestIsParsed(offset, |artifact|);
    assert artifact[offset..|artifact|] == artifact[offset..];
  }
}
