/** What the download accepts, writes and keeps, request by request, whoever answers. */
module ArtifactChecks {
  import opened Wrappers
  import opened Text
  import opened ArtifactRange
  import opened ArtifactDownload

  // ---------------------------------------------------------------- a response

  /** The headers promise the rest of this artifact from the offset on, in this version and unencoded. */
  predicate Promises(r: Response, ranged: bool, offset: nat, t: Ticket) {
    && r.status == (if ranged then 206 else 200)
    && r.etag == Some(t.etag)
    && r.contentLength.Some? && IsDigits(r.contentLength.value) && Number(r.contentLength.value) + offset == t.size
    && (r.contentEncoding.Some? ==> r.contentEncoding.value == "" || IsIdentity(r.contentEncoding.value))
    && (ranged ==> r.contentRange.Some? && ReadContentRange(r.contentRange.value) == Some((offset, t.size - 1, t.size)))
  }

  /** The word identity, in letters of either case. */
  predicate IsIdentity(s: string) {
    |s| == |"identity"| && forall i :: 0 <= i < |s| ==> s[i] == "identity"[i] || s[i] == "IDENTITY"[i]
  }

  lemma {:induction false} LowerLetters(s: string)
    ensures |Lower(s)| == |s|
    ensures forall i :: 0 <= i < |s| ==> Lower(s)[i] == if 'A' <= s[i] <= 'Z' then (s[i] as int + 32) as char else s[i]
  {
    if s != "" { LowerLetters(s[1..]); }
  }

  lemma LowerIdentity(s: string)
    ensures Lower(s) == "identity" <==> IsIdentity(s)
  {
    LowerLetters(s);
    assert forall i :: 0 <= i < 8 ==> "IDENTITY"[i] as int + 32 == "identity"[i] as int && 'A' <= "IDENTITY"[i] <= 'Z';
    if |s| == 8 {
      forall i | 0 <= i < 8 ensures Lower(s)[i] == "identity"[i] <==> s[i] == "identity"[i] || s[i] == "IDENTITY"[i] {
        OneLetter(s[i], "identity"[i], "IDENTITY"[i]);
      }
      if IsIdentity(s) { assert Lower(s) == "identity"; }
    }
  }

  lemma OneLetter(c: char, small: char, capital: char)
    requires 'A' <= capital <= 'Z' && small as int == capital as int + 32
    ensures (if 'A' <= c <= 'Z' then (c as int + 32) as char else c) == small <==> c == small || c == capital
  {
  }

  /** A response is accepted exactly if its headers promise that; any other is an error, and of the service if its status says so. */
  lemma ResponseIsJudged(r: Response, cut: bool, ranged: bool, offset: nat, t: Ticket)
    requires offset <= t.size
    ensures Validate(r, cut, ranged, offset, t) == None <==> Promises(r, ranged, offset, t)
    ensures Validate(r, cut, ranged, offset, t) == Some(Transport) <==> r.status != (if ranged then 206 else 200) && cut
    ensures Validate(r, cut, ranged, offset, t) == Some(Api(r.status)) <==> r.status != (if ranged then 206 else 200) && !cut && r.status >= 400
    ensures !Promises(r, ranged, offset, t) && r.status == (if ranged then 206 else 200) ==> Validate(r, cut, ranged, offset, t) == Some(Protocol)
    ensures r.status != (if ranged then 206 else 200) && !cut && r.status < 400 ==> Validate(r, cut, ranged, offset, t) == Some(Protocol)
  {
    if r.contentEncoding.Some? { LowerIdentity(r.contentEncoding.value); }
    hide Lower, IsIdentity, ReadContentRange, Number, IsDigits;
  }

  // ---------------------------------------------------------------- a body

  /** Chunk `i`, written after all before it, would not pass the size; an empty one never does. */
  predicate FitsAt(file: Bytes, chunks: seq<Bytes>, size: nat, i: nat)
    requires i < |chunks|
  {
    chunks[i] == [] || |file| + |Concat(chunks[..i])| + |chunks[i]| <= size
  }

  lemma SameFit(file: Bytes, chunks: seq<Bytes>, size: nat, n: nat, i: nat)
    requires i < n <= |chunks|
    ensures FitsAt(file, chunks[..n], size, i) <==> FitsAt(file, chunks, size, i)
  {
    assert chunks[..n][..i] == chunks[..i];
  }

  /** Chunks that all fit are all written. */
  lemma {:induction false} FittingChunksAreWritten(file: Bytes, chunks: seq<Bytes>, size: nat)
    requires forall i :: 0 <= i < |chunks| ==> FitsAt(file, chunks, size, i)
    ensures Append(file, chunks, size) == (file + Concat(chunks), true)
    decreases |chunks|
  {
    if chunks == [] {
      assert file + [] == file;
    } else {
      var n := |chunks| - 1;
      forall i | 0 <= i < n ensures FitsAt(file, chunks[..n], size, i) { SameFit(file, chunks, size, n, i); }
      FittingChunksAreWritten(file, chunks[..n], size);
      assert FitsAt(file, chunks, size, n);
      assert file + Concat(chunks[..n]) + chunks[n] == file + (Concat(chunks[..n]) + chunks[n]);
    }
  }

  /** The first chunk that does not fit ends the writing; what came before it stays. */
  lemma {:induction false} UnfitChunkEndsWriting(file: Bytes, chunks: seq<Bytes>, size: nat, j: nat)
    requires j < |chunks| && !FitsAt(file, chunks, size, j) && forall i :: 0 <= i < j ==> FitsAt(file, chunks, size, i)
    ensures Append(file, chunks, size) == (file + Concat(chunks[..j]), false)
    decreases |chunks|
  {
    var n := |chunks| - 1;
    if j == n {
      forall i | 0 <= i < n ensures FitsAt(file, chunks[..n], size, i) { SameFit(file, chunks, size, n, i); }
      FittingChunksAreWritten(file, chunks[..n], size);
    } else {
      SameFit(file, chunks, size, n, j);
      forall i | 0 <= i < j ensures FitsAt(file, chunks[..n], size, i) { SameFit(file, chunks, size, n, i); }
      UnfitChunkEndsWriting(file, chunks[..n], size, j);
      assert chunks[..n][..j] == chunks[..j];
    }
  }

  // ---------------------------------------------------------------- an attempt

  /** A partial file that is too large is thrown away. */
  function Usable(partial: Option<Bytes>, t: Ticket): Option<Bytes> {
    if partial.Some? && |partial.value| > t.size then None else partial
  }

  predicate Resumes(partial: Option<Bytes>, t: Ticket, resume: bool) {
    partial.Some? && partial.value != [] && resume && t.supportsRange
  }

  /** What there is to go on with: the partial file if it can be resumed, or is empty. */
  function GoesOnWith(partial: Option<Bytes>, t: Ticket, resume: bool): Option<Bytes> {
    if partial.Some? && partial.value != [] && !Resumes(partial, t, resume) then None else partial
  }

  /** The request an attempt makes: the rest from the end of the partial file if that is resumed, otherwise everything. */
  function Asked(partial: Option<Bytes>, t: Ticket, resume: bool): Option<string> {
    if Resumes(partial, t, resume) then Some("bytes=" + Decimal(|partial.value|) + "-") else None
  }

  /** A partial file that has the size already is taken as it is, and nothing is asked for. */
  lemma FullFileAsksNothing(partial: Option<Bytes>, t: Ticket, resume: bool, net: Network, attempt: nat, last: bool)
    requires partial.Some? && |partial.value| == t.size
    ensures Attempt(partial, t, resume, net, attempt, last) == (partial, Finished)
  {
    hide Validate, Render, Append;
  }

  /** An attempt that gets no response, or whose transport fails under an unexpected status, keeps what it went on with if it can be resumed. */
  lemma LostAttempt(partial: Option<Bytes>, t: Ticket, resume: bool, net: Network, attempt: nat, last: bool)
    requires Size(Usable(partial, t)) != t.size || Usable(partial, t).None?
    requires var found := Usable(partial, t); var e := net(attempt, Asked(found, t, resume));
      e.NoResponse? || (e.cut && e.response.status != (if Resumes(found, t, resume) then 206 else 200))
    ensures Attempt(partial, t, resume, net, attempt, last) ==
      (if resume && t.supportsRange then GoesOnWith(Usable(partial, t), t, resume) else None, if last then Failed(Transport) else Again)
  {
    RenderRest(Size(Usable(partial, t)));
    hide Append, Render, Lower, ReadContentRange, Decimal;
  }

  lemma RenderRest(offset: nat)
    ensures Render(Positions(offset, None)) == "bytes=" + Decimal(offset) + "-"
  {
    hide Decimal;
    assert "bytes=" + Decimal(offset) + "-" + "" == "bytes=" + Decimal(offset) + "-";
  }

  /** An attempt that is answered wrongly ends the download, with the partial file it went on with and nothing written. */
  lemma RejectedAttempt(partial: Option<Bytes>, t: Ticket, resume: bool, net: Network, attempt: nat, last: bool)
    requires Size(Usable(partial, t)) != t.size || Usable(partial, t).None?
    requires var found := Usable(partial, t); var e := net(attempt, Asked(found, t, resume));
      e.Answer? && !Promises(e.response, Resumes(found, t, resume), Size(GoesOnWith(found, t, resume)), t)
      && !(e.cut && e.response.status != (if Resumes(found, t, resume) then 206 else 200))
    ensures var found := Usable(partial, t); var e := net(attempt, Asked(found, t, resume));
      var (left, verdict) := Attempt(partial, t, resume, net, attempt, last);
      && left == GoesOnWith(found, t, resume)
      && verdict == Failed(if e.response.status != (if Resumes(found, t, resume) then 206 else 200) && e.response.status >= 400 then Api(e.response.status) else Protocol)
  {
    var found := Usable(partial, t);
    RenderRest(Size(found));
    var e := net(attempt, Asked(found, t, resume));
    ResponseIsJudged(e.response, e.cut, Resumes(found, t, resume), Size(GoesOnWith(found, t, resume)), t);
    hide Append, Render, Validate, Promises, Decimal;
  }

  /**
    An attempt that is answered rightly writes what comes, up to a chunk that would pass the size. It
    finishes exactly if all of it came and makes up the size; a cut is a transport failure, and anything
    else a protocol error.
  */
  lemma AcceptedAttempt(partial: Option<Bytes>, t: Ticket, resume: bool, net: Network, attempt: nat, last: bool)
    requires Size(Usable(partial, t)) != t.size || Usable(partial, t).None?
    requires var found := Usable(partial, t); var e := net(attempt, Asked(found, t, resume));
      e.Answer? && Promises(e.response, Resumes(found, t, resume), Size(GoesOnWith(found, t, resume)), t)
    ensures var found := Usable(partial, t); var e := net(attempt, Asked(found, t, resume));
      var (written, fits) := Append(if Resumes(found, t, resume) then found.value else [], e.chunks, t.size);
      Attempt(partial, t, resume, net, attempt, last) ==
        if fits && e.cut then (if resume && t.supportsRange then Some(written) else None, if last then Failed(Transport) else Again)
        else (Some(written), if fits && |written| == t.size then Finished else Failed(Protocol))
  {
    var found := Usable(partial, t);
    RenderRest(Size(found));
    var e := net(attempt, Asked(found, t, resume));
    ResponseIsJudged(e.response, e.cut, Resumes(found, t, resume), Size(GoesOnWith(found, t, resume)), t);
    hide Append, Render, Validate, Promises, Decimal;
  }

  // ---------------------------------------------------------------- all attempts

  /** Attempts go on from what the one before left until one finishes or fails for good, or they are used up. */
  lemma {:induction false} AttemptsGoOn(partial: Option<Bytes>, t: Ticket, resume: bool, net: Network, attempt: nat, retries: nat)
    returns (trail: seq<Option<Bytes>>)
    requires attempt <= retries
    ensures 0 < |trail| <= retries - attempt + 1 && trail[0] == partial
    ensures forall i :: 0 <= i < |trail| - 1 ==>
      Attempt(trail[i], t, resume, net, attempt + i, false) == (trail[i + 1], Again)
    ensures var n := |trail| - 1;
      Attempts(partial, t, resume, net, attempt, retries) == Attempt(trail[n], t, resume, net, attempt + n, attempt + n == retries)
    ensures Attempts(partial, t, resume, net, attempt, retries).1 != Again
    decreases retries - attempt
  {
    hide Validate, Render, Append;
    var (left, verdict) := Attempt(partial, t, resume, net, attempt, attempt == retries);
    if verdict.Again? && attempt < retries {
      var rest := AttemptsGoOn(left, t, resume, net, attempt + 1, retries);
      trail := [partial] + rest;
      forall i | 0 <= i < |trail| - 1 ensures Attempt(trail[i], t, resume, net, attempt + i, false) == (trail[i + 1], Again) {
        if i > 0 { assert trail[i] == rest[i - 1] && trail[i + 1] == rest[i]; }
      }
    } else {
      trail := [partial];
    }
  }

  // ---------------------------------------------------------------- the whole download

  /** A partial file that is there in full and verifies takes its place without a request. */
  lemma VerifiedFileIsTaken(f: Files, t: Ticket, net: Network, retries: nat)
    requires f.partial.Some? && |f.partial.value| == t.size && t.hash(f.partial.value) == t.sha256
    ensures Download(f, t, true, net, retries) == (Files(None, f.partial), None)
  {
    hide Attempts;
  }

  /** What the attempts start from: nothing unless resuming, and nothing of a file that is too large or that did not verify. */
  function StartsFrom(f: Files, t: Ticket, resume: bool): Option<Bytes> {
    if resume && f.partial.Some? && |f.partial.value| < t.size then f.partial else None
  }

  /** Otherwise the attempts decide: a whole file is put in place if it verifies and is thrown away if it does not. */
  lemma DownloadEnds(f: Files, t: Ticket, resume: bool, net: Network, retries: nat)
    requires !(resume && f.partial.Some? && |f.partial.value| == t.size && t.hash(f.partial.value) == t.sha256)
    ensures var (left, verdict) := Attempts(StartsFrom(f, t, resume), t, resume, net, 0, retries);
      var (f', error) := Download(f, t, resume, net, retries);
      && (verdict.Finished? && left.Some? && |left.value| == t.size && t.hash(left.value) == t.sha256 ==> f' == Files(None, left) && error == None)
      && (verdict.Finished? && !(left.Some? && |left.value| == t.size && t.hash(left.value) == t.sha256) ==>
            f' == Files(None, f.target) && error == Some(Protocol))
      && (verdict.Failed? ==> error == Some(verdict.error) && f' == Files(if verdict.error.Transport? && resume then left else None, f.target))
  {
    hide Attempts;
  }
}
