/** Downloading an artifact through a partial file that may survive an attempt and be resumed by the next. */
module ArtifactDownload {
  import opened Wrappers
  import opened Text
  import opened ArtifactRange

  /** The hash function of the ticket, of which nothing but its being a function is used. */
  datatype Ticket = Ticket(etag: string, sha256: string, size: nat, supportsRange: bool, hash: Bytes -> string)

  datatype Error = Transport | Protocol | Api(status: nat)

  /** One request: no response at all, or a response whose body arrives in chunks and may be cut. */
  datatype Exchange = NoResponse | Answer(response: Response, chunks: seq<Bytes>, cut: bool)

  /** What the network does with each attempt's request, which is known by its Range header. */
  type Network = (nat, Option<string>) -> Exchange

  // ---------------------------------------------------------------- checking a response

  /** The three numbers of a Content-Range header. */
  function ReadContentRange(s: string): Option<(nat, nat, nat)> {
    if !("bytes " <= s) then None
    else
      match Split(s[6..], '-')
      case None => None
      case Some((start, rest)) =>
        match Split(rest, '/')
        case None => None
        case Some((end, size)) =>
          if IsDigits(start) && IsDigits(end) && IsDigits(size) then Some((Number(start), Number(end), Number(size))) else None
  }

  function Lower(s: string): string {
    if s == "" then "" else [if 'A' <= s[0] <= 'Z' then (s[0] as int + 32) as char else s[0]] + Lower(s[1..])
  }

  /** What is wrong with a response, if anything; the body of an unexpected one is read before it is judged. */
  function Validate(r: Response, cut: bool, ranged: bool, offset: nat, t: Ticket): Option<Error>
    requires offset <= t.size
  {
    if r.status != (if ranged then 206 else 200) then Some(if cut then Transport else if r.status >= 400 then Api(r.status) else Protocol)
    else if r.etag != Some(t.etag) then Some(Protocol)
    else if r.contentLength.None? || !IsDigits(r.contentLength.value) || Number(r.contentLength.value) != t.size - offset then Some(Protocol)
    else if r.contentEncoding.Some? && r.contentEncoding.value != "" && Lower(r.contentEncoding.value) != "identity" then Some(Protocol)
    else if ranged && (r.contentRange.None? || ReadContentRange(r.contentRange.value) != Some((offset, t.size - 1, t.size))) then Some(Protocol)
    else None
  }

  lemma ContentRangeReadsBack(start: nat, end: nat, size: nat)
    ensures ReadContentRange(ContentRange(start, end, size)) == Some((start, end, size))
  {
    hide Decimal, Split, Number, IsDigits;
    DecimalReadsBack(start);
    DecimalReadsBack(end);
    DecimalReadsBack(size);
    DigitsHaveNoSeparator(start, '-');
    DigitsHaveNoSeparator(end, '/');
    var rest := Decimal(end) + ['/'] + Decimal(size);
    SplitReadsBack(Decimal(start), '-', rest);
    SplitReadsBack(Decimal(end), '/', Decimal(size));
    var s := ContentRange(start, end, size);
    assert s == "bytes " + (Decimal(start) + ['-'] + rest);
    assert s[6..] == Decimal(start) + ['-'] + rest;
  }

  // ---------------------------------------------------------------- the two files

  datatype Files = Files(partial: Option<Bytes>, target: Option<Bytes>)

  function Size(file: Option<Bytes>): nat {
    if file.Some? then |file.value| else 0
  }

  function Concat(chunks: seq<Bytes>): Bytes {
    if chunks == [] then [] else Concat(chunks[..|chunks| - 1]) + chunks[|chunks| - 1]
  }

  /** Chunks written one by one until one would pass the size; whether all of them fitted. */
  function Append(file: Bytes, chunks: seq<Bytes>, size: nat): (Bytes, bool) {
    if chunks == [] then (file, true)
    else
      var (before, fits) := Append(file, chunks[..|chunks| - 1], size);
      var chunk := chunks[|chunks| - 1];
      if !fits then (before, false)
      else if chunk != [] && |before| + |chunk| > size then (before, false)
      else (before + chunk, true)
  }

  datatype Verdict = Finished | Again | Failed(error: Error)

  /** A transport failure keeps the partial file only if it can be resumed. */
  function Interrupted(partial: Option<Bytes>, t: Ticket, resume: bool, last: bool): (Option<Bytes>, Verdict) {
    (if resume && t.supportsRange then partial else None, if last then Failed(Transport) else Again)
  }

  /** One attempt, from the partial file it finds to the one it leaves. */
  function Attempt(partial: Option<Bytes>, t: Ticket, resume: bool, net: Network, attempt: nat, last: bool): (Option<Bytes>, Verdict) {
    var found := if Size(partial) > t.size then None else partial;
    if found.Some? && |found.value| == t.size then (found, Finished)
    else
      var ranged := Size(found) > 0 && resume && t.supportsRange;
      var kept := if Size(found) > 0 && !ranged then None else found;
      var offset := Size(kept);
      match net(attempt, if ranged then Some(Render(Positions(offset, None))) else None)
      case NoResponse => Interrupted(kept, t, resume, last)
      case Answer(r, chunks, cut) =>
        match Validate(r, cut, ranged, offset, t)
        case Some(Transport) => Interrupted(kept, t, resume, last)
        case Some(error) => (kept, Failed(error))
        case None =>
          var (written, fits) := Append(if ranged then kept.value else [], chunks, t.size);
          if !fits then (Some(written), Failed(Protocol))
          else if cut then Interrupted(Some(written), t, resume, last)
          else if |written| != t.size then (Some(written), Failed(Protocol))
          else (Some(written), Finished)
  }

  function Attempts(partial: Option<Bytes>, t: Ticket, resume: bool, net: Network, attempt: nat, retries: nat): (Option<Bytes>, Verdict)
    requires attempt <= retries
    decreases retries - attempt
  {
    var (left, verdict) := Attempt(partial, t, resume, net, attempt, attempt == retries);
    if verdict.Again? && attempt < retries then Attempts(left, t, resume, net, attempt + 1, retries) else (left, verdict)
  }

  predicate Verified(bytes: Bytes, t: Ticket) {
    |bytes| == t.size && t.hash(bytes) == t.sha256
  }

  /** The whole download. */
  function Download(f: Files, t: Ticket, resume: bool, net: Network, retries: nat): (Files, Option<Error>) {
    var found := if !resume || Size(f.partial) > t.size then None else f.partial;
    if found.Some? && Verified(found.value, t) then (Files(None, found), None)
    else
      var start := if found.Some? && |found.value| == t.size then None else found;
      var (left, verdict) := Attempts(start, t, resume, net, 0, retries);
      match verdict
      case Finished =>
        if left.Some? && Verified(left.value, t) then (Files(None, left), None) else (Files(None, f.target), Some(Protocol))
      case Failed(error) => (Files(if error.Transport? && resume then left else None, f.target), Some(error))
      case Again => (Files(left, f.target), Some(Transport))
  }

  // ---------------------------------------------------------------- against any server

  /** Success puts a file of the promised size and hash in place; failure leaves the destination alone. */
  lemma SuccessIsVerified(f: Files, t: Ticket, resume: bool, net: Network, retries: nat)
    ensures var (f', error) := Download(f, t, resume, net, retries);
      if error.None? then f'.partial == None && f'.target.Some? && Verified(f'.target.value, t)
      else f'.target == f.target && (f'.partial.Some? ==> error == Some(Transport) && resume)
  {
    var found := if !resume || Size(f.partial) > t.size then None else f.partial;
    AttemptsEnd(if found.Some? && |found.value| == t.size then None else found, t, resume, net, 0, retries);
    hide Attempts;
  }

  lemma {:induction false} AttemptsEnd(partial: Option<Bytes>, t: Ticket, resume: bool, net: Network, attempt: nat, retries: nat)
    requires attempt <= retries
    ensures !Attempts(partial, t, resume, net, attempt, retries).1.Again?
    decreases retries - attempt
  {
    hide Render, Validate, Append;
    var (left, verdict) := Attempt(partial, t, resume, net, attempt, attempt == retries);
    if verdict.Again? && attempt < retries {
      AttemptsEnd(left, t, resume, net, attempt + 1, retries);
    }
  }

  /** With a hash that tells the artifact from everything else, success means the artifact, whoever answered. */
  lemma SuccessIsTheArtifact(f: Files, t: Ticket, resume: bool, net: Network, retries: nat, artifact: Bytes)
    requires t.sha256 == t.hash(artifact) && forall b: Bytes :: t.hash(b) == t.hash(artifact) ==> b == artifact
    requires Download(f, t, resume, net, retries).1.None?
    ensures Download(f, t, resume, net, retries).0.target == Some(artifact)
  {
    SuccessIsVerified(f, t, resume, net, retries);
    hide Download;
  }

  // ---------------------------------------------------------------- against the artifact server

  /** The server answers with the artifact or an error, and the transport may lose the end of the body, or everything. */
  predicate HonestAnswer(e: Exchange, artifact: Bytes, t: Ticket, range: Option<string>) {
    e.Answer? ==>
      var (response, body) := Serve(artifact, t.etag, range);
      || (e.response == response && Concat(e.chunks) <= body && (!e.cut ==> Concat(e.chunks) == body))
      || e.response.status >= 400
  }

  ghost predicate Honest(net: Network, artifact: Bytes, t: Ticket) {
    && t.size == |artifact|
    && forall attempt, range :: HonestAnswer(net(attempt, range), artifact, t, range)
  }

  predicate IsPrefix(partial: Option<Bytes>, artifact: Bytes) {
    partial.Some? ==> partial.value <= artifact
  }

  lemma {:induction false} AppendFits(file: Bytes, chunks: seq<Bytes>, size: nat)
    requires |file| + |Concat(chunks)| <= size
    ensures Append(file, chunks, size) == (file + Concat(chunks), true)
    decreases |chunks|
  {
    if chunks == [] {
      assert file + [] == file;
    } else {
      AppendFits(file, chunks[..|chunks| - 1], size);
      assert file + Concat(chunks[..|chunks| - 1]) + chunks[|chunks| - 1] == file + Concat(chunks);
    }
  }

  /** An honest answer to a resumed or a fresh request passes every check. */
  lemma HonestAnswerPasses(artifact: Bytes, t: Ticket, kept: Option<Bytes>, ranged: bool, cut: bool)
    requires t.size == |artifact| && Size(kept) <= |artifact|
    requires if ranged then 0 < Size(kept) < |artifact| else Size(kept) == 0
    ensures var (r, body) := Serve(artifact, t.etag, if ranged then Some(Render(Positions(Size(kept), None))) else None);
      Validate(r, cut, ranged, Size(kept), t) == None && body == artifact[Size(kept)..]
  {
    hide Render, ReadContentRange, ContentRange;
    var offset := Size(kept);
    DecimalReadsBack(|artifact| - offset);
    hide Decimal, Number, IsDigits;
    if ranged {
      RestIsServed(artifact, t.etag, offset);
      ContentRangeReadsBack(offset, |artifact| - 1, |artifact|);
    } else {
      assert artifact[0..] == artifact;
    }
  }

  /** One attempt against the artifact server leaves a prefix of the artifact, and finishes only with all of it. */
  lemma AttemptKeepsPrefix(partial: Option<Bytes>, t: Ticket, resume: bool, net: Network, attempt: nat, last: bool, artifact: Bytes)
    requires Honest(net, artifact, t) && IsPrefix(partial, artifact)
    ensures var (left, verdict) := Attempt(partial, t, resume, net, attempt, last);
      && IsPrefix(left, artifact)
      && (verdict == Finished ==> left == Some(artifact))
      && verdict != Failed(Protocol)
      && (resume && t.supportsRange && partial.Some? ==> left.Some? && |partial.value| <= |left.value|)
  {
    hide Validate, Append, Render, Serve, Concat;
    var ranged := Size(partial) > 0 && resume && t.supportsRange;
    var kept := if Size(partial) > 0 && !ranged then None else partial;
    var range := if ranged then Some(Render(Positions(Size(kept), None))) else None;
    if partial.Some? && |partial.value| == t.size {
      WholePrefix(partial.value, artifact);
    } else {
      var e := net(attempt, range);
      assert HonestAnswer(e, artifact, t, range);
      if e.Answer? {
        HonestAnswerPasses(artifact, t, kept, ranged, e.cut);
        var (r, body) := Serve(artifact, t.etag, range);
        if e.response.status < 400 {
          var base := if ranged then kept.value else [];
          BodyContinues(base, artifact, Concat(e.chunks), body, e.cut);
          AppendFits(base, e.chunks, t.size);
        } else {
          ErrorsAreApi(e.response, e.cut, ranged, Size(kept), t);
        }
      }
    }
  }

  lemma WholePrefix(bytes: Bytes, artifact: Bytes)
    requires bytes <= artifact && |bytes| == |artifact|
    ensures bytes == artifact
  {
    assert bytes == artifact[..|bytes|];
  }

  lemma ErrorsAreApi(r: Response, cut: bool, ranged: bool, offset: nat, t: Ticket)
    requires r.status >= 400 && offset <= t.size
    ensures Validate(r, cut, ranged, offset, t) == Some(if cut then Transport else Api(r.status))
  {
  }

  lemma BodyContinues(base: Bytes, artifact: Bytes, sent: Bytes, body: Bytes, cut: bool)
    requires base <= artifact && body == artifact[|base|..] && sent <= body && (!cut ==> sent == body)
    ensures base + sent <= artifact && |base| + |sent| <= |artifact| && (!cut ==> base + sent == artifact)
  {
    assert artifact == base + body;
  }

  lemma {:induction false} AttemptsKeepPrefix(partial: Option<Bytes>, t: Ticket, resume: bool, net: Network, attempt: nat, retries: nat, artifact: Bytes)
    requires attempt <= retries && Honest(net, artifact, t) && IsPrefix(partial, artifact)
    ensures var (left, verdict) := Attempts(partial, t, resume, net, attempt, retries);
      && IsPrefix(left, artifact)
      && (verdict == Finished ==> left == Some(artifact))
      && verdict != Failed(Protocol)
      && (resume && t.supportsRange && partial.Some? ==> left.Some? && |partial.value| <= |left.value|)
    decreases retries - attempt
  {
    hide Attempt, Honest;
    AttemptKeepsPrefix(partial, t, resume, net, attempt, attempt == retries, artifact);
    var (left, verdict) := Attempt(partial, t, resume, net, attempt, attempt == retries);
    if verdict.Again? && attempt < retries {
      AttemptsKeepPrefix(left, t, resume, net, attempt + 1, retries, artifact);
    }
  }

  /**
    A partial file that starts absent or as a prefix of the artifact stays so across every failure;
    success makes the destination the artifact; only the transport or an error status can fail it,
    and a transport failure that can be resumed never loses bytes.
  */
  lemma PartialStaysAPrefix(f: Files, t: Ticket, resume: bool, net: Network, retries: nat, artifact: Bytes)
    requires Honest(net, artifact, t) && t.sha256 == t.hash(artifact) && IsPrefix(f.partial, artifact)
    ensures var (f', error) := Download(f, t, resume, net, retries);
      && IsPrefix(f'.partial, artifact)
      && (error.None? ==> f'.target == Some(artifact))
      && error != Some(Protocol)
      && (error == Some(Transport) && resume && t.supportsRange && f.partial.Some? ==>
            f'.partial.Some? && |f.partial.value| <= |f'.partial.value|)
  {
    hide Attempts;
    var start := if !resume then None else f.partial;
    HonestSize(net, artifact, t);
    if start.Some? && |start.value| == t.size {
      WholePrefix(start.value, artifact);
    } else {
      AttemptsKeepPrefix(start, t, resume, net, 0, retries, artifact);
    }
  }

  // ---------------------------------------------------------------- it gets there

  /** No error status before an attempt that is answered in full. */
  ghost predicate Answers(net: Network, artifact: Bytes, t: Ticket, complete: nat) {
    forall attempt: nat, range :: attempt <= complete && net(attempt, range).Answer? ==>
      && net(attempt, range).response == Serve(artifact, t.etag, range).0
      && (attempt == complete ==> !net(attempt, range).cut)
  }

  /** If one of the allowed attempts is answered in full, whatever happened to those before it, the download succeeds. */
  lemma DownloadSucceeds(f: Files, t: Ticket, resume: bool, net: Network, retries: nat, artifact: Bytes, complete: nat)
    requires Honest(net, artifact, t) && t.sha256 == t.hash(artifact) && IsPrefix(f.partial, artifact)
    requires complete <= retries && Answers(net, artifact, t, complete)
    requires forall range :: net(complete, range).Answer?
    ensures var (f', error) := Download(f, t, resume, net, retries);
      error == None && f' == Files(None, Some(artifact))
  {
    hide Attempts, Honest, Answers;
    var start := if !resume then None else f.partial;
    HonestSize(net, artifact, t);
    if start.Some? && |start.value| == t.size {
      WholePrefix(start.value, artifact);
    } else {
      AttemptsSucceed(start, t, resume, net, 0, retries, artifact, complete);
    }
  }

  lemma HonestSize(net: Network, artifact: Bytes, t: Ticket)
    requires Honest(net, artifact, t)
    ensures t.size == |artifact|
  {
  }

  lemma {:induction false} AttemptsSucceed(
    partial: Option<Bytes>, t: Ticket, resume: bool, net: Network, attempt: nat, retries: nat, artifact: Bytes, complete: nat)
    requires attempt <= complete <= retries && Honest(net, artifact, t) && IsPrefix(partial, artifact)
    requires Answers(net, artifact, t, complete) && forall range :: net(complete, range).Answer?
    ensures Attempts(partial, t, resume, net, attempt, retries) == (Some(artifact), Finished)
    decreases retries - attempt
  {
    hide Attempt, Honest, Answers;
    var (left, verdict) := Attempt(partial, t, resume, net, attempt, attempt == retries);
    AttemptKeepsPrefix(partial, t, resume, net, attempt, attempt == retries, artifact);
    AttemptEnds(partial, t, resume, net, attempt, attempt == retries, artifact, complete);
    if verdict.Again? && attempt < retries {
      AttemptsSucceed(left, t, resume, net, attempt + 1, retries, artifact, complete);
    }
  }

  lemma AttemptEnds(partial: Option<Bytes>, t: Ticket, resume: bool, net: Network, attempt: nat, last: bool, artifact: Bytes, complete: nat)
    requires attempt <= complete && Honest(net, artifact, t) && IsPrefix(partial, artifact)
    requires Answers(net, artifact, t, complete) && forall range :: net(complete, range).Answer?
    requires last ==> attempt == complete
    ensures var verdict := Attempt(partial, t, resume, net, attempt, last).1;
      verdict == Finished || (verdict == Again && attempt < complete)
  {
    hide Validate, Append, Render, Serve, Concat;
    var ranged := Size(partial) > 0 && resume && t.supportsRange;
    var kept := if Size(partial) > 0 && !ranged then None else partial;
    var range := if ranged then Some(Render(Positions(Size(kept), None))) else None;
    if !(partial.Some? && |partial.value| == t.size) {
      var e := net(attempt, range);
      assert HonestAnswer(e, artifact, t, range);
      if e.Answer? {
        HonestAnswerPasses(artifact, t, kept, ranged, e.cut);
        var base := if ranged then kept.value else [];
        var (r, body) := Serve(artifact, t.etag, range);
        ServeIsNoError(artifact, t, kept, ranged);
        BodyContinues(base, artifact, Concat(e.chunks), body, e.cut);
        AppendFits(base, e.chunks, t.size);
      }
    }
  }

  lemma ServeIsNoError(artifact: Bytes, t: Ticket, kept: Option<Bytes>, ranged: bool)
    requires t.size == |artifact| && Size(kept) <= |artifact|
    requires if ranged then 0 < Size(kept) < |artifact| else Size(kept) == 0
    ensures Serve(artifact, t.etag, if ranged then Some(Render(Positions(Size(kept), None))) else None).0.status < 400
  {
    if ranged { RestIsServed(artifact, t.etag, Size(kept)); }
    hide Render, Decimal;
  }
}
