/** The download as it runs: two files on disk, written, kept, removed and moved step by step. */
module ArtifactFiles {
  import opened Wrappers
  import opened ArtifactRange
  import opened ArtifactDownload

  lemma {:induction false} AppendStops(file: Bytes, chunks: seq<Bytes>, size: nat, i: nat)
    requires i <= |chunks| && !Append(file, chunks[..i], size).1
    ensures Append(file, chunks, size) == Append(file, chunks[..i], size)
    decreases |chunks|
  {
    if i == |chunks| {
      assert chunks[..i] == chunks;
    } else {
      var init := chunks[..|chunks| - 1];
      assert init[..i] == chunks[..i];
      AppendStops(file, init, size, i);
    }
  }

  class ArtifactFile {
    var partial: Option<Bytes>
    var target: Option<Bytes>

    constructor (partial: Option<Bytes>, target: Option<Bytes>)
      ensures State() == Files(partial, target)
    {
      this.partial, this.target := partial, target;
    }

    function State(): Files
      reads this
    {
      Files(partial, target)
    }

    method UnlinkPartial()
      modifies this`partial
      ensures partial == None
    {
      partial := None;
    }

    /** Puts the finished partial file in the destination's place. */
    method ReplaceTarget()
      requires partial.Some?
      modifies this
      ensures State() == Files(None, old(partial))
    {
      target := partial;
      partial := None;
    }

    /** Opens the partial file, for appending or afresh, and writes the body to it chunk by chunk. */
    method WriteBody(resumed: bool, chunks: seq<Bytes>, size: nat) returns (fits: bool)
      requires resumed ==> partial.Some?
      modifies this`partial
      ensures var (written, ok) := Append(if resumed then old(partial).value else [], chunks, size);
        partial == Some(written) && fits == ok
    {
      ghost var base := if resumed then partial.value else [];
      var written := if resumed then partial.value else [];
      assert chunks[..0] == [];
      for i := 0 to |chunks|
        invariant Append(base, chunks[..i], size) == (written, true)
      {
        assert chunks[..i + 1][..i] == chunks[..i];
        var chunk := chunks[i];
        if chunk == [] {
          assert written + chunk == written;
          continue;
        }
        if |written| + |chunk| > size {
          AppendStops(base, chunks, size, i + 1);
          partial := Some(written);
          return false;
        }
        written := written + chunk;
      }
      assert chunks[..|chunks|] == chunks;
      partial := Some(written);
      fits := true;
    }

    /** The transport failed: keep the partial file if a later attempt can resume it. */
    method Interrupt(t: Ticket, resume: bool, last: bool) returns (verdict: Verdict)
      modifies this`partial
      ensures (partial, verdict) == Interrupted(old(partial), t, resume, last)
    {
      if !(resume && t.supportsRange) { UnlinkPartial(); }
      verdict := if last then Failed(Transport) else Again;
    }

    method TryOnce(t: Ticket, resume: bool, net: Network, attempt: nat, last: bool) returns (verdict: Verdict)
      modifies this`partial
      ensures (partial, verdict) == Attempt(old(partial), t, resume, net, attempt, last)
    {
      hide Validate, Append, Render;
      var offset := Size(partial);
      if offset > t.size {
        UnlinkPartial();
        offset := 0;
      }
      if partial.Some? && offset == t.size { return Finished; }
      var ranged := offset > 0 && resume && t.supportsRange;
      if offset > 0 && !ranged {
        UnlinkPartial();
        offset := 0;
      }
      match net(attempt, if ranged then Some(Render(Positions(offset, None))) else None)
      case NoResponse => verdict := Interrupt(t, resume, last);
      case Answer(response, chunks, cut) =>
        var problem := Validate(response, cut, ranged, offset, t);
        if problem == Some(Transport) {
          verdict := Interrupt(t, resume, last);
          return;
        }
        if problem.Some? { return Failed(problem.value); }
        var fits := WriteBody(ranged, chunks, t.size);
        if !fits { return Failed(Protocol); }
        if cut {
          verdict := Interrupt(t, resume, last);
          return;
        }
        verdict := if Size(partial) != t.size then Failed(Protocol) else Finished;
    }

    method DownloadToPartial(t: Ticket, resume: bool, net: Network, retries: nat) returns (verdict: Verdict)
      modifies this`partial
      ensures (partial, verdict) == Attempts(old(partial), t, resume, net, 0, retries)
    {
      hide Attempt;
      for attempt := 0 to retries + 1
        invariant attempt <= retries ==> Attempts(partial, t, resume, net, attempt, retries) == Attempts(old(partial), t, resume, net, 0, retries)
        invariant attempt == retries + 1 ==> (partial, Again) == Attempts(old(partial), t, resume, net, 0, retries)
      {
        verdict := TryOnce(t, resume, net, attempt, attempt == retries);
        if !verdict.Again? { return; }
      }
      verdict := Again;
    }

    method DownloadArtifactFile(t: Ticket, resume: bool, net: Network, retries: nat) returns (error: Option<Error>)
      modifies this
      ensures (State(), error) == Download(old(State()), t, resume, net, retries)
    {
      hide Attempts;
      if !resume || Size(partial) > t.size { UnlinkPartial(); }
      if partial.Some? && Size(partial) == t.size {
        if t.hash(partial.value) == t.sha256 {
          ReplaceTarget();
          return None;
        }
        UnlinkPartial();
      }
      var verdict := DownloadToPartial(t, resume, net, retries);
      match verdict
      case Finished =>
        if partial.None? || |partial.value| != t.size || t.hash(partial.value) != t.sha256 {
          UnlinkPartial();
          return Some(Protocol);
        }
        ReplaceTarget();
        error := None;
      case Failed(problem) =>
        if !(problem.Transport? && resume) { UnlinkPartial(); }
        error := Some(problem);
      case Again => error := Some(Transport);
    }
  }
}
