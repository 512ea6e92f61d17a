/** What the calls of the reservation table record, when a key is free again, and which steps leave it taken for good. */
module IdempotencyKeys {
  import opened Wrappers
  import opened Idempotency

  /** Every other key is there exactly if it was, with the same record. */
  predicate OthersStay(r: Records, r': Records, id: Identity) {
    && (forall other :: other in r' && other != id ==> other in r)
    && (forall other :: other in r && other != id ==> other in r' && r'[other] == r[other])
  }

  // ---------------------------------------------------------------- single calls

  /** Beginning reserves a free key for this request and tells others what became of the request that holds it. */
  lemma BeginRecords(r: Records, id: Identity, fingerprint: string)
    ensures var (r', decision) := Begin(r, id, fingerprint);
      && OthersStay(r, r', id)
      && (decision == NEW <==> WellFormed(id, fingerprint) && id !in r)
      && (decision == NEW ==> id in r' && r'[id].fingerprint == fingerprint && r'[id].response.None?)
      && (decision != NEW ==> r' == r)
      && (decision == INVALID <==> id.operation == "" || id.key == "" || fingerprint == "")
      && (WellFormed(id, fingerprint) && id in r ==>
            && (decision == CONFLICT(r[id].fingerprint) <==> r[id].fingerprint != fingerprint)
            && (decision == IN_PROGRESS <==> r[id].fingerprint == fingerprint && r[id].response.None?)
            && (r[id].fingerprint == fingerprint && r[id].response.Some? ==> decision == REPLAY(r[id].response.value)))
      && (WellFormed(id, fingerprint) ==> decision == NEW || decision == Get(r, id, fingerprint))
  {
  }

  /** Completing stores the first response and answers with it; a foreign fingerprint is refused and nothing changes. */
  lemma CompleteRecords(r: Records, id: Identity, fingerprint: string, response: Response)
    ensures var (r', answer) := Complete(r, id, fingerprint, response);
      && OthersStay(r, r', id)
      && (answer.Ok? <==> WellFormed(id, fingerprint) && (id in r ==> r[id].fingerprint == fingerprint))
      && (answer.Ok? ==>
            && id in r' && r'[id].fingerprint == fingerprint && r'[id].response == Some(answer.value)
            && answer.value == if id in r && r[id].response.Some? then r[id].response.value else response)
      && (answer.Err? ==> r' == r)
      && (answer.Err? ==> answer.error == if WellFormed(id, fingerprint) && id in r then Reused(r[id].fingerprint) else InvalidIdentity)
  {
  }

  /** Aborting frees the key of an unanswered reservation of the same request, and does nothing else. */
  lemma AbortRecords(r: Records, id: Identity, fingerprint: string)
    ensures var (r', answer) := Abort(r, id, fingerprint);
      && OthersStay(r, r', id)
      && (answer == Ok(true) <==>
            WellFormed(id, fingerprint) && id in r && r[id].fingerprint == fingerprint && r[id].response.None?)
      && (answer == Ok(true) ==> id !in r')
      && (answer != Ok(true) ==> r' == r)
      && (answer.Err? <==> !WellFormed(id, fingerprint) || (id in r && r[id].fingerprint != fingerprint))
      && (answer.Err? ==> answer.error == if WellFormed(id, fingerprint) then Reused(r[id].fingerprint) else InvalidIdentity)
  {
  }

  /** Looking up changes nothing and answers as beginning would, but for a free key. */
  lemma GetRecords(r: Records, id: Identity, fingerprint: string)
    ensures var decision := Get(r, id, fingerprint);
      && (decision == INVALID <==> id.operation == "" || id.key == "" || fingerprint == "")
      && (decision == MISS <==> WellFormed(id, fingerprint) && id !in r)
      && (WellFormed(id, fingerprint) && id in r ==> decision == Begin(r, id, fingerprint).1)
  {
  }

  // ---------------------------------------------------------------- what a request is told

  /** The other requests are where they were. */
  predicate OnlyClient(w: World, w': World, c: ClientId) {
    && w'.clients.Keys == w.clients.Keys
    && forall other :: other in w.clients && other != c ==> w'.clients[other] == w.clients[other]
  }

  predicate SameRequest(a: Client, b: Client) {
    a.id == b.id && a.fingerprint == b.fingerprint
  }

  /** A request arrives once, fresh. */
  lemma ArrivalRecords(w: World, c: ClientId, id: Identity, fingerprint: string)
    ensures var w' := Next(w, Arrive(c, id, fingerprint));
      && w'.records == w.records
      && (c in w.clients ==> w' == w)
      && (c !in w.clients ==>
            && w'.clients.Keys == w.clients.Keys + {c} && (forall other :: other in w.clients ==> w'.clients[other] == w.clients[other])
            && w'.clients[c].id == id && w'.clients[c].fingerprint == fingerprint && w'.clients[c].phase == Fresh && !w'.clients[c].ran)
  {
  }

  /** What a fresh request is told when it begins, and whether it executes. */
  lemma BeginAnswers(w: World, c: ClientId, writeFails: bool)
    requires c in w.clients && w.clients[c].phase.Fresh?
    ensures var w', me := Next(w, BeginStep(c, writeFails)), w.clients[c]; var r := w.records;
      && OnlyClient(w, w', c) && SameRequest(me, w'.clients[c])
      && w'.clients[c].phase ==
           (if writeFails || !WellFormed(me.id, me.fingerprint) then Done(Raised)
            else if me.id !in r then Executing
            else if r[me.id].fingerprint != me.fingerprint then Done(KeyReused)
            else if r[me.id].response.Some? then Done(Reply(r[me.id].response.value)) else Waiting)
      && (w'.clients[c].phase != Executing ==> w'.records == w.records && w'.clients[c].ran == me.ran)
      && (w'.clients[c].phase == Executing ==> w'.clients[c].ran)
  {
  }

  /** What a waiting request is told: the stored response, that its key is another's, or after a while that it is in progress. */
  lemma PollAnswers(w: World, c: ClientId, timedOut: bool)
    requires c in w.clients && w.clients[c].phase.Waiting?
    ensures var w', me := Next(w, Poll(c, timedOut)), w.clients[c]; var r := w.records;
      && w'.records == w.records && OnlyClient(w, w', c) && SameRequest(me, w'.clients[c]) && w'.clients[c].ran == me.ran
      && w'.clients[c].phase ==
           (if !WellFormed(me.id, me.fingerprint) then Done(Raised)
            else if me.id !in r then Done(StillInProgress)
            else if r[me.id].fingerprint != me.fingerprint then Done(KeyReused)
            else if r[me.id].response.Some? then Done(Reply(r[me.id].response.value))
            else if timedOut then Done(StillInProgress) else Waiting)
  {
  }

  /** An executor whose response is stored answers with it; one whose last write and abort fail raises and leaves its reservation. */
  lemma FinishAnswers(w: World, c: ClientId, response: Response)
    requires Inv(w) && c in w.clients && w.clients[c].phase.Executing?
    ensures var w', me := Next(w, Finish(c, response, Stored)), w.clients[c];
      && OnlyClient(w, w', c) && OthersStay(w.records, w'.records, me.id)
      && w'.clients[c] == Client(me.id, me.fingerprint, Done(Reply(response)), me.ran)
      && me.id in w'.records && w'.records[me.id] == Record(me.fingerprint, Some(response))
    ensures var w', me := Next(w, Finish(c, response, LostAndStuck)), w.clients[c];
      w'.records == w.records && OnlyClient(w, w', c) && w'.clients[c] == Client(me.id, me.fingerprint, Done(Raised), me.ran)
    ensures var w', me := Next(w, Throw(c, true)), w.clients[c];
      w'.records == w.records && OnlyClient(w, w', c) && w'.clients[c] == Client(me.id, me.fingerprint, Done(Raised), me.ran)
  {
    assert Backed(w.records, w.clients[c]);
  }

  /** A restart and a vanished process keep every reservation; requests that were not answered are dead, the others stay answered. */
  lemma DeathRecords(w: World, c: ClientId)
    ensures var w' := Next(w, Restart);
      && w'.records == w.records && w'.clients.Keys == w.clients.Keys
      && (forall b :: b in w.clients ==>
            w'.clients[b] == if w.clients[b].phase.Done? then w.clients[b] else w.clients[b].(phase := Dead))
    ensures var w' := Next(w, Vanish(c));
      && w'.records == w.records && OnlyClient(w, w', c)
      && (c in w.clients ==>
            w'.clients[c] == if w.clients[c].phase.Done? then w.clients[c] else w.clients[c].(phase := Dead))
  {
  }

  /** A request does only what its phase allows. */
  lemma OutOfTurn(w: World, c: ClientId, fails: bool, response: Response, fate: Fate)
    ensures !(c in w.clients && w.clients[c].phase.Fresh?) ==> Next(w, BeginStep(c, fails)) == w
    ensures !(c in w.clients && w.clients[c].phase.Waiting?) ==> Next(w, Poll(c, fails)) == w
    ensures !(c in w.clients && w.clients[c].phase.Executing?) ==> Next(w, Finish(c, response, fate)) == w && Next(w, Throw(c, fails)) == w
  {
  }

  // ---------------------------------------------------------------- a key that is freed

  predicate Executes(w: World, c: ClientId, id: Identity) {
    c in w.clients && w.clients[c].phase.Executing? && w.clients[c].id == id
  }

  /** The executor gives its reservation up: it raised, or its last write failed, and the abort went through. */
  predicate GivesUp(s: Step, c: ClientId) {
    s == Throw(c, false) || (s.Finish? && s.c == c && s.fate == LostThenAborted)
  }

  /** A request is about to reserve this key, or to find out who has. */
  predicate Asks(w: World, s: Step, id: Identity) {
    && s.BeginStep? && !s.writeFails && s.c in w.clients && w.clients[s.c].phase.Fresh?
    && w.clients[s.c].id == id && WellFormed(id, w.clients[s.c].fingerprint)
  }

  /** An executor that gives up frees its key, touches no other, and answers with its exception. */
  lemma GivingUpFreesTheKey(steps: seq<Step>, k: nat, c: ClientId, id: Identity)
    requires k < |steps| && GivesUp(steps[k], c) && Executes(After(steps, k), c, id)
    ensures var w, w' := After(steps, k), After(steps, k + 1);
      && id !in w'.records && OthersStay(w.records, w'.records, id)
      && w'.clients[c].phase == Done(Raised)
  {
    AlwaysInv(steps, k);
    var me := After(steps, k).clients[c];
    AbortRecords(After(steps, k).records, me.id, me.fingerprint);
    hide Abort, Complete;
  }

  /** A free key stays free until a request asks for it: a completion never brings it back. */
  lemma NextKeepsFree(w: World, s: Step, id: Identity)
    requires Inv(w) && id !in w.records && !Asks(w, s, id)
    ensures id !in Next(w, s).records
  {
  }

  lemma {:induction false} StaysFree(steps: seq<Step>, i: nat, k: nat, id: Identity)
    requires i <= k <= |steps| && id !in After(steps, i).records
    requires forall j: nat :: i <= j < k ==> !Asks(After(steps, j), steps[j], id)
    ensures id !in After(steps, k).records
    decreases k - i
  {
    hide Next, Inv, Asks;
    if i < k {
      StaysFree(steps, i, k - 1, id);
      AlwaysInv(steps, k - 1);
      NextKeepsFree(After(steps, k - 1), steps[k - 1], id);
    }
  }

  /** The next request under a key that was given up executes. */
  lemma RetryExecutes(steps: seq<Step>, k: nat, m: nat, c: ClientId, b: ClientId, id: Identity)
    requires k < m < |steps| && GivesUp(steps[k], c) && Executes(After(steps, k), c, id)
    requires forall j: nat :: k < j < m ==> !Asks(After(steps, j), steps[j], id)
    requires steps[m] == BeginStep(b, false) && Asks(After(steps, m), steps[m], id)
    ensures var w := After(steps, m + 1);
      && Executes(w, b, id) && w.clients[b].ran
      && id in w.records && w.records[id] == Record(w.clients[b].fingerprint, None)
      && OthersStay(After(steps, m).records, w.records, id)
  {
    hide Inv;
    GivingUpFreesTheKey(steps, k, c, id);
    StaysFree(steps, k + 1, m, id);
    FreeKeyIsTaken(After(steps, m), b, id);
  }

  lemma FreeKeyIsTaken(w: World, b: ClientId, id: Identity)
    requires id !in w.records && Asks(w, BeginStep(b, false), id)
    ensures var w' := Next(w, BeginStep(b, false));
      && Executes(w', b, id) && w'.clients[b].ran && w'.clients[b].fingerprint == w.clients[b].fingerprint
      && id in w'.records && w'.records[id] == Record(w'.clients[b].fingerprint, None) && OthersStay(w.records, w'.records, id)
  {
  }

  /** The first request under a key executes, whatever happened to other keys. */
  lemma FirstExecutes(steps: seq<Step>, m: nat, b: ClientId, id: Identity)
    requires m < |steps| && steps[m] == BeginStep(b, false) && Asks(After(steps, m), steps[m], id)
    requires forall j: nat :: j < m ==> !Asks(After(steps, j), steps[j], id)
    ensures Executes(After(steps, m + 1), b, id)
  {
    NothingReserved(steps, id);
    StaysFree(steps, 0, m, id);
    FreeKeyIsTaken(After(steps, m), b, id);
    hide Next;
  }

  lemma NothingReserved(steps: seq<Step>, id: Identity)
    ensures id !in After(steps, 0).records
  {
  }

  // ---------------------------------------------------------------- a key that is lost

  /** The executor is gone without an abort: a dead process, a restart, or an abort that failed as well. */
  predicate Loses(s: Step, c: ClientId) {
    s == Restart || s == Vanish(c) || s == Throw(c, true) || (s.Finish? && s.c == c && s.fate == LostAndStuck)
  }

  /** Exactly the steps that orphan a reservation: those that take away its executor without freeing its key. */
  lemma OrphanedExactly(steps: seq<Step>, k: nat, id: Identity)
    requires k < |steps| && !Orphan(After(steps, k), id)
    ensures Orphan(After(steps, k + 1), id) <==> exists c :: Executes(After(steps, k), c, id) && Loses(steps[k], c)
  {
    AlwaysInv(steps, k);
    NextOrphans(After(steps, k), steps[k], id);
    hide Inv, Orphan, Next, Executes, Loses;
  }

  lemma NextOrphans(w: World, s: Step, id: Identity)
    requires Inv(w) && !Orphan(w, id)
    ensures Orphan(Next(w, s), id) <==> exists c :: Executes(w, c, id) && Loses(s, c)
  {
    forall c | Executes(w, c, id) ensures Loses(s, c) ==> Orphan(Next(w, s), id) {
      if Loses(s, c) { LossOrphans(w, s, id, c); }
    }
    if Orphan(Next(w, s), id) { OrphansHadExecutors(w, s, id); }
    hide Inv, Orphan, Next, Loses, Executes;
  }

  lemma LossOrphans(w: World, s: Step, id: Identity, c: ClientId)
    requires Inv(w) && Executes(w, c, id) && Loses(s, c)
    ensures Orphan(Next(w, s), id)
  {
    assert forall b :: b in w.clients && Executes(w, b, id) && b != c ==> Both(w, b, c);
  }

  lemma OrphansHadExecutors(w: World, s: Step, id: Identity)
    requires Inv(w) && !Orphan(w, id) && Orphan(Next(w, s), id)
    ensures exists c :: Executes(w, c, id) && Loses(s, c)
  {
    if id in w.records && w.records[id].response.None? {
      var c :| c in w.clients && w.clients[c].phase.Executing? && w.clients[c].id == id;
      OnlyLossesOrphan(w, s, id, c);
    } else {
      AnsweredOrFreeIsNoOrphan(w, s, id);
    }
    hide Inv, Orphan, Next, Loses;
  }

  lemma OnlyLossesOrphan(w: World, s: Step, id: Identity, c: ClientId)
    requires Inv(w) && Executes(w, c, id) && Orphan(Next(w, s), id)
    ensures Loses(s, c)
  {
    assert Backed(w.records, w.clients[c]);
    assert c in Next(w, s).clients;
    if s.Finish? && s.c == c && s.fate == Stored {
      CompleteRecords(w.records, id, w.clients[c].fingerprint, s.response);
    }
  }

  lemma AnsweredOrFreeIsNoOrphan(w: World, s: Step, id: Identity)
    requires Inv(w) && !(id in w.records && w.records[id].response.None?)
    ensures !Orphan(Next(w, s), id)
  {
    if s.BeginStep? && s.c in w.clients && w.clients[s.c].phase.Fresh? && w.clients[s.c].id == id && id !in w.records {
      var w' := Next(w, s);
      assert s.c in w'.clients;
    }
  }
}
