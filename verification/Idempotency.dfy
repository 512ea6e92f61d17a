/**
  Idempotent requests: a reservation per (operation, key), and the handler protocol that many
  clients run against it at once, with failures and restarts anywhere.
*/
module Idempotency {
  import opened Wrappers

  datatype Identity = Identity(operation: string, key: string)
  datatype Response = Response(status: int, body: string)
  datatype Record = Record(fingerprint: string, response: Option<Response>)
  type Records = map<Identity, Record>

  datatype Decision =
    | NEW
    | IN_PROGRESS
    | REPLAY(response: Response)
    | CONFLICT(existing: string)
    | MISS
    | INVALID

  datatype Error = InvalidIdentity | Reused(existing: string)

  predicate WellFormed(id: Identity, fingerprint: string) {
    id.operation != "" && id.key != "" && fingerprint != ""
  }

  // ---------------------------------------------------------------- the store's four calls

  function Decide(record: Record, fingerprint: string): Decision {
    if record.fingerprint != fingerprint then CONFLICT(record.fingerprint)
    else if record.response.None? then IN_PROGRESS
    else REPLAY(record.response.value)
  }

  function Begin(r: Records, id: Identity, fingerprint: string): (Records, Decision) {
    if !WellFormed(id, fingerprint) then (r, INVALID)
    else if id !in r then (r[id := Record(fingerprint, None)], NEW)
    else (r, Decide(r[id], fingerprint))
  }

  function Get(r: Records, id: Identity, fingerprint: string): Decision {
    if !WellFormed(id, fingerprint) then INVALID else if id !in r then MISS else Decide(r[id], fingerprint)
  }

  function Complete(r: Records, id: Identity, fingerprint: string, response: Response): (Records, Result<Response, Error>) {
    if !WellFormed(id, fingerprint) then (r, Err(InvalidIdentity))
    else
      var record := if id in r then r[id] else Record(fingerprint, None);
      if record.fingerprint != fingerprint then (r, Err(Reused(record.fingerprint)))
      else
        var stored := if record.response.Some? then record.response.value else response;
        (r[id := Record(fingerprint, Some(stored))], Ok(stored))
  }

  function Abort(r: Records, id: Identity, fingerprint: string): (Records, Result<bool, Error>) {
    if !WellFormed(id, fingerprint) then (r, Err(InvalidIdentity))
    else if id !in r then (r, Ok(false))
    else if r[id].fingerprint != fingerprint then (r, Err(Reused(r[id].fingerprint)))
    else if r[id].response.Some? then (r, Ok(false))
    else (r - {id}, Ok(true))
  }

  class IdempotencyTable {
    var records: Records

    constructor ()
      ensures records == map[]
    {
      records := map[];
    }

    method BeginRequest(id: Identity, fingerprint: string) returns (decision: Decision)
      modifies this
      ensures (records, decision) == Begin(old(records), id, fingerprint)
    {
      if id.operation == "" || id.key == "" || fingerprint == "" { return INVALID; }
      if id !in records {
        records := records[id := Record(fingerprint, None)];
        return NEW;
      }
      decision := Decide(records[id], fingerprint);
    }

    method CompleteRequest(id: Identity, fingerprint: string, response: Response) returns (r: Result<Response, Error>)
      modifies this
      ensures (records, r) == Complete(old(records), id, fingerprint, response)
    {
      if id.operation == "" || id.key == "" || fingerprint == "" { return Err(InvalidIdentity); }
      if id in records && records[id].fingerprint != fingerprint {
        return Err(Reused(records[id].fingerprint));
      }
      if id !in records || records[id].response.None? {
        records := records[id := Record(fingerprint, Some(response))];
      }
      assert records == old(records)[id := records[id]];
      r := Ok(records[id].response.value);
    }

    method AbortRequest(id: Identity, fingerprint: string) returns (r: Result<bool, Error>)
      modifies this
      ensures (records, r) == Abort(old(records), id, fingerprint)
    {
      if id.operation == "" || id.key == "" || fingerprint == "" { return Err(InvalidIdentity); }
      if id !in records { return Ok(false); }
      if records[id].fingerprint != fingerprint { return Err(Reused(records[id].fingerprint)); }
      if records[id].response.Some? { return Ok(false); }
      records := records - {id};
      r := Ok(true);
    }
  }

  // ---------------------------------------------------------------- the handler protocol

  datatype Answer = Reply(response: Response) | KeyReused | StillInProgress | Raised

  datatype Phase = Fresh | Waiting | Executing | Done(answer: Answer) | Dead

  /** One request: what it asks for, where it is, and whether it ran the operation itself. */
  datatype Client = Client(id: Identity, fingerprint: string, phase: Phase, ran: bool)

  type ClientId = nat

  datatype World = World(records: Records, clients: map<ClientId, Client>)

  /** What becomes of the write that should store an executor's response. */
  datatype Fate = Stored | LostThenAborted | LostAndStuck

  datatype Step =
    | Arrive(c: ClientId, id: Identity, fingerprint: string)
    | BeginStep(c: ClientId, writeFails: bool)
    | Poll(c: ClientId, timedOut: bool)
    | Finish(c: ClientId, response: Response, fate: Fate)
    | Throw(c: ClientId, abortFails: bool)
    | Vanish(c: ClientId)
    | Restart

  function Settled(w: World, c: ClientId, answer: Answer): World
    requires c in w.clients
  {
    w.(clients := w.clients[c := w.clients[c].(phase := Done(answer))])
  }

  function Move(w: World, c: ClientId, phase: Phase): World
    requires c in w.clients
  {
    w.(clients := w.clients[c := w.clients[c].(phase := phase)])
  }

  function Reserve(w: World, c: ClientId, writeFails: bool): World
    requires c in w.clients
  {
    var me := w.clients[c];
    var (records, decision) := Begin(w.records, me.id, me.fingerprint);
    if writeFails then Settled(w, c, Raised)
    else
      match decision
      case NEW => World(records, w.clients[c := me.(phase := Executing, ran := true)])
      case CONFLICT(_) => Settled(w, c, KeyReused)
      case REPLAY(response) => Settled(w, c, Reply(response))
      case IN_PROGRESS => Move(w, c, Waiting)
      case _ => Settled(w, c, Raised)
  }

  function Await(w: World, c: ClientId, timedOut: bool): World
    requires c in w.clients
  {
    match Get(w.records, w.clients[c].id, w.clients[c].fingerprint)
    case REPLAY(response) => Settled(w, c, Reply(response))
    case CONFLICT(_) => Settled(w, c, KeyReused)
    case IN_PROGRESS => if timedOut then Settled(w, c, StillInProgress) else w
    case MISS => Settled(w, c, StillInProgress)
    case _ => Settled(w, c, Raised)
  }

  function Release(w: World, c: ClientId): World
    requires c in w.clients
  {
    Settled(w.(records := Abort(w.records, w.clients[c].id, w.clients[c].fingerprint).0), c, Raised)
  }

  function Conclude(w: World, c: ClientId, response: Response, fate: Fate): World
    requires c in w.clients
  {
    var (records, stored) := Complete(w.records, w.clients[c].id, w.clients[c].fingerprint, response);
    match fate
    case LostThenAborted => Release(w, c)
    case LostAndStuck => Settled(w, c, Raised)
    case Stored =>
      if stored.Ok? then Settled(w.(records := records), c, Reply(stored.value)) else Release(w, c)
  }

  /** A restart keeps the reservations, which were durable when their calls returned, and kills every open request. */
  function Reborn(w: World): World {
    w.(clients := map c | c in w.clients ::
         if w.clients[c].phase.Done? then w.clients[c] else w.clients[c].(phase := Dead))
  }

  function Next(w: World, s: Step): World {
    match s
    case Restart => Reborn(w)
    case Arrive(c, id, fingerprint) =>
      if c in w.clients then w else w.(clients := w.clients[c := Client(id, fingerprint, Fresh, false)])
    case BeginStep(c, writeFails) =>
      if c in w.clients && w.clients[c].phase.Fresh? then Reserve(w, c, writeFails) else w
    case Poll(c, timedOut) =>
      if c in w.clients && w.clients[c].phase.Waiting? then Await(w, c, timedOut) else w
    case Finish(c, response, fate) =>
      if c in w.clients && w.clients[c].phase.Executing? then Conclude(w, c, response, fate) else w
    case Throw(c, abortFails) =>
      if c in w.clients && w.clients[c].phase.Executing? then (if abortFails then Settled(w, c, Raised) else Release(w, c)) else w
    case Vanish(c) =>
      if c in w.clients && !w.clients[c].phase.Done? then Move(w, c, Dead) else w
  }

  ghost function After(steps: seq<Step>, k: nat): World
    requires k <= |steps|
  {
    if k == 0 then World(map[], map[]) else Next(After(steps, k - 1), steps[k - 1])
  }

  // ---------------------------------------------------------------- safety

  predicate Replied(c: Client) {
    c.phase.Done? && c.phase.answer.Reply?
  }

  /** The request that ran the operation: still running it, or answered with its own response. */
  predicate Ran(c: Client) {
    c.phase.Executing? || (Replied(c) && c.ran)
  }

  /** An executor owns its reservation, and a reply is what the reservation stores. */
  predicate Backed(records: Records, c: Client) {
    && (c.phase.Executing? ==> WellFormed(c.id, c.fingerprint) && c.ran && c.id in records && records[c.id] == Record(c.fingerprint, None))
    && (Replied(c) ==> c.id in records && records[c.id] == Record(c.fingerprint, Some(c.phase.answer.response)))
    && (c.phase.Fresh? || c.phase.Waiting? ==> !c.ran)
  }

  ghost predicate Inv(w: World) {
    && (forall c :: c in w.clients ==> Backed(w.records, w.clients[c]))
    && (forall a, b :: Both(w, a, b) ==> a == b)
  }

  predicate Both(w: World, a: ClientId, b: ClientId) {
    a in w.clients && b in w.clients && Ran(w.clients[a]) && Ran(w.clients[b]) && w.clients[a].id == w.clients[b].id
  }

  /** A step of one request that leaves its reservation alone, or changes one that only it relies on. */
  lemma OneMoves(w: World, c: ClientId, me: Client, records: Records)
    requires Inv(w) && c in w.clients && me.id == w.clients[c].id && Backed(records, me)
    requires records == w.records || forall d :: d in w.clients && d != c ==> Backed(records, w.clients[d])
    requires Ran(me) ==> Ran(w.clients[c]) || me.id !in w.records
    ensures Inv(World(records, w.clients[c := me]))
  {
    var w' := World(records, w.clients[c := me]);
    forall a, b | Both(w', a, b) ensures a == b {
      if a != b {
        assert a != c ==> Backed(w.records, w.clients[a]);
        assert b != c ==> Backed(w.records, w.clients[b]);
        assert Both(w, a, b);
      }
    }
  }

  lemma OthersStayBacked(w: World, c: ClientId, records: Records)
    requires Inv(w) && c in w.clients
    requires w.clients[c].id !in w.records || w.clients[c].phase.Executing?
    requires forall id :: id != w.clients[c].id ==> (id in records <==> id in w.records) && (id in records ==> records[id] == w.records[id])
    ensures forall d :: d in w.clients && d != c ==> Backed(records, w.clients[d])
  {
    forall d | d in w.clients && d != c ensures Backed(records, w.clients[d]) {
      assert Backed(w.records, w.clients[d]) && Backed(w.records, w.clients[c]);
      assert !Both(w, c, d);
    }
  }

  lemma ReserveKeepsInv(w: World, c: ClientId, writeFails: bool)
    requires Inv(w) && c in w.clients && w.clients[c].phase.Fresh?
    ensures Inv(Reserve(w, c, writeFails))
  {
    var me := w.clients[c];
    var (records, decision) := Begin(w.records, me.id, me.fingerprint);
    var me' := Reserve(w, c, writeFails).clients[c];
    if !writeFails && decision.NEW? {
      OthersStayBacked(w, c, records);
      OneMoves(w, c, me', records);
    } else {
      OneMoves(w, c, me', w.records);
    }
  }

  lemma AwaitKeepsInv(w: World, c: ClientId, timedOut: bool)
    requires Inv(w) && c in w.clients && w.clients[c].phase.Waiting?
    ensures Inv(Await(w, c, timedOut))
  {
    OneMoves(w, c, Await(w, c, timedOut).clients[c], w.records);
    assert w.clients[c := w.clients[c]] == w.clients;
  }

  lemma ReleaseKeepsInv(w: World, c: ClientId)
    requires Inv(w) && c in w.clients && w.clients[c].phase.Executing?
    ensures Inv(Release(w, c))
  {
    var w' := Release(w, c);
    assert Backed(w.records, w.clients[c]);
    OthersStayBacked(w, c, w'.records);
    OneMoves(w, c, w'.clients[c], w'.records);
  }

  lemma ConcludeKeepsInv(w: World, c: ClientId, response: Response, fate: Fate)
    requires Inv(w) && c in w.clients && w.clients[c].phase.Executing?
    ensures Inv(Conclude(w, c, response, fate))
  {
    assert Backed(w.records, w.clients[c]);
    match fate {
      case LostThenAborted => ReleaseKeepsInv(w, c);
      case LostAndStuck => OneMoves(w, c, w.clients[c].(phase := Done(Raised)), w.records);
      case Stored =>
        var w' := Conclude(w, c, response, fate);
        OthersStayBacked(w, c, w'.records);
        OneMoves(w, c, w'.clients[c], w'.records);
    }
  }

  lemma RestartKeepsInv(w: World)
    requires Inv(w)
    ensures Inv(Reborn(w))
  {
    var w' := Reborn(w);
    forall c | c in w'.clients ensures Backed(w'.records, w'.clients[c]) {
      assert Backed(w.records, w.clients[c]);
    }
    forall a, b | Both(w', a, b) ensures a == b {
      assert Both(w, a, b);
    }
  }

  lemma NextKeepsInv(w: World, s: Step)
    requires Inv(w)
    ensures Inv(Next(w, s))
  {
    match s {
      case Restart => RestartKeepsInv(w);
      case Arrive(c, id, fingerprint) =>
        if c !in w.clients {
          forall a, b | Both(Next(w, s), a, b) ensures a == b { assert Both(w, a, b); }
        }
      case BeginStep(c, writeFails) =>
        if c in w.clients && w.clients[c].phase.Fresh? { ReserveKeepsInv(w, c, writeFails); }
      case Poll(c, timedOut) =>
        if c in w.clients && w.clients[c].phase.Waiting? { AwaitKeepsInv(w, c, timedOut); }
      case Finish(c, response, fate) =>
        if c in w.clients && w.clients[c].phase.Executing? { ConcludeKeepsInv(w, c, response, fate); }
      case Throw(c, abortFails) =>
        if c in w.clients && w.clients[c].phase.Executing? {
          if abortFails { OneMoves(w, c, w.clients[c].(phase := Done(Raised)), w.records); } else { ReleaseKeepsInv(w, c); }
        }
      case Vanish(c) =>
        if c in w.clients && !w.clients[c].phase.Done? { OneMoves(w, c, w.clients[c].(phase := Dead), w.records); }
    }
  }

  lemma {:induction false} AlwaysInv(steps: seq<Step>, k: nat)
    requires k <= |steps|
    ensures Inv(After(steps, k))
  {
    if k > 0 {
      AlwaysInv(steps, k - 1);
      NextKeepsInv(After(steps, k - 1), steps[k - 1]);
    }
  }

  /** At most one request is executing an operation under a key, whatever is interleaved. */
  lemma OneExecutorPerKey(steps: seq<Step>, a: ClientId, b: ClientId)
    requires var w := After(steps, |steps|);
      && a in w.clients && b in w.clients && w.clients[a].phase.Executing? && w.clients[b].phase.Executing?
      && w.clients[a].id == w.clients[b].id
    ensures a == b
  {
    AlwaysInv(steps, |steps|);
    assert Both(After(steps, |steps|), a, b);
  }

  lemma NextKeepsStored(w: World, s: Step, id: Identity)
    requires Inv(w) && id in w.records && w.records[id].response.Some?
    ensures id in Next(w, s).records && Next(w, s).records[id] == w.records[id]
  {
  }

  /** A stored response never changes and never goes away, restarts included. */
  lemma {:induction false} StoredResponseStays(steps: seq<Step>, i: nat, k: nat, id: Identity)
    requires i <= k <= |steps| && id in After(steps, i).records && After(steps, i).records[id].response.Some?
    ensures id in After(steps, k).records && After(steps, k).records[id] == After(steps, i).records[id]
    decreases k - i
  {
    if i < k {
      StoredResponseStays(steps, i, k - 1, id);
      AlwaysInv(steps, k - 1);
      NextKeepsStored(After(steps, k - 1), steps[k - 1], id);
    }
  }

  /**
    Once a response is stored, a request that begins later under the same key is answered from the
    store without running: with that response if it is the same request, refused if it is another.
  */
  lemma LaterRequestsReplay(steps: seq<Step>, i: nat, k: nat, c: ClientId)
    requires i <= k < |steps| && steps[k] == BeginStep(c, false)
    requires c in After(steps, k).clients && After(steps, k).clients[c].phase.Fresh?
    requires var me := After(steps, k).clients[c];
      && WellFormed(me.id, me.fingerprint)
      && me.id in After(steps, i).records && After(steps, i).records[me.id].response.Some?
    ensures var me, later := After(steps, k).clients[c], After(steps, k + 1).clients[c];
      && !later.ran && After(steps, k + 1).records == After(steps, k).records
      && later.phase == Done(
           if me.fingerprint == After(steps, i).records[me.id].fingerprint
           then Reply(After(steps, i).records[me.id].response.value) else KeyReused)
  {
    var me := After(steps, k).clients[c];
    StoredResponseStays(steps, i, k, me.id);
    AlwaysInv(steps, k);
  }

  /** While a request is executing, another one under its key is refused if it is not the same request, and waits if it is. */
  lemma OthersDoNotRun(steps: seq<Step>, k: nat, a: ClientId, b: ClientId)
    requires k < |steps| && steps[k] == BeginStep(b, false)
    requires var w := After(steps, k);
      && a in w.clients && b in w.clients && w.clients[a].phase.Executing? && w.clients[b].phase.Fresh?
      && w.clients[a].id == w.clients[b].id && WellFormed(w.clients[b].id, w.clients[b].fingerprint)
    ensures var w, later := After(steps, k), After(steps, k + 1);
      && later.records == w.records && !later.clients[b].ran
      && later.clients[b].phase == if w.clients[b].fingerprint == w.clients[a].fingerprint then Waiting else Done(KeyReused)
  {
    AlwaysInv(steps, k);
  }

  /** All requests under one key that were ever answered with a response got the same one, for the same fingerprint. */
  lemma RepliesAgree(steps: seq<Step>, a: ClientId, b: ClientId)
    requires var w := After(steps, |steps|);
      && a in w.clients && b in w.clients && Replied(w.clients[a]) && Replied(w.clients[b])
      && w.clients[a].id == w.clients[b].id
    ensures var w := After(steps, |steps|);
      && w.clients[a].phase == w.clients[b].phase && w.clients[a].fingerprint == w.clients[b].fingerprint
      && (w.clients[a].ran && w.clients[b].ran ==> a == b)
  {
    AlwaysInv(steps, |steps|);
    assert !(a != b && Both(After(steps, |steps|), a, b));
  }

  /** An executor's completion is never refused: nobody else can hold or replace its reservation. */
  lemma CompletionIsNeverRefused(steps: seq<Step>, c: ClientId, response: Response)
    requires c in After(steps, |steps|).clients && After(steps, |steps|).clients[c].phase.Executing?
    ensures var w := After(steps, |steps|);
      Complete(w.records, w.clients[c].id, w.clients[c].fingerprint, response).1 == Ok(response)
  {
    AlwaysInv(steps, |steps|);
  }

  // ---------------------------------------------------------------- reservations that outlive their executor

  /** A reservation without a response whose executor is gone: the process died, or the last write was lost. */
  ghost predicate Orphan(w: World, id: Identity) {
    && id in w.records && w.records[id].response.None?
    && forall c :: c in w.clients && w.clients[c].phase.Executing? ==> w.clients[c].id != id
  }

  lemma NextKeepsOrphan(w: World, s: Step, id: Identity)
    requires Inv(w) && Orphan(w, id)
    ensures Orphan(Next(w, s), id) && Next(w, s).records[id] == w.records[id]
  {
  }

  /** Such a key stays reserved for good: no later request under it ever runs the operation again. */
  lemma {:induction false} OrphanNeverRunsAgain(steps: seq<Step>, i: nat, k: nat, id: Identity)
    requires i <= k <= |steps| && Orphan(After(steps, i), id)
    ensures Orphan(After(steps, k), id) && After(steps, k).records[id] == After(steps, i).records[id]
    decreases k - i
  {
    if i < k {
      OrphanNeverRunsAgain(steps, i, k - 1, id);
      AlwaysInv(steps, k - 1);
      NextKeepsOrphan(After(steps, k - 1), steps[k - 1], id);
    }
  }

  /** A restart orphans exactly the reservations that had no response yet. */
  lemma RestartOrphans(steps: seq<Step>, id: Identity)
    ensures var w := After(steps, |steps|);
      Orphan(Next(w, Restart), id) <==> id in w.records && w.records[id].response.None?
  {
  }
}
