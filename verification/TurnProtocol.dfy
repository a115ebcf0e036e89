/** Any number of calls of `run_turn` on one session, interleaved at every await. */
module TurnProtocol {
  import opened Wrappers
  import opened ResearchNodes
  import opened Routing
  import opened ConversationMerge
  import opened TurnEngine
  import opened SessionStores

  const ACQUIRE_TRIES: nat := 200

  const CLARIFY_MESSAGE: string :=
    "Could you clarify whether you want a shorter summary, new sources, or a deeper refinement on the same topic?"

  /** A turn request; `bodyHash` is the fingerprint of its body. */
  datatype Request = Request(
    owner: string, message: string, bodyHash: string, trace: string, key: Option<string>)

  datatype TurnError =
    | StorageDegraded
    | AccessDenied
    | LockTimeout
    | IdempotencyConflict
    | IntegrityError
    | EngineFailure
    | StoreFailure

  /** `processed` tells a turn that was processed from a replayed one. */
  datatype Outcome = Returned(ti: nat, text: string, processed: bool) | Raised(error: TurnError)

  /** The await a call is at, with the local variables still needed. */
  datatype Pc =
    | Ping
    | Authorize
    | Acquire(tries: nat)
    | FindKey
    | GetReply(ti: nat)
    | LoadSnapshot
    | GetDoc(snap: Option<StateBlob>)
    | ReloadDoc(snap: Option<StateBlob>)
    | NextIndex(snap: Option<StateBlob>)
    | AppendUser(snap: Option<StateBlob>, ti: nat)
    | Classify(snap: Option<StateBlob>, ti: nat)
    | AppendClarify(snap: Option<StateBlob>, ti: nat)
    | CacheClarify(snap: Option<StateBlob>, ti: nat)
    | RunEngine(snap: Option<StateBlob>, ti: nat, c: Classification)
    | AppendAssistant(ti: nat, intent: Intent, draft: Draft)
    | SaveSnapshot(ti: nat, draft: Draft)
    | CacheDoc(ti: nat, draft: Draft)
    | ReleaseGet(outcome: Outcome)
    | ReleaseDelete(outcome: Outcome)
    | Done(outcome: Outcome)
    | Crashed

  datatype Worker = Worker(req: Request, token: Option<Token>, pc: Pc)

  datatype Store = Store(
    turns: seq<TurnRow>, snapshots: seq<SnapshotRow>, lock: Option<Token>, doc: Option<Doc>, minted: nat)

  datatype Effect =
    | Nothing
    | TakeLock
    | DropLock
    | AddTurn(row: TurnRow)
    | AddSnapshot(snapshot: SnapshotRow)
    | WriteDoc(doc: Doc)

  function Perform(s: Store, e: Effect): Store {
    match e
    case Nothing => s
    case TakeLock => s.(lock := Some(s.minted), minted := s.minted + 1)
    case DropLock => s.(lock := None)
    case AddTurn(row) => s.(turns := s.turns + [row])
    case AddSnapshot(row) => s.(snapshots := s.snapshots + [row])
    case WriteDoc(doc) => s.(doc := Some(doc))
  }

  /** What the intent classifier and the engine answer. */
  datatype TurnEnv = TurnEnv(c: Classification, engine: seq<Env>)

  /** An await may raise, before or after its effect was applied. */
  datatype Fault = NoFault | FailsBefore | FailsAfter

  datatype Move = Move(effect: Effect, worker: Worker)

  function UserRow(ti: nat, req: Request, id: WorkerId): TurnRow {
    TurnRow(ti, User, req.message, Some(req.bodyHash), None, req.trace, req.key, id)
  }

  function AssistantRow(ti: nat, text: string, intent: Intent, req: Request, id: WorkerId): TurnRow {
    TurnRow(ti + 1, Assistant, text, None, Some(intent), req.trace, None, id)
  }

  /** `if idempotency_key`: neither missing nor empty. */
  predicate HasKey(req: Request) { req.key.Some? && req.key.value != "" }

  /** An exception at the current await: with a token, `finally` releases the lock. */
  function Abort(w: Worker, error: TurnError): Worker {
    if w.token.Some? && !w.pc.ReleaseGet? && !w.pc.ReleaseDelete? then w.(pc := ReleaseGet(Raised(error)))
    else w.(pc := Done(Raised(error)))
  }

  function Goto(w: Worker, pc: Pc): Move { Move(Nothing, w.(pc := pc)) }

  /** Before the lock is held. */
  function Enter(owner: string, s: Store, w: Worker): Move {
    match w.pc
    case Ping => Goto(w, Authorize)
    case Authorize => if w.req.owner == owner then Goto(w, Acquire(0)) else Goto(w, Done(Raised(AccessDenied)))
    case Acquire(tries) =>
      if s.lock == None then
        Move(TakeLock, w.(token := Some(s.minted), pc := if HasKey(w.req) then FindKey else LoadSnapshot))
      else if tries + 1 < ACQUIRE_TRIES then Goto(w, Acquire(tries + 1))
      else Goto(w, Done(Raised(LockTimeout)))
    case _ => Goto(w, w.pc)
  }

  /** Reads under the lock, and the reload of the working document. */
  function Prepare(s: Store, w: Worker): Move {
    match w.pc
    case FindKey =>
      (match FindByKey(s.turns, w.req.key.GetOr(""))
       case None => Goto(w, LoadSnapshot)
       case Some(row) =>
         if row.bodyHash != Some(w.req.bodyHash) then Move(Nothing, Abort(w, IdempotencyConflict))
         else Goto(w, GetReply(row.index)))
    case GetReply(ti) =>
      (match GetTurn(s.turns, ti + 1)
       case None => Goto(w, LoadSnapshot)
       case Some(row) =>
         if row.role == Assistant then Goto(w, ReleaseGet(Returned(ti, row.text, false)))
         else Goto(w, LoadSnapshot))
    case LoadSnapshot => Goto(w, GetDoc(LatestBlob(s.snapshots)))
    case GetDoc(snap) => Goto(w, if s.doc == None && snap.Some? then ReloadDoc(snap) else NextIndex(snap))
    case ReloadDoc(snap) => Move(WriteDoc(Doc(snap, None, |s.snapshots|)), w.(pc := NextIndex(snap)))
    case NextIndex(snap) => Goto(w, AppendUser(snap, NextTurnIndex(s.turns)))
    case _ => Goto(w, w.pc)
  }

  function Insert(s: Store, w: Worker, row: TurnRow, next: Pc): Move {
    if Violates(s.turns, row) then Move(Nothing, Abort(w, IntegrityError))
    else Move(AddTurn(row), w.(pc := next))
  }

  /** The user row, the classification, and the turn that only asks for clarification. */
  function Open(cfg: Settings, s: Store, id: WorkerId, w: Worker, env: TurnEnv): Move {
    match w.pc
    case AppendUser(snap, ti) => Insert(s, w, UserRow(ti, w.req, id), Classify(snap, ti))
    case Classify(snap, ti) =>
      Goto(w, if Plan(cfg, snap, env.c).mode == ClarifyOnly then AppendClarify(snap, ti)
        else RunEngine(snap, ti, env.c))
    case AppendClarify(snap, ti) =>
      Insert(s, w, AssistantRow(ti, CLARIFY_MESSAGE, NeedsClarification, w.req, id), CacheClarify(snap, ti))
    case CacheClarify(snap, ti) =>
      Move(WriteDoc(Doc(snap, Some(ti + 1), |s.snapshots|)), w.(pc := ReleaseGet(Returned(ti, CLARIFY_MESSAGE, true))))
    case _ => Goto(w, w.pc)
  }

  /** The engine run and its answer. */
  function Respond(cfg: Settings, s: Store, id: WorkerId, w: Worker, env: TurnEnv): Move {
    match w.pc
    case RunEngine(snap, ti, c) =>
      (match EngineTurn(cfg, snap, w.req.message, c, env.engine)
       case None => Move(Nothing, Abort(w, EngineFailure))
       case Some(draft) => Goto(w, AppendAssistant(ti, c.intent, draft)))
    case AppendAssistant(ti, intent, draft) =>
      Insert(s, w, AssistantRow(ti, draft.text, intent, w.req, id), SaveSnapshot(ti, draft))
    case _ => Goto(w, w.pc)
  }

  /** The snapshot and its cached copy. */
  function Persist(s: Store, id: WorkerId, w: Worker): Move {
    match w.pc
    case SaveSnapshot(ti, draft) =>
      Move(AddSnapshot(SnapshotRow(ti + 1, draft.blob, draft.record, id)), w.(pc := CacheDoc(ti, draft)))
    case CacheDoc(ti, draft) =>
      Move(WriteDoc(Doc(Some(draft.blob), Some(ti + 1), |s.snapshots|)),
        w.(pc := ReleaseGet(Returned(ti, draft.text, true))))
    case _ => Goto(w, w.pc)
  }

  /** The two-step release. */
  function Release(s: Store, w: Worker): Move {
    match w.pc
    case ReleaseGet(outcome) => Goto(w, if s.lock == w.token then ReleaseDelete(outcome) else Done(outcome))
    case ReleaseDelete(outcome) => Move(DropLock, w.(pc := Done(outcome)))
    case _ => Goto(w, w.pc)
  }

  predicate Entering(pc: Pc) { pc.Ping? || pc.Authorize? || pc.Acquire? }

  predicate Preparing(pc: Pc) {
    pc.FindKey? || pc.GetReply? || pc.LoadSnapshot? || pc.GetDoc? || pc.ReloadDoc? || pc.NextIndex?
  }

  predicate Releasing(pc: Pc) { pc.ReleaseGet? || pc.ReleaseDelete? }

  predicate Stopped(pc: Pc) { pc.Done? || pc.Crashed? }

  /** The await of a call when nothing raises. */
  function Attempt(cfg: Settings, owner: string, s: Store, id: WorkerId, w: Worker, env: TurnEnv): Move {
    if Stopped(w.pc) then Goto(w, w.pc)
    else if Entering(w.pc) then Enter(owner, s, w)
    else if Preparing(w.pc) then Prepare(s, w)
    else if Releasing(w.pc) then Release(s, w)
    else if w.pc.RunEngine? || w.pc.AppendAssistant? then Respond(cfg, s, id, w, env)
    else if w.pc.SaveSnapshot? || w.pc.CacheDoc? then Persist(s, id, w)
    else Open(cfg, s, id, w, env)
  }

  function MoveOf(cfg: Settings, owner: string, s: Store, id: WorkerId, w: Worker, env: TurnEnv, fault: Fault): Move {
    var m := Attempt(cfg, owner, s, id, w, env);
    if fault == NoFault || Stopped(w.pc) then m
    else Move(if fault == FailsAfter then m.effect else Nothing,
              Abort(w, if w.pc.Ping? then StorageDegraded else StoreFailure))
  }

  datatype System = System(cfg: Settings, owner: string, store: Store, workers: map<WorkerId, Worker>)

  datatype Event =
    | Begin(id: WorkerId, req: Request)
    | Advance(id: WorkerId, env: TurnEnv, fault: Fault)
    | Crash(id: WorkerId)
    | ExpireLock
    | ExpireDoc

  function Step(y: System, e: Event): System {
    match e
    case Begin(id, req) =>
      if id in y.workers then y else y.(workers := y.workers[id := Worker(req, None, Ping)])
    case Advance(id, env, fault) =>
      if id !in y.workers then y
      else
        var m := MoveOf(y.cfg, y.owner, y.store, id, y.workers[id], env, fault);
        y.(store := Perform(y.store, m.effect), workers := y.workers[id := m.worker])
    case Crash(id) =>
      if id !in y.workers || y.workers[id].pc.Done? then y
      else y.(workers := y.workers[id := y.workers[id].(pc := Crashed)])
    case ExpireLock => y.(store := y.store.(lock := None))
    case ExpireDoc => y.(store := y.store.(doc := None))
  }

  function Exec(y: System, events: seq<Event>): System
    decreases |events|
  {
    if events == [] then y else Exec(Step(y, events[0]), events[1..])
  }

  /** A session as `create_session_row` leaves it. */
  function Created(cfg: Settings, owner: string): System {
    System(cfg, owner, Store([], [], None, Some(Doc(None, Some(-1), 0)), 0), map[])
  }

  lemma {:induction false} ExecConcat(y: System, a: seq<Event>, b: seq<Event>)
    ensures Exec(y, a + b) == Exec(Exec(y, a), b)
    decreases |a|
  {
    if a == [] {
      assert a + b == b;
    } else {
      assert (a + b)[1..] == a[1..] + b;
      ExecConcat(Step(y, a[0]), a[1..], b);
    }
  }
}
