/** `run_turn` as it is written: store calls, a bounded acquire loop, early exits and a release at
    the end. Other calls run at every await; whatever they do, the call is a run of the protocol. */
module Coordinator {
  import opened Wrappers
  import opened Routing
  import opened ConversationMerge
  import opened TurnEngine
  import opened SessionStores
  import opened TurnProtocol
  import opened Schedules

  /** The event is a step of this call. */
  predicate Mine(e: Event, me: WorkerId) {
    match e
    case Begin(id, _) => id == me
    case Advance(id, _, _) => id == me
    case Crash(id) => id == me
    case ExpireLock => false
    case ExpireDoc => false
  }

  /** What a step may be in a run of this call: at its own awaits the classifier and the engine answer as
      `env` says, and in a steady run none of its awaits raises and its worker does not stop. */
  predicate Fits(e: Event, me: WorkerId, env: TurnEnv, steady: bool) {
    (e.Advance? && e.id == me ==> e.env == env) && (steady ==> Harmless(e, me))
  }

  predicate AllFit(events: seq<Event>, me: WorkerId, env: TurnEnv, steady: bool) {
    forall e | e in events :: Fits(e, me, env, steady)
  }

  /** Some such run leads from one state to the other. */
  ghost predicate Ran(y: System, z: System, me: WorkerId, env: TurnEnv, steady: bool) {
    exists events: seq<Event> :: AllFit(events, me, env, steady) && Exec(y, events) == z
  }

  ghost predicate OthersRan(y: System, z: System, me: WorkerId) {
    exists events: seq<Event> :: (forall i | 0 <= i < |events| :: !Mine(events[i], me)) && Exec(y, events) == z
  }

  lemma RanThen(x: System, y: System, z: System, me: WorkerId, env: TurnEnv, steady: bool)
    requires Ran(x, y, me, env, steady) && Ran(y, z, me, env, steady)
    ensures Ran(x, z, me, env, steady)
  {
    var a: seq<Event> :| AllFit(a, me, env, steady) && Exec(x, a) == y;
    var b: seq<Event> :| AllFit(b, me, env, steady) && Exec(y, b) == z;
    ExecConcat(x, a, b);
    assert AllFit(a + b, me, env, steady);
    assert Exec(x, a + b) == z;
  }

  lemma RanNothing(y: System, me: WorkerId, env: TurnEnv, steady: bool)
    ensures Ran(y, y, me, env, steady)
  {
    assert AllFit([], me, env, steady) && Exec(y, []) == y;
  }

  lemma RanStep(x: System, y: System, e: Event, me: WorkerId, env: TurnEnv, steady: bool)
    requires Ran(x, y, me, env, steady) && Fits(e, me, env, steady)
    ensures Ran(x, Step(y, e), me, env, steady)
  {
    ExecOne(y, e);
    assert AllFit([e], me, env, steady);
    assert Exec(y, [e]) == Step(y, e);
    RanThen(x, y, Step(y, e), me, env, steady);
  }

  lemma {:induction false} OthersStepPast(y: System, events: seq<Event>, me: WorkerId)
    requires me in y.workers && forall i | 0 <= i < |events| :: !Mine(events[i], me)
    ensures var z := Exec(y, events);
      z.cfg == y.cfg && z.owner == y.owner && me in z.workers && z.workers[me] == y.workers[me]
    decreases |events|
  {
    if events == [] {
    } else {
      assert !Mine(events[0], me);
      OthersStepPast(Step(y, events[0]), events[1..], me);
    }
  }

  lemma OthersFit(events: seq<Event>, me: WorkerId, env: TurnEnv, steady: bool)
    requires forall i | 0 <= i < |events| :: !Mine(events[i], me)
    ensures AllFit(events, me, env, steady)
  {
    forall e | e in events ensures Fits(e, me, env, steady) {
      var i :| 0 <= i < |events| && events[i] == e;
      assert !Mine(events[i], me);
    }
  }

  /** A call keeps its place at an await whatever steps the other calls take, in any number and order,
      and whichever keys expire: all that `Yield` promises holds of every such run. */
  lemma OthersLeave(start: System, y: System, z: System, me: WorkerId, w: Worker, env: TurnEnv,
          steady: bool)
    requires Ran(start, y, me, env, steady) && me in y.workers && y.workers[me] == w && OthersRan(y, z, me)
    ensures Ran(start, z, me, env, steady) && me in z.workers && z.workers[me] == w
    ensures z.cfg == y.cfg && z.owner == y.owner
  {
    var events: seq<Event> :| (forall i | 0 <= i < |events| :: !Mine(events[i], me)) && Exec(y, events) == z;
    OthersStepPast(y, events, me);
    OthersFit(events, me, env, steady);
    RanThen(start, y, z, me, env, steady);
  }

  /** A read under the lock: one step that touches no store, or a failure on the way to release. */
  lemma ReadMove(cfg: Settings, owner: string, s: Store, me: WorkerId, w: Worker, env: TurnEnv, ok: bool)
    requires w.token.Some? && Preparing(w.pc) && !w.pc.ReloadDoc?
    ensures MoveOf(cfg, owner, s, me, w, env, if ok then NoFault else FailsBefore) ==
            if ok then Prepare(s, w) else Move(Nothing, w.(pc := ReleaseGet(Raised(StoreFailure))))
    ensures Prepare(s, w).effect == Nothing
  {
  }

  /** Where the look-up leads, by what it finds. */
  function AfterFind(req: Request, found: Option<TurnRow>): Pc {
    match found
    case None => LoadSnapshot
    case Some(row) =>
      if row.bodyHash == Some(req.bodyHash) then GetReply(row.index) else ReleaseGet(Raised(IdempotencyConflict))
  }

  lemma FindMove(s: Store, w: Worker)
    requires w.token.Some? && w.pc == FindKey && HasKey(w.req)
    ensures Prepare(s, w) == Goto(w, AfterFind(w.req, FindByKey(s.turns, w.req.key.value)))
  {
  }

  /** The outcome of a replay: only an assistant row is a reply. */
  function ReplyOf(found: Option<TurnRow>, ti: nat): Option<Outcome> {
    if found.Some? && found.value.role == Assistant then Some(Returned(ti, found.value.text, false)) else None
  }

  lemma ReplyMove(s: Store, w: Worker, ti: nat)
    requires w.pc == GetReply(ti)
    ensures Prepare(s, w) ==
      var done := ReplyOf(GetTurn(s.turns, ti + 1), ti);
      Goto(w, if done == None then LoadSnapshot else ReleaseGet(done.value))
  {
  }

  lemma ClassifyMove(cfg: Settings, owner: string, s: Store, me: WorkerId, w: Worker, env: TurnEnv, ok: bool)
    requires w.token.Some? && w.pc.Classify?
    ensures MoveOf(cfg, owner, s, me, w, env, if ok then NoFault else FailsBefore) ==
      Move(Nothing, w.(pc :=
        if !ok then ReleaseGet(Raised(StoreFailure))
        else if Plan(cfg, w.pc.snap, env.c).mode == ClarifyOnly then AppendClarify(w.pc.snap, w.pc.ti)
        else RunEngine(w.pc.snap, w.pc.ti, env.c)))
  {
  }

  lemma EngineMove(cfg: Settings, owner: string, s: Store, me: WorkerId, w: Worker, env: TurnEnv,
          draft: Option<Draft>)
    requires w.token.Some? && w.pc.RunEngine? && w.pc.c == env.c
    requires draft == EngineTurn(cfg, w.pc.snap, w.req.message, env.c, env.engine)
    ensures MoveOf(cfg, owner, s, me, w, env, NoFault) ==
      Move(Nothing, w.(pc := if draft == None then ReleaseGet(Raised(EngineFailure))
                             else AppendAssistant(w.pc.ti, env.c.intent, draft.value)))
  {
    assert Attempt(cfg, owner, s, me, w, env) == Respond(cfg, s, me, w, env);
  }

  lemma SaveMove(cfg: Settings, owner: string, s: Store, me: WorkerId, w: Worker, env: TurnEnv, fault: Fault)
    requires w.token.Some? && w.pc.SaveSnapshot?
    ensures MoveOf(cfg, owner, s, me, w, env, fault) ==
      Move(if fault == FailsBefore then Nothing
        else AddSnapshot(SnapshotRow(w.pc.ti + 1, w.pc.draft.blob, w.pc.draft.record, me)),
           w.(pc := if fault == NoFault then CacheDoc(w.pc.ti, w.pc.draft) else ReleaseGet(Raised(StoreFailure))))
  {
  }

  lemma ReleaseMove(cfg: Settings, owner: string, s: Store, me: WorkerId, w: Worker, env: TurnEnv, fault: Fault)
    requires Releasing(w.pc)
    ensures MoveOf(cfg, owner, s, me, w, env, fault) ==
      Move(if w.pc.ReleaseGet? || fault == FailsBefore then Nothing else DropLock,
           w.(pc := if fault != NoFault then Done(Raised(StoreFailure))
                    else if w.pc.ReleaseGet? && s.lock == w.token then ReleaseDelete(w.pc.outcome)
                    else Done(w.pc.outcome)))
  {
  }

  /** Where a round of the acquire loop leaves a call, by the token it got, if any. */
  function AfterTry(w: Worker, tries: nat, token: Option<Token>): Worker {
    if token.Some? then w.(token := token, pc := if HasKey(w.req) then FindKey else LoadSnapshot)
    else w.(pc := if tries + 1 < ACQUIRE_TRIES then Acquire(tries + 1) else Done(Raised(LockTimeout)))
  }

  lemma AcquireMove(cfg: Settings, owner: string, s: Store, me: WorkerId, w: Worker, env: TurnEnv, tries: nat,
          fault: Fault)
    requires w.token == None && w.pc == Acquire(tries)
    ensures MoveOf(cfg, owner, s, me, w, env, fault) ==
      Move(if s.lock == None && fault != FailsBefore then TakeLock else Nothing,
           if fault != NoFault then w.(pc := Done(Raised(StoreFailure)))
           else AfterTry(w, tries, if s.lock == None then Some(s.minted) else None))
  {
    assert Attempt(cfg, owner, s, me, w, env) == Enter(owner, s, w);
  }

  /** What an insertion does, by the reply of the store. */
  lemma InsertMove(cfg: Settings, owner: string, s: Store, me: WorkerId, w: Worker, env: TurnEnv, row: TurnRow,
          next: Pc, fault: Fault)
    requires w.token.Some? && !Releasing(w.pc) && !Stopped(w.pc) && !w.pc.Ping?
    requires Attempt(cfg, owner, s, me, w, env) == Insert(s, w, row, next)
    ensures MoveOf(cfg, owner, s, me, w, env, fault) ==
      Move(if fault == FailsBefore || Violates(s.turns, row) then Nothing else AddTurn(row),
           w.(pc := if fault != NoFault then ReleaseGet(Raised(StoreFailure))
                    else if Violates(s.turns, row) then ReleaseGet(Raised(IntegrityError)) else next))
  {
  }

  predicate Caching(w: Worker, blob: Option<StateBlob>, last: Option<int>) {
    w.token.Some? &&
    match w.pc
    case ReloadDoc(snap) => blob == snap && last == None
    case CacheClarify(snap, ti) => blob == snap && last == Some(ti + 1)
    case CacheDoc(ti, d) => blob == Some(d.blob) && last == Some(ti + 1)
    case _ => false
  }

  /** Where a call goes on after writing the working document. */
  function AfterCache(w: Worker): Pc {
    match w.pc
    case ReloadDoc(snap) => NextIndex(snap)
    case CacheClarify(_, ti) => ReleaseGet(Returned(ti, CLARIFY_MESSAGE, true))
    case CacheDoc(ti, d) => ReleaseGet(Returned(ti, d.text, true))
    case _ => w.pc
  }

  lemma CacheMove(cfg: Settings, owner: string, s: Store, me: WorkerId, w: Worker, env: TurnEnv, fault: Fault,
          blob: Option<StateBlob>, last: Option<int>)
    requires Caching(w, blob, last)
    ensures MoveOf(cfg, owner, s, me, w, env, fault) ==
      Move(if fault == FailsBefore then Nothing else WriteDoc(Doc(blob, last, |s.snapshots|)),
           w.(pc := if fault == NoFault then AfterCache(w) else ReleaseGet(Raised(StoreFailure))))
  {
  }

  /** What a call raises when a service it depends on fails. */
  predicate Outage(o: Outcome) { o == Raised(StoreFailure) || o == Raised(StorageDegraded) }

  class ConversationCoordinator {
    const cfg: Settings
    const owner: string
    const mysql: MysqlSessionStore
    const redis: RedisSessionStore

    /** The intent classifier never raises. */
    const classifies: bool

    /** The protocol state that the stores show, with every call of the session. */
    ghost var sys: System

    constructor (cfg: Settings, owner: string, mysql: MysqlSessionStore, redis: RedisSessionStore, classifies: bool,
            ghost workers: map<WorkerId, Worker>)
      ensures this.cfg == cfg && this.owner == owner && this.mysql == mysql && this.redis == redis
      ensures this.classifies == classifies
      ensures Shown() && sys.workers == workers
    {
      this.cfg, this.owner, this.mysql, this.redis, this.classifies := cfg, owner, mysql, redis, classifies;
      sys := System(cfg, owner, Store(mysql.turns, mysql.snapshots, redis.lock, redis.doc, redis.minted), workers);
    }

    /** Nothing the call depends on fails. */
    ghost predicate Reliable() { mysql.reliable && redis.reliable && classifies }

    ghost function Stores(): Store
      reads mysql, redis
    {
      Store(mysql.turns, mysql.snapshots, redis.lock, redis.doc, redis.minted)
    }

    ghost predicate Shown()
      reads this, mysql, redis
    {
      sys.cfg == cfg && sys.owner == owner && sys.store == Stores()
    }

    /** The call stands at an await of the protocol, in a run that began at `start`. */
    ghost predicate Stands(start: System, me: WorkerId, env: TurnEnv, w: Worker)
      reads this, mysql, redis
    {
      Shown() && Ran(start, sys, me, env, Reliable()) && me in sys.workers && sys.workers[me] == w
    }

    /** An await: any number of steps of other calls, and expiries, before this call goes on. */
    method Yield(ghost start: System, ghost me: WorkerId, ghost env: TurnEnv, ghost w: Worker)
      requires Stands(start, me, env, w)
      modifies this`sys, mysql, redis
      ensures Stands(start, me, env, w) && OthersRan(old(sys), sys, me)
    {
      assert Exec(sys, []) == sys;
    }

    /** The store call of an await is the step of the protocol. */
    ghost method Record(start: System, me: WorkerId, w: Worker, env: TurnEnv, fault: Fault)
      requires sys.cfg == cfg && sys.owner == owner
      requires Ran(start, sys, me, env, Reliable()) && me in sys.workers && sys.workers[me] == w
      requires Reliable() ==> fault == NoFault
      requires Stores() == Perform(sys.store, MoveOf(cfg, owner, sys.store, me, w, env, fault).effect)
      modifies this`sys
      ensures Stands(start, me, env, MoveOf(cfg, owner, old(sys).store, me, w, env, fault).worker)
    {
      RanStep(start, sys, Advance(me, env, fault), me, env, Reliable());
      sys := Step(sys, Advance(me, env, fault));
    }

    /** `ping` turns every exception into False. */
    method CheckRedis(ghost start: System, ghost me: WorkerId, ghost w: Worker, ghost env: TurnEnv) returns (ok: bool)
      requires Stands(start, me, env, w) && w.pc.Ping? && w.token == None
      modifies this`sys, mysql, redis
      ensures Stands(start, me, env, w.(pc := if ok then Authorize else Done(Raised(StorageDegraded))))
      ensures Reliable() ==> ok
    {
      Yield(start, me, env, w);
      ok := redis.ReadPing();
      Record(start, me, w, env, if ok then NoFault else FailsBefore);
    }

    /** `get_session_for_owner`. */
    method CheckOwner(ghost start: System, ghost me: WorkerId, ghost w: Worker, ghost env: TurnEnv, req: Request)
      returns (error: Option<TurnError>)
      requires Stands(start, me, env, w) && w.pc.Authorize? && w.token == None && w.req == req
      modifies this`sys, mysql, redis
      ensures Stands(start, me, env, w.(pc := if error == None then Acquire(0) else Done(Raised(error.value))))
      ensures error == None ==> req.owner == owner
      ensures error.Some? ==> error.value == StoreFailure || (error.value == AccessDenied && req.owner != owner)
      ensures Reliable() && error.Some? ==> error.value == AccessDenied
    {
      Yield(start, me, env, w);
      var failed := Trouble(mysql.reliable);
      if failed {
        Record(start, me, w, env, FailsBefore);
        return Some(StoreFailure);
      }
      Record(start, me, w, env, NoFault);
      error := if req.owner == owner then None else Some(AccessDenied);
    }

    ghost method RecordAcquire(start: System, me: WorkerId, w: Worker, env: TurnEnv, tries: nat, fault: Fault)
      requires (Reliable() ==> fault == NoFault) && w.pc == Acquire(tries) && w.token == None
      requires sys.cfg == cfg && sys.owner == owner
      requires Ran(start, sys, me, env, Reliable()) && me in sys.workers && sys.workers[me] == w
      requires Stores() == if sys.store.lock == None && fault != FailsBefore
        then sys.store.(lock := Some(sys.store.minted), minted := sys.store.minted + 1) else sys.store
      modifies this`sys
      ensures Stands(start, me, env,
        if fault != NoFault then w.(pc := Done(Raised(StoreFailure)))
        else AfterTry(w, tries, if old(sys).store.lock == None then Some(old(sys).store.minted) else None))
    {
      AcquireMove(cfg, owner, sys.store, me, w, env, tries, fault);
      Record(start, me, w, env, fault);
    }

    /** One round of the acquire loop. */
    method TryAcquire(ghost start: System, ghost me: WorkerId, ghost w: Worker, ghost env: TurnEnv, tries: nat)
      returns (a: Answer<Option<Token>>)
      requires Stands(start, me, env, w) && w.pc == Acquire(tries) && w.token == None
      modifies this`sys, mysql, redis
      ensures a.ReadFailed? ==> Stands(start, me, env, w.(pc := Done(Raised(StoreFailure))))
      ensures a.Got? ==> Stands(start, me, env, AfterTry(w, tries, a.value))
      ensures Reliable() ==> a.Got?
    {
      Yield(start, me, env, w);
      a := redis.AcquireTurnLock();
      ghost var fault :=
        if a.Got? then NoFault
        else if redis.minted == sys.store.minted then FailsBefore
        else FailsAfter;
      RecordAcquire(start, me, w, env, tries, fault);
    }

    /** The acquire loop: Got(None) when every try found the lock held. */
    method AcquireLock(ghost start: System, ghost me: WorkerId, ghost w: Worker, ghost env: TurnEnv)
      returns (got: Answer<Option<Token>>)
      requires Stands(start, me, env, w) && w.pc == Acquire(0) && w.token == None
      modifies this`sys, mysql, redis
      ensures got.ReadFailed? ==> Stands(start, me, env, w.(pc := Done(Raised(StoreFailure))))
      ensures got.Got? ==> Stands(start, me, env,
        if got.value.Some? then AfterTry(w, 0, got.value) else w.(pc := Done(Raised(LockTimeout))))
      ensures Reliable() ==> got.Got?
    {
      for tries := 0 to ACQUIRE_TRIES
        invariant Stands(start, me, env,
            w.(pc := if tries < ACQUIRE_TRIES then Acquire(tries) else Done(Raised(LockTimeout))))
      {
        got := TryAcquire(start, me, w.(pc := Acquire(tries)), env, tries);
        if got.ReadFailed? { return; }
        if got.value.Some? {
          assert AfterTry(w.(pc := Acquire(tries)), tries, got.value) == AfterTry(w, 0, got.value);
          return;
        }
      }
      got := Got(None);
    }

    /** The idempotency look-up; the answer is the prior user row when its fingerprint matches. */
    method FindPrior(ghost start: System, ghost me: WorkerId, ghost w: Worker, ghost env: TurnEnv, req: Request)
      returns (error: Option<TurnError>, prior: Option<TurnRow>)
      requires Stands(start, me, env, w) && w.pc.FindKey? && w.token.Some? && w.req == req && HasKey(req)
      modifies this`sys, mysql, redis
      ensures error.Some? ==> Stands(start, me, env, w.(pc := ReleaseGet(Raised(error.value))))
      ensures error.None? ==>
          Stands(start, me, env, w.(pc := if prior == None then LoadSnapshot else GetReply(prior.value.index)))
      ensures Reliable() && error.Some? ==> !Outage(Raised(error.value))
    {
      Yield(start, me, env, w);
      prior := None;
      var a := mysql.FindTurnByIdempotency(req.key.value);
      ReadMove(cfg, owner, sys.store, me, w, env, a.Got?);
      FindMove(sys.store, w);
      Record(start, me, w, env, if a.Got? then NoFault else FailsBefore);
      if a.ReadFailed? { return Some(StoreFailure), None; }
      if a.value.Some? && a.value.value.bodyHash != Some(req.bodyHash) { return Some(IdempotencyConflict), None; }
      return None, a.value;
    }

    /** The reply to a prior user row, if it has one. */
    method ReadReply(ghost start: System, ghost me: WorkerId, ghost w: Worker, ghost env: TurnEnv, ti: nat)
      returns (done: Option<Outcome>)
      requires Stands(start, me, env, w) && w.pc == GetReply(ti) && w.token.Some?
      modifies this`sys, mysql, redis
      ensures Stands(start, me, env, w.(pc := if done == None then LoadSnapshot else ReleaseGet(done.value)))
      ensures Reliable() && done.Some? ==> !Outage(done.value)
    {
      Yield(start, me, env, w);
      var a := mysql.ReadTurn(ti + 1);
      ReadMove(cfg, owner, sys.store, me, w, env, a.Got?);
      ReplyMove(sys.store, w, ti);
      Record(start, me, w, env, if a.Got? then NoFault else FailsBefore);
      done := if a.Got? then ReplyOf(a.value, ti) else Some(Raised(StoreFailure));
    }

    method ReadSnapshot(ghost start: System, ghost me: WorkerId, ghost w: Worker, ghost env: TurnEnv)
      returns (a: Answer<Option<StateBlob>>)
      requires Stands(start, me, env, w) && w.pc.LoadSnapshot? && w.token.Some?
      modifies this`sys, mysql, redis
      ensures Stands(start, me, env, w.(pc := if a.Got? then GetDoc(a.value) else ReleaseGet(Raised(StoreFailure))))
      ensures Reliable() ==> a.Got?
    {
      Yield(start, me, env, w);
      var row := mysql.ReadLatestSnapshot();
      ReadMove(cfg, owner, sys.store, me, w, env, row.Got?);
      Record(start, me, w, env, if row.Got? then NoFault else FailsBefore);
      if row.ReadFailed? { return ReadFailed; }
      a := Got(match row.value { case None => None case Some(r) => Some(r.blob) });
    }

    method ReadDoc(ghost start: System, ghost me: WorkerId, ghost w: Worker, ghost env: TurnEnv,
            snap: Option<StateBlob>)
      returns (a: Answer<Option<Doc>>)
      requires Stands(start, me, env, w) && w.pc == GetDoc(snap) && w.token.Some?
      modifies this`sys, mysql, redis
      ensures Stands(start, me, env, w.(pc :=
        if a.ReadFailed? then ReleaseGet(Raised(StoreFailure))
        else if a.value == None && snap.Some? then ReloadDoc(snap) else NextIndex(snap)))
      ensures Reliable() ==> a.Got?
    {
      Yield(start, me, env, w);
      a := redis.GetWorkingDoc();
      ReadMove(cfg, owner, sys.store, me, w, env, a.Got?);
      Record(start, me, w, env, if a.Got? then NoFault else FailsBefore);
    }

    /** Latest snapshot, working document, and the reload of a document that is missing. */
    method LoadContext(ghost start: System, ghost me: WorkerId, ghost w: Worker, ghost env: TurnEnv)
      returns (ok: bool, snap: Option<StateBlob>)
      requires Stands(start, me, env, w) && w.pc.LoadSnapshot? && w.token.Some?
      modifies this`sys, mysql, redis
      ensures Stands(start, me, env, w.(pc := if ok then NextIndex(snap) else ReleaseGet(Raised(StoreFailure))))
      ensures Reliable() ==> ok
    {
      ok, snap := false, None;
      var a := ReadSnapshot(start, me, w, env);
      if a.ReadFailed? { return; }
      snap := a.value;
      var doc := ReadDoc(start, me, w.(pc := GetDoc(snap)), env, snap);
      if doc.ReadFailed? { return; }
      ok := true;
      if doc.value == None && snap.Some? {
        ok := Cache(start, me, w.(pc := ReloadDoc(snap)), env, snap, None);
      }
    }

    ghost method RecordCache(start: System, me: WorkerId, w: Worker, env: TurnEnv, fault: Fault,
            blob: Option<StateBlob>, last: Option<int>)
      requires Reliable() ==> fault == NoFault
      requires Caching(w, blob, last)
      requires sys.cfg == cfg && sys.owner == owner
      requires Ran(start, sys, me, env, Reliable()) && me in sys.workers && sys.workers[me] == w
      requires Stores() == if fault == FailsBefore then sys.store
                           else sys.store.(doc := Some(Doc(blob, last, |sys.store.snapshots|)))
      modifies this`sys
      ensures Stands(start, me, env,
          w.(pc := if fault == NoFault then AfterCache(w) else ReleaseGet(Raised(StoreFailure))))
    {
      CacheMove(cfg, owner, sys.store, me, w, env, fault, blob, last);
      Record(start, me, w, env, fault);
    }

    /** The three writes of the working document. */
    method Cache(ghost start: System, ghost me: WorkerId, ghost w: Worker, ghost env: TurnEnv, blob: Option<StateBlob>,
            last: Option<int>)
      returns (ok: bool)
      requires Stands(start, me, env, w) && Caching(w, blob, last)
      modifies this`sys, mysql, redis
      ensures Stands(start, me, env, w.(pc := if ok then AfterCache(w) else ReleaseGet(Raised(StoreFailure))))
      ensures Reliable() ==> ok
    {
      Yield(start, me, env, w);
      var r := redis.SetWorkingDoc(Doc(blob, last, |mysql.snapshots|));
      ghost var fault :=
        if r == Applied then NoFault
        else if redis.doc == sys.store.doc then FailsBefore
        else FailsAfter;
      RecordCache(start, me, w, env, fault, blob, last);
      ok := r == Applied;
    }

    method ReadNextIndex(ghost start: System, ghost me: WorkerId, ghost w: Worker, ghost env: TurnEnv)
      returns (a: Answer<nat>)
      requires Stands(start, me, env, w) && w.pc.NextIndex? && w.token.Some?
      modifies this`sys, mysql, redis
      ensures Stands(start, me, env,
          w.(pc := if a.Got? then AppendUser(w.pc.snap, a.value) else ReleaseGet(Raised(StoreFailure))))
      ensures Reliable() ==> a.Got?
    {
      Yield(start, me, env, w);
      a := mysql.ReadNextTurnIndex();
      ReadMove(cfg, owner, sys.store, me, w, env, a.Got?);
      Record(start, me, w, env, if a.Got? then NoFault else FailsBefore);
    }

    /** The await of `append_turn` at w would insert this row and go on at `next`. */
    ghost predicate Inserting(w: Worker, me: WorkerId, env: TurnEnv, row: TurnRow, next: Pc) {
      w.token.Some? && !Releasing(w.pc) && !Stopped(w.pc) && !w.pc.Ping? &&
      forall s :: Attempt(cfg, owner, s, me, w, env) == Insert(s, w, row, next)
    }

    /** The insertion is the step of the protocol. */
    ghost method RecordInsert(start: System, me: WorkerId, w: Worker, env: TurnEnv, row: TurnRow, next: Pc,
            fault: Fault)
      requires Reliable() ==> fault == NoFault
      requires Inserting(w, me, env, row, next)
      requires sys.cfg == cfg && sys.owner == owner
      requires Ran(start, sys, me, env, Reliable()) && me in sys.workers && sys.workers[me] == w
      requires Stores() == if fault == FailsBefore || Violates(sys.store.turns, row) then sys.store
                           else sys.store.(turns := sys.store.turns + [row])
      modifies this`sys
      ensures Stands(start, me, env, w.(pc := if fault != NoFault then ReleaseGet(Raised(StoreFailure))
                                         else if Violates(old(sys).store.turns, row)
                                           then ReleaseGet(Raised(IntegrityError))
                                         else next))
    {
      InsertMove(cfg, owner, sys.store, me, w, env, row, next, fault);
      Record(start, me, w, env, fault);
    }

    method Append(ghost start: System, ghost me: WorkerId, ghost w: Worker, ghost env: TurnEnv, row: TurnRow,
            ghost next: Pc)
      returns (error: Option<TurnError>)
      requires Stands(start, me, env, w) && Inserting(w, me, env, row, next)
      modifies this`sys, mysql, redis
      ensures Stands(start, me, env, w.(pc := if error == None then next else ReleaseGet(Raised(error.value))))
      ensures Reliable() && error.Some? ==> !Outage(Raised(error.value))
    {
      Yield(start, me, env, w);
      var r := mysql.AppendTurn(row);
      RecordInsert(start, me, w, env, row, next,
        if r != Failed then NoFault else if mysql.turns == sys.store.turns then FailsBefore else FailsAfter);
      error := match r { case Applied => None case Rejected => Some(IntegrityError) case Failed => Some(StoreFailure) };
    }

    method ClassifyIntent(ghost start: System, ghost me: WorkerId, ghost w: Worker, env: TurnEnv)
      returns (a: Answer<Classification>)
      requires Stands(start, me, env, w) && w.pc.Classify? && w.token.Some?
      modifies this`sys, mysql, redis
      ensures a.ReadFailed? ==> Stands(start, me, env, w.(pc := ReleaseGet(Raised(StoreFailure))))
      ensures a.Got? ==> a.value == env.c && Stands(start, me, env, w.(pc :=
        if Plan(cfg, w.pc.snap, env.c).mode == ClarifyOnly then AppendClarify(w.pc.snap, w.pc.ti)
        else RunEngine(w.pc.snap, w.pc.ti, env.c)))
      ensures Reliable() ==> a.Got?
    {
      Yield(start, me, env, w);
      var failed := Trouble(classifies);
      ClassifyMove(cfg, owner, sys.store, me, w, env, !failed);
      Record(start, me, w, env, if failed then FailsBefore else NoFault);
      a := if failed then ReadFailed else Got(env.c);
    }

    /** The engine invocation; None when it raises. */
    method InvokeEngine(ghost start: System, ghost me: WorkerId, ghost w: Worker, snap: Option<StateBlob>,
            env: TurnEnv, message: string)
      returns (draft: Option<Draft>)
      requires Stands(start, me, env, w) && w.pc.RunEngine? && w.pc.snap == snap && w.pc.c == env.c && w.token.Some? &&
          w.req.message == message
      modifies this`sys, mysql, redis
      ensures Stands(start, me, env, w.(pc :=
        if draft == None then ReleaseGet(Raised(EngineFailure))
        else AppendAssistant(w.pc.ti, env.c.intent, draft.value)))
    {
      Yield(start, me, env, w);
      draft := EngineTurn(cfg, snap, message, env.c, env.engine);
      EngineMove(cfg, owner, sys.store, me, w, env, draft);
      Record(start, me, w, env, NoFault);
    }

    method Save(ghost start: System, ghost me: WorkerId, ghost w: Worker, ghost env: TurnEnv, row: SnapshotRow)
      returns (ok: bool)
      requires Stands(start, me, env, w) && w.pc.SaveSnapshot? && w.token.Some?
      requires row == SnapshotRow(w.pc.ti + 1, w.pc.draft.blob, w.pc.draft.record, me)
      modifies this`sys, mysql, redis
      ensures Stands(start, me, env,
          w.(pc := if ok then CacheDoc(w.pc.ti, w.pc.draft) else ReleaseGet(Raised(StoreFailure))))
      ensures Reliable() ==> ok
    {
      Yield(start, me, env, w);
      var r := mysql.SaveSnapshot(row);
      ghost var fault :=
        if r == Applied then NoFault
        else if mysql.snapshots == sys.store.snapshots then FailsBefore
        else FailsAfter;
      SaveMove(cfg, owner, sys.store, me, w, env, fault);
      Record(start, me, w, env, fault);
      ok := r == Applied;
    }

    /** `release_turn_lock`: get, compare, delete; an exception here replaces the outcome. */
    method Release(ghost start: System, ghost me: WorkerId, ghost w: Worker, ghost env: TurnEnv, token: Token,
            pending: Outcome)
      returns (o: Outcome)
      requires Stands(start, me, env, w) && w.pc == ReleaseGet(pending) && w.token == Some(token)
      modifies this`sys, mysql, redis
      ensures Stands(start, me, env, w.(pc := Done(o))) && (o == pending || o == Raised(StoreFailure))
      ensures Reliable() ==> o == pending
    {
      Yield(start, me, env, w);
      var cur := redis.ReadLock();
      ReleaseMove(cfg, owner, sys.store, me, w, env, if cur.Got? then NoFault else FailsBefore);
      Record(start, me, w, env, if cur.Got? then NoFault else FailsBefore);
      if cur.ReadFailed? { return Raised(StoreFailure); }
      if cur.value != Some(token) { return pending; }
      o := DeleteToken(start, me, w.(pc := ReleaseDelete(pending)), env, pending);
    }

    method DeleteToken(ghost start: System, ghost me: WorkerId, ghost w: Worker, ghost env: TurnEnv, pending: Outcome)
      returns (o: Outcome)
      requires Stands(start, me, env, w) && w.pc == ReleaseDelete(pending)
      modifies this`sys, mysql, redis
      ensures Stands(start, me, env, w.(pc := Done(o))) && (o == pending || o == Raised(StoreFailure))
      ensures Reliable() ==> o == pending
    {
      Yield(start, me, env, w);
      var r := redis.DeleteLock();
      ghost var fault :=
        if r == Applied then NoFault
        else if redis.lock == sys.store.lock then FailsBefore
        else FailsAfter;
      ReleaseMove(cfg, owner, sys.store, me, w, env, fault);
      Record(start, me, w, env, fault);
      o := if r == Applied then pending else Raised(StoreFailure);
    }

    /** The body of the `try` block: everything between the acquisition and the release. */
    method ProcessTurn(ghost start: System, me: WorkerId, ghost w: Worker, env: TurnEnv, req: Request)
      returns (pending: Outcome)
      requires Stands(start, me, env, w) && w.req == req && w.token.Some?
      requires w.pc == if HasKey(req) then FindKey else LoadSnapshot
      modifies this`sys, mysql, redis
      ensures Stands(start, me, env, w.(pc := ReleaseGet(pending)))
      ensures Reliable() ==> !Outage(pending)
    {
      if HasKey(req) {
        var error, prior := FindPrior(start, me, w, env, req);
        if error.Some? { return Raised(error.value); }
        if prior.Some? {
          var done := ReadReply(start, me, w.(pc := GetReply(prior.value.index)), env, prior.value.index);
          if done.Some? { return done.value; }
        }
      }
      var ok, snap := LoadContext(start, me, w.(pc := LoadSnapshot), env);
      if !ok { return Raised(StoreFailure); }
      var next := ReadNextIndex(start, me, w.(pc := NextIndex(snap)), env);
      if next.ReadFailed? { return Raised(StoreFailure); }
      pending := OpenTurn(start, me, w.(pc := AppendUser(snap, next.value)), env, req, snap, next.value);
    }

    /** The user row, the classification, and one of the two ways to answer. */
    method OpenTurn(ghost start: System, me: WorkerId, ghost w: Worker, env: TurnEnv, req: Request,
            snap: Option<StateBlob>, ti: nat)
      returns (pending: Outcome)
      requires Stands(start, me, env, w) && w.req == req && w.token.Some? && w.pc == AppendUser(snap, ti)
      modifies this`sys, mysql, redis
      ensures Stands(start, me, env, w.(pc := ReleaseGet(pending)))
      ensures Reliable() ==> !Outage(pending)
    {
      var error := Append(start, me, w, env, UserRow(ti, req, me), Classify(snap, ti));
      if error.Some? { return Raised(error.value); }
      var c := ClassifyIntent(start, me, w.(pc := Classify(snap, ti)), env);
      if c.ReadFailed? { return Raised(StoreFailure); }
      if Plan(cfg, snap, c.value).mode == ClarifyOnly {
        pending := Clarify(start, me, w.(pc := AppendClarify(snap, ti)), env, req, snap, ti);
      } else {
        pending := Respond(start, me, w.(pc := RunEngine(snap, ti, c.value)), env, req, snap, ti);
      }
    }

    method Clarify(ghost start: System, me: WorkerId, ghost w: Worker, env: TurnEnv, req: Request,
            snap: Option<StateBlob>, ti: nat)
      returns (pending: Outcome)
      requires Stands(start, me, env, w) && w.req == req && w.token.Some? && w.pc == AppendClarify(snap, ti)
      modifies this`sys, mysql, redis
      ensures Stands(start, me, env, w.(pc := ReleaseGet(pending)))
      ensures Reliable() ==> !Outage(pending)
    {
      var error := Append(start, me, w, env, AssistantRow(ti, CLARIFY_MESSAGE, NeedsClarification, req, me),
          CacheClarify(snap, ti));
      if error.Some? { return Raised(error.value); }
      var ok := Cache(start, me, w.(pc := CacheClarify(snap, ti)), env, snap, Some(ti + 1));
      pending := if ok then Returned(ti, CLARIFY_MESSAGE, true) else Raised(StoreFailure);
    }

    method Respond(ghost start: System, me: WorkerId, ghost w: Worker, env: TurnEnv, req: Request,
            snap: Option<StateBlob>, ti: nat)
      returns (pending: Outcome)
      requires Stands(start, me, env, w) && w.req == req && w.token.Some? && w.pc == RunEngine(snap, ti, env.c)
      modifies this`sys, mysql, redis
      ensures Stands(start, me, env, w.(pc := ReleaseGet(pending)))
      ensures Reliable() ==> !Outage(pending)
    {
      var draft := InvokeEngine(start, me, w, snap, env, req.message);
      if draft == None { return Raised(EngineFailure); }
      var d := draft.value;
      var error := Append(start, me, w.(pc := AppendAssistant(ti, env.c.intent, d)), env,
                          AssistantRow(ti, d.text, env.c.intent, req, me), SaveSnapshot(ti, d));
      if error.Some? { return Raised(error.value); }
      var ok := Save(start, me, w.(pc := SaveSnapshot(ti, d)), env, SnapshotRow(ti + 1, d.blob, d.record, me));
      if !ok { return Raised(StoreFailure); }
      ok := Cache(start, me, w.(pc := CacheDoc(ti, d)), env, Some(d.blob), Some(ti + 1));
      pending := if ok then Returned(ti, d.text, true) else Raised(StoreFailure);
    }

    /** One call; `env` is what the classifier and the engine answer it. Whatever other calls and expiries
        do at its awaits, the stores end in a state that a run of the protocol reaches, with this call
        finished on the outcome it returns. Where nothing fails the run is steady, and the outcome is no
        failure of a store. */
    method RunTurn(req: Request, me: WorkerId, env: TurnEnv) returns (o: Outcome)
      requires Shown() && me !in sys.workers
      modifies this`sys, mysql, redis
      ensures Shown() && Ran(Step(old(sys), Begin(me, req)), sys, me, env, Reliable())
      ensures me in sys.workers && sys.workers[me].req == req && sys.workers[me].pc == Done(o)
      ensures req.owner != owner ==> o in {Raised(AccessDenied), Raised(StoreFailure), Raised(StorageDegraded)}
      ensures Reliable() ==> !Outage(o)
    {
      ghost var start := Step(sys, Begin(me, req));
      sys := start;
      RanNothing(start, me, env, Reliable());
      ghost var w := Worker(req, None, Ping);
      var ok := CheckRedis(start, me, w, env);
      if !ok { return Raised(StorageDegraded); }
      var denied := CheckOwner(start, me, w.(pc := Authorize), env, req);
      if denied.Some? { return Raised(denied.value); }
      o := ServeOwner(start, me, w.(pc := Acquire(0)), env, req);
    }

    /** From the acquire loop to the end of `finally`. */
    method ServeOwner(ghost start: System, me: WorkerId, ghost w: Worker, env: TurnEnv, req: Request)
      returns (o: Outcome)
      requires Stands(start, me, env, w) && w.pc == Acquire(0) && w.token == None && w.req == req
      modifies this`sys, mysql, redis
      ensures Shown() && Ran(start, sys, me, env, Reliable())
      ensures me in sys.workers && sys.workers[me].req == req && sys.workers[me].pc == Done(o)
      ensures Reliable() ==> !Outage(o)
    {
      var token := AcquireLock(start, me, w, env);
      if token.ReadFailed? { return Raised(StoreFailure); }
      if token.value == None { return Raised(LockTimeout); }
      ghost var locked := AfterTry(w, 0, token.value);
      var pending := ProcessTurn(start, me, locked, env, req);
      o := Release(start, me, locked.(pc := ReleaseGet(pending)), env, token.value.value, pending);
    }
  }
}

/** What the guarantees over all runs say about the code of `run_turn`. */
module CoordinatorSafety {
  import opened Wrappers
  import opened TurnEngine
  import opened SessionStores
  import opened TurnProtocol
  import opened TurnSafety
  import opened Schedules
  import opened Replay
  import opened Coordinator

  /** A new session: the stores show the initial state of the protocol, unless a store raised. */
  method CreateSessionRow(cfg: Settings, owner: string, reliable: bool) returns (c: ConversationCoordinator, ok: bool)
    ensures fresh(c) && fresh(c.mysql) && fresh(c.redis) && c.Shown() && (reliable <==> c.Reliable())
    ensures ok ==> c.sys == Created(cfg, owner)
    ensures ok ==> c.mysql.turns == [] && c.mysql.snapshots == [] && c.redis.lock == None
    ensures ok ==> c.redis.doc == Some(Doc(None, Some(-1), 0))
    ensures reliable ==> ok
  {
    var mysql := new MysqlSessionStore(reliable);
    var redis := new RedisSessionStore(reliable);
    var r := redis.SetWorkingDoc(Doc(None, Some(-1), 0));
    c := new ConversationCoordinator(cfg, owner, mysql, redis, reliable, map[]);
    ok := r == Applied;
  }

  /** Whenever `run_turn` comes back from a reachable session, the session is still consistent and
      a returned turn is on record under its own key and fingerprint. */
  lemma FinishedTurnIsSound(y: System, z: System, req: Request, me: WorkerId, env: TurnEnv, steady: bool,
          o: Outcome)
    requires Reachable(y) && Ran(Step(y, Begin(me, req)), z, me, env, steady)
    requires me in z.workers && z.workers[me].pc == Done(o)
    ensures Reachable(z) && Inv(z) && OnRecord(z.store.turns, z.workers[me].req, me, o)
  {
    BegunReaches(y, z, req, me, env, steady);
    ReachableInv(z);
    assert LocalsOk(z.store.turns, me, z.workers[me]);
  }

  lemma BegunReaches(y: System, z: System, req: Request, me: WorkerId, env: TurnEnv, steady: bool)
    requires Reachable(y) && Ran(Step(y, Begin(me, req)), z, me, env, steady)
    ensures Reachable(Step(y, Begin(me, req))) && Reachable(z)
  {
    ExecOne(y, Begin(me, req));
    ReachableExec(y, [Begin(me, req)]);
    var events: seq<Event> :| AllFit(events, me, env, steady) && Exec(Step(y, Begin(me, req)), events) == z;
    ReachableExec(Step(y, Begin(me, req)), events);
  }

  /** What a retry gets from `run_turn` where nothing fails, whatever other calls do meanwhile: when the
      key of its request belongs to an answered turn, the original turn if the fingerprints agree, a
      conflict if not, or a lock timeout; and a caller that is not the owner is denied. */
  lemma FinishedRetryGetsVerdict(y: System, z: System, req: Request, me: WorkerId, env: TurnEnv, i: nat,
          o: Outcome)
    requires Reachable(y) && me !in y.workers && Completed(y.store.turns, i)
    requires HasKey(req) && req.key == y.store.turns[i].key
    requires Ran(Step(y, Begin(me, req)), z, me, env, true) && me in z.workers && z.workers[me].pc == Done(o)
    ensures o in {Verdict(y.store.turns, i, req), Raised(LockTimeout), Raised(AccessDenied)}
    ensures o == Raised(AccessDenied) ==> req.owner != y.owner
  {
    var begun := Step(y, Begin(me, req));
    BegunReaches(y, z, req, me, env, true);
    var events: seq<Event> :| AllFit(events, me, env, true) && Exec(begun, events) == z;
    assert begun.workers[me] == Worker(req, None, Ping);
    assert Steady(events, me);
    RetryGetsVerdict(begun, i, me, events);
  }
}
