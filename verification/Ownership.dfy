/** A session is open to its owner alone, in every run. */
module Ownership {
  import opened Wrappers
  import opened TurnEngine
  import opened SessionStores
  import opened TurnProtocol
  import opened TurnSafety

  /** The call never got past the owner check: it holds no token and is before the check or turned away. */
  predicate Outside(w: Worker) {
    w.token == None &&
    match w.pc
    case Ping => true
    case Authorize => true
    case Crashed => true
    case Done(o) => o in {Raised(AccessDenied), Raised(StoreFailure), Raised(StorageDegraded)}
    case _ => false
  }

  /** The call has been denied access, or is on its way out with a denial. */
  predicate Denied(pc: Pc) {
    match pc
    case ReleaseGet(o) => o == Raised(AccessDenied)
    case ReleaseDelete(o) => o == Raised(AccessDenied)
    case Done(o) => o == Raised(AccessDenied)
    case _ => false
  }

  /** Foreign calls stay outside, the owner's calls are not denied, and every row is of an owner's call. */
  ghost predicate Owned(y: System) {
    && (forall id | id in y.workers && y.workers[id].req.owner != y.owner :: Outside(y.workers[id]))
    && (forall id | id in y.workers && y.workers[id].req.owner == y.owner :: !Denied(y.workers[id].pc))
    && (forall i | 0 <= i < |y.store.turns| :: OfOwner(y, y.store.turns[i].writer))
    && (forall j | 0 <= j < |y.store.snapshots| :: OfOwner(y, y.store.snapshots[j].writer))
  }

  ghost predicate OfOwner(y: System, id: WorkerId) {
    id in y.workers && y.workers[id].req.owner == y.owner
  }

  lemma ForeignMoves(cfg: Settings, owner: string, s: Store, id: WorkerId, w: Worker, env: TurnEnv, fault: Fault)
    requires w.req.owner != owner && Outside(w)
    ensures var m := MoveOf(cfg, owner, s, id, w, env, fault);
      Outside(m.worker) && m.worker.req == w.req && m.effect == Nothing
  {
    if !Stopped(w.pc) { assert Attempt(cfg, owner, s, id, w, env) == Enter(owner, s, w); }
  }

  /** The owner's call is not denied, and what it writes carries its name. */
  ghost predicate KeepsName(id: WorkerId, w: Worker, m: Move) {
    && !Denied(m.worker.pc) && m.worker.req == w.req
    && (m.effect.AddTurn? ==> m.effect.row.writer == id)
    && (m.effect.AddSnapshot? ==> m.effect.snapshot.writer == id)
  }

  lemma OwnerAttempts(cfg: Settings, owner: string, s: Store, id: WorkerId, w: Worker, env: TurnEnv)
    requires w.req.owner == owner && !Denied(w.pc)
    ensures KeepsName(id, w, Attempt(cfg, owner, s, id, w, env))
  {
    if Preparing(w.pc) { assert KeepsName(id, w, Prepare(s, w)); }
  }

  lemma OwnerMoves(cfg: Settings, owner: string, s: Store, id: WorkerId, w: Worker, env: TurnEnv, fault: Fault)
    requires w.req.owner == owner && !Denied(w.pc)
    ensures KeepsName(id, w, MoveOf(cfg, owner, s, id, w, env, fault))
  {
    OwnerAttempts(cfg, owner, s, id, w, env);
  }

  lemma MoveKeepsOwned(y: System, id: WorkerId, m: Move)
    requires Owned(y) && id in y.workers && m.worker.req == y.workers[id].req
    requires y.workers[id].req.owner != y.owner ==> Outside(m.worker) && m.effect == Nothing
    requires y.workers[id].req.owner == y.owner ==> KeepsName(id, y.workers[id], m)
    ensures Owned(y.(store := Perform(y.store, m.effect), workers := y.workers[id := m.worker]))
  {
    var z := y.(store := Perform(y.store, m.effect), workers := y.workers[id := m.worker]);
    assert forall other :: OfOwner(y, other) ==> OfOwner(z, other);
  }

  lemma StepKeepsOwned(y: System, e: Event)
    requires Owned(y)
    ensures Owned(Step(y, e))
  {
    if e.Advance? && e.id in y.workers {
      var w, m := y.workers[e.id], MoveOf(y.cfg, y.owner, y.store, e.id, y.workers[e.id], e.env, e.fault);
      if w.req.owner == y.owner {
        OwnerMoves(y.cfg, y.owner, y.store, e.id, w, e.env, e.fault);
      } else {
        ForeignMoves(y.cfg, y.owner, y.store, e.id, w, e.env, e.fault);
      }
      MoveKeepsOwned(y, e.id, m);
    } else {
      OtherEventsKeepOwned(y, e);
    }
  }

  lemma OtherEventsKeepOwned(y: System, e: Event)
    requires Owned(y) && (e.Advance? ==> e.id !in y.workers)
    ensures Owned(Step(y, e))
  {
    var z := Step(y, e);
    assert forall other :: OfOwner(y, other) ==> OfOwner(z, other);
  }

  lemma {:induction false} RunKeepsOwned(y: System, events: seq<Event>)
    requires Owned(y)
    ensures Owned(Exec(y, events))
    decreases |events|
  {
    if events == [] {
    } else {
      StepKeepsOwned(y, events[0]);
      RunKeepsOwned(Step(y, events[0]), events[1..]);
    }
  }

  lemma ReachableOwned(y: System)
    requires Reachable(y)
    ensures Owned(y)
  {
    var cfg, owner, events: seq<Event> :| Exec(Created(cfg, owner), events) == y;
    RunKeepsOwned(Created(cfg, owner), events);
  }

  /** In every run a call that is not the owner's never holds a token, ends in nothing but a denial or
      a failure of the check itself, and leaves no turn and no snapshot. */
  lemma ForeignCallLeavesNoTrace(y: System, id: WorkerId)
    requires Reachable(y) && id in y.workers && y.workers[id].req.owner != y.owner
    ensures y.workers[id].token == None
    ensures y.workers[id].pc.Ping? || y.workers[id].pc.Authorize? || y.workers[id].pc.Crashed? || y.workers[id].pc.Done?
    ensures y.workers[id].pc.Done? ==>
      y.workers[id].pc.outcome in {Raised(AccessDenied), Raised(StoreFailure), Raised(StorageDegraded)}
    ensures forall i | 0 <= i < |y.store.turns| :: y.store.turns[i].writer != id
    ensures forall j | 0 <= j < |y.store.snapshots| :: y.store.snapshots[j].writer != id
  {
    ReachableOwned(y);
    assert Outside(y.workers[id]);
  }

  /** In every run access is denied to nobody but callers that are not the owner. */
  lemma OwnerNeverDenied(y: System, id: WorkerId)
    requires Reachable(y) && id in y.workers && y.workers[id].req.owner == y.owner
    ensures y.workers[id].pc != Done(Raised(AccessDenied))
  {
    ReachableOwned(y);
  }

  /** And it is denied: a foreign call whose first two awaits meet no fault ends in a denial. */
  lemma ForeignCallIsDenied(y: System, id: WorkerId, req: Request, env: TurnEnv)
    requires id !in y.workers && req.owner != y.owner
    ensures var go := Advance(id, env, NoFault); var z := Step(Step(Step(y, Begin(id, req)), go), go);
      z.workers == y.workers[id := Worker(req, None, Done(Raised(AccessDenied)))] && z.store == y.store
  {
    var go := Advance(id, env, NoFault);
    var y1 := Step(y, Begin(id, req));
    var y2 := Step(y1, go);
    assert y1.workers[id] == Worker(req, None, Ping) && y2.workers[id] == Worker(req, None, Authorize);
    var z := Step(y2, go);
    assert z.workers[id] == Worker(req, None, Done(Raised(AccessDenied)));
    assert z.workers == y.workers[id := z.workers[id]];
  }
}
