/** What a retry of an answered key gets. */
module Replay {
  import opened Wrappers
  import opened TurnEngine
  import opened SessionStores
  import opened TurnProtocol
  import opened TurnSafety
  import opened Schedules

  /** A keyed turn whose reply is in the log. */
  ghost predicate Completed(turns: seq<TurnRow>, i: nat) {
    i + 1 < |turns| && turns[i].key.Some? && turns[i + 1].role == Assistant
  }

  /** The reply a retry of this turn deserves. */
  function Verdict(turns: seq<TurnRow>, i: nat, req: Request): Outcome
    requires i + 1 < |turns|
  {
    if turns[i].bodyHash == Some(req.bodyHash) then Returned(i, turns[i + 1].text, false)
    else Raised(IdempotencyConflict)
  }

  lemma KeyFound(turns: seq<TurnRow>, i: nat, key: string)
    requires LogOk(turns) && i < |turns| && turns[i].key == Some(key)
    ensures FindByKey(turns, key) == Some(turns[i])
  {
    var found := FindByKey(turns, key);
    var k :| 0 <= k < |turns| && turns[k] == found.value;
    assert k == i;
  }

  lemma TurnFound(turns: seq<TurnRow>, i: nat)
    requires LogOk(turns) && i < |turns|
    ensures GetTurn(turns, i) == Some(turns[i])
  {
    assert turns[i].index == i;
    var k :| 0 <= k < |turns| && turns[k] == GetTurn(turns, i).value;
  }

  // ---- Every run ---------------------------------------------------------------------------------

  /** A call with the key of turn i that has not looked it up yet. */
  ghost predicate Retries(y: System, i: nat, id: WorkerId) {
    && Completed(y.store.turns, i) && id in y.workers
    && HasKey(y.workers[id].req) && y.workers[id].req.key == y.store.turns[i].key
    && (Entering(y.workers[id].pc) || y.workers[id].pc.FindKey?)
  }

  /** How a retry may end before it releases anything. */
  predicate Settles(turns: seq<TurnRow>, i: nat, req: Request, steady: bool, o: Outcome)
    requires i + 1 < |turns|
  {
    o == Verdict(turns, i, req) || (!steady && (o == Raised(StoreFailure) || o == Raised(StorageDegraded)))
  }

  /** Before its look-up, about to read the reply, or on its way out with the verdict. A call that is
      not steady may also be on its way out with a store failure, or have stopped. */
  predicate OnTrack(owner: string, turns: seq<TurnRow>, i: nat, w: Worker, steady: bool)
    requires i + 1 < |turns|
  {
    match w.pc
    case GetReply(ti) => ti == i && turns[i].bodyHash == Some(w.req.bodyHash)
    case ReleaseGet(o) => Settles(turns, i, w.req, steady, o)
    case ReleaseDelete(o) => Settles(turns, i, w.req, steady, o)
    case Done(o) =>
      || Settles(turns, i, w.req, steady, o)
      || o == Raised(LockTimeout)
      || (o == Raised(AccessDenied) && w.req.owner != owner)
    case Crashed => !steady
    case _ => Entering(w.pc) || w.pc.FindKey?
  }

  lemma RetryReads(owner: string, s: Store, i: nat, w: Worker, steady: bool)
    requires LogOk(s.turns) && Completed(s.turns, i) && w.req.key == s.turns[i].key && HasKey(w.req)
    requires Preparing(w.pc) && OnTrack(owner, s.turns, i, w, steady)
    ensures var m := Prepare(s, w);
      OnTrack(owner, s.turns, i, m.worker, steady) && m.worker.req == w.req && m.effect == Nothing
  {
    assert s.turns[i].index == i;
    if w.pc.FindKey? {
      KeyFound(s.turns, i, s.turns[i].key.value);
    } else {
      TurnFound(s.turns, i + 1);
    }
  }

  /** The await of a retry when nothing raises. */
  lemma RetryAttempts(cfg: Settings, owner: string, s: Store, i: nat, id: WorkerId, w: Worker, env: TurnEnv,
          steady: bool)
    requires LogOk(s.turns) && Completed(s.turns, i) && w.req.key == s.turns[i].key && HasKey(w.req)
    requires OnTrack(owner, s.turns, i, w, steady)
    ensures var m := Attempt(cfg, owner, s, id, w, env);
      && OnTrack(owner, s.turns, i, m.worker, steady) && m.worker.req == w.req
      && (m.effect == Nothing || m.effect == TakeLock || m.effect == DropLock)
  {
    if Preparing(w.pc) {
      RetryReads(owner, s, i, w, steady);
    } else if Entering(w.pc) {
      assert Attempt(cfg, owner, s, id, w, env) == Enter(owner, s, w);
    }
  }

  /** One await of a retry, whatever the store holds beside its turn: it stays on track and writes no
      turn, no snapshot and no document. */
  lemma RetryMoves(cfg: Settings, owner: string, s: Store, i: nat, id: WorkerId, w: Worker, env: TurnEnv, fault: Fault,
          steady: bool)
    requires LogOk(s.turns) && Completed(s.turns, i) && w.req.key == s.turns[i].key && HasKey(w.req)
    requires OnTrack(owner, s.turns, i, w, steady) && (steady ==> fault == NoFault)
    ensures var m := MoveOf(cfg, owner, s, id, w, env, fault);
      && OnTrack(owner, s.turns, i, m.worker, steady) && m.worker.req == w.req
      && (m.effect == Nothing || m.effect == TakeLock || m.effect == DropLock)
  {
    RetryAttempts(cfg, owner, s, i, id, w, env, steady);
  }

  /** Rows that are added later change neither the verdict nor the track. */
  lemma TrackStable(owner: string, turns: seq<TurnRow>, more: seq<TurnRow>, i: nat, w: Worker, steady: bool)
    requires turns <= more && i + 1 < |turns| && OnTrack(owner, turns, i, w, steady)
    ensures OnTrack(owner, more, i, w, steady)
  {
    assert more[i] == turns[i] && more[i + 1] == turns[i + 1];
  }

  lemma RetrySteps(y: System, e: Event, i: nat, id: WorkerId, steady: bool)
    requires Inv(y) && Completed(y.store.turns, i) && id in y.workers
    requires HasKey(y.workers[id].req) && y.workers[id].req.key == y.store.turns[i].key
    requires OnTrack(y.owner, y.store.turns, i, y.workers[id], steady) && (steady ==> Steady([e], id))
    ensures var z := Step(y, e);
      && y.store.turns <= z.store.turns && Completed(z.store.turns, i) && z.owner == y.owner
      && id in z.workers && z.workers[id].req == y.workers[id].req
      && OnTrack(z.owner, z.store.turns, i, z.workers[id], steady)
  {
    assert e in [e];
    var z := Step(y, e);
    RequestKept(y, e, id);
    RowsGrow(y, e);
    if e.Advance? && e.id == id {
      RetryMoves(y.cfg, y.owner, y.store, i, id, y.workers[id], e.env, e.fault, steady);
    } else {
      TrackStable(y.owner, y.store.turns, z.store.turns, i, y.workers[id], steady);
    }
  }

  lemma RowsGrow(y: System, e: Event)
    ensures y.store.turns <= Step(y, e).store.turns && Step(y, e).owner == y.owner
  {
  }

  lemma {:induction false} RetryStaysOnTrack(y: System, events: seq<Event>, i: nat, id: WorkerId, steady: bool)
    requires Inv(y) && Completed(y.store.turns, i) && id in y.workers
    requires HasKey(y.workers[id].req) && y.workers[id].req.key == y.store.turns[i].key
    requires OnTrack(y.owner, y.store.turns, i, y.workers[id], steady) && (steady ==> Steady(events, id))
    ensures var z := Exec(y, events);
      && y.store.turns <= z.store.turns && id in z.workers && z.workers[id].req == y.workers[id].req
      && OnTrack(y.owner, z.store.turns, i, z.workers[id], steady)
    decreases |events|
  {
    if events == [] {
    } else {
      var e, rest := events[0], events[1..];
      assert e in events;
      assert Steady([e], id) || !steady;
      StepKeepsInv(y, e);
      RetrySteps(y, e, i, id, steady);
      RetryStaysOnTrack(Step(y, e), rest, i, id, steady);
    }
  }

  /** In every run, whatever the other calls do, whatever fails for them and whatever expires: a call
      with the key of a completed turn that starts before its look-up, and meets no fault itself, is
      always before its look-up, at the reply, or on its way out with the verdict. It ends with the
      verdict, or gives up waiting for the lock, or is not the owner. */
  lemma RetryGetsVerdict(y: System, i: nat, id: WorkerId, events: seq<Event>)
    requires Reachable(y) && Retries(y, i, id) && Steady(events, id)
    ensures var z := Exec(y, events);
      && id in z.workers && y.store.turns <= z.store.turns
      && OnTrack(y.owner, z.store.turns, i, z.workers[id], true)
      && (z.workers[id].pc.Done? ==>
            var o := z.workers[id].pc.outcome;
            || o == Verdict(y.store.turns, i, y.workers[id].req)
            || o == Raised(LockTimeout)
            || (o == Raised(AccessDenied) && y.workers[id].req.owner != y.owner))
  {
    ReachableInv(y);
    RetryStaysOnTrack(y, events, i, id, true);
    var z := Exec(y, events);
    assert z.store.turns[i] == y.store.turns[i] && z.store.turns[i + 1] == y.store.turns[i + 1];
  }

  /** Faults of the retry itself, and a stop of its worker, can only take the verdict away: if it
      returns a turn at all, it is the original one. */
  lemma RetryNeverReprocesses(y: System, i: nat, id: WorkerId, events: seq<Event>)
    requires Reachable(y) && Retries(y, i, id)
    ensures var z := Exec(y, events);
      && id in z.workers
      && (z.workers[id].pc.Done? && z.workers[id].pc.outcome.Returned? ==>
            z.workers[id].pc.outcome == Returned(i, y.store.turns[i + 1].text, false))
  {
    ReachableInv(y);
    RetryStaysOnTrack(y, events, i, id, false);
    var z := Exec(y, events);
    assert z.store.turns[i] == y.store.turns[i] && z.store.turns[i + 1] == y.store.turns[i + 1];
  }

  /** No step of a retry writes a turn, a snapshot or a document, in any run. */
  lemma RetryWritesNothing(y: System, i: nat, id: WorkerId, events: seq<Event>, env: TurnEnv, fault: Fault)
    requires Reachable(y) && Retries(y, i, id)
    ensures var z := Exec(y, events); var next := Step(z, Advance(id, env, fault));
      && next.store.turns == z.store.turns && next.store.snapshots == z.store.snapshots && next.store.doc == z.store.doc
  {
    ReachableInv(y);
    RetryStaysOnTrack(y, events, i, id, false);
    ReachableExec(y, events);
    var z := Exec(y, events);
    ReachableInv(z);
    assert z.store.turns[i] == y.store.turns[i] && z.store.turns[i + 1] == y.store.turns[i + 1];
    ExecKeepsOwner(y, events);
    RetryMoves(z.cfg, z.owner, z.store, i, id, z.workers[id], env, fault, false);
  }

  lemma {:induction false} ExecKeepsOwner(y: System, events: seq<Event>)
    ensures Exec(y, events).owner == y.owner
    decreases |events|
  {
    if events == [] {
    } else {
      ExecKeepsOwner(Step(y, events[0]), events[1..]);
    }
  }

  // ---- The empty key -----------------------------------------------------------------------------

  /** A key that is stored but skips the look-up, which is the empty one, is never replayed: once it is
      in the log no other call with it returns a turn, in any continuation. */
  lemma EmptyKeyNeverReturns(y: System, i: nat, id: WorkerId, events: seq<Event>)
    requires Reachable(y) && i < |y.store.turns| && y.store.turns[i].key.Some?
    requires id in y.workers && id != y.store.turns[i].writer
    requires y.workers[id].req.key == y.store.turns[i].key && !HasKey(y.workers[id].req)
    ensures var z := Exec(y, events);
      id in z.workers && (z.workers[id].pc.Done? ==> z.workers[id].pc.outcome.Raised?)
  {
    var z := Exec(y, events);
    ReachableExec(y, events);
    RowsPersist(y, events);
    RequestsPersist(y, events, id);
    assert z.store.turns[i] == y.store.turns[i];
    KeyHasOneWriter(z, i, id);
    if z.workers[id].pc.Done? && z.workers[id].pc.outcome.Returned? {
      ReturnedTurnIsOnRecord(z, id, z.workers[id].pc.outcome);
    }
  }

  /** In every run a retry that meets no fault, gets the lock and is the owner's returns the original
      turn exactly when its key is looked up at all and its fingerprint agrees. */
  lemma ReplayedExactlyWithKey(y: System, i: nat, id: WorkerId, events: seq<Event>)
    requires Reachable(y) && Completed(y.store.turns, i)
    requires id in y.workers && y.workers[id].req.key == y.store.turns[i].key && id != y.store.turns[i].writer
    requires HasKey(y.workers[id].req) ==> Entering(y.workers[id].pc) || y.workers[id].pc.FindKey?
    requires Steady(events, id)
    ensures var z := Exec(y, events);
      && id in z.workers
      && (z.workers[id].pc.Done? && z.workers[id].pc.outcome !in {Raised(LockTimeout), Raised(AccessDenied)} ==>
            (z.workers[id].pc.outcome.Returned? <==>
             HasKey(y.workers[id].req) && y.store.turns[i].bodyHash == Some(y.workers[id].req.bodyHash)))
  {
    if HasKey(y.workers[id].req) {
      RetryGetsVerdict(y, i, id, events);
    } else {
      EmptyKeyNeverReturns(y, i, id, events);
    }
  }

  // ---- A run that reaches the verdict --------------------------------------------------------------

  /** The look-up of a call whose key belongs to a completed turn. */
  lemma LookUp(y: System, i: nat, id: WorkerId, env: TurnEnv)
    requires LogOk(y.store.turns) && Completed(y.store.turns, i)
    requires id in y.workers && y.workers[id].pc == FindKey && y.workers[id].token.Some?
    requires y.workers[id].req.key == y.store.turns[i].key
    ensures Step(y, Go(id, env)) ==
      At(y, id, if y.store.turns[i].bodyHash == Some(y.workers[id].req.bodyHash) then GetReply(i)
                else ReleaseGet(Raised(IdempotencyConflict)))
  {
    KeyFound(y.store.turns, i, y.store.turns[i].key.value);
  }

  lemma Reply(y: System, i: nat, id: WorkerId, env: TurnEnv)
    requires LogOk(y.store.turns) && Completed(y.store.turns, i)
    requires id in y.workers && y.workers[id].pc == GetReply(i) && y.workers[id].token.Some?
    ensures Step(y, Go(id, env)) == At(y, id, ReleaseGet(Returned(i, y.store.turns[i + 1].text, false)))
  {
    TurnFound(y.store.turns, i + 1);
  }

  lemma Releases(y: System, id: WorkerId, env: TurnEnv, o: Outcome)
    requires id in y.workers && y.workers[id].pc == ReleaseGet(o) && y.workers[id].token.Some?
    requires y.store.lock == y.workers[id].token
    ensures Exec(y, Goes(id, env, 2)) == At(y.(store := y.store.(lock := None)), id, Done(o))
    ensures Exec(y, Goes(id, env, 3)) == Exec(y, Goes(id, env, 2))
  {
    var y1 := At(y, id, ReleaseDelete(o));
    var y2 := At(y.(store := y.store.(lock := None)), id, Done(o));
    assert Step(y, Go(id, env)) == y1;
    assert Step(y1, Go(id, env)) == y2;
    assert Step(y2, Go(id, env)) == y2;
    GoesOn(y, id, env, 1);
    GoesOn(y, id, env, 2);
    GoesOn(y1, id, env, 0);
    GoesOn(y1, id, env, 1);
    GoesOn(y2, id, env, 0);
  }

  /** In every reachable session whose lock is free, a retry of a completed key that meets no fault
      returns the original index and text when the fingerprint agrees, and is rejected when it does
      not. Either way it writes no turn, no snapshot and no document. */
  lemma RetryOfCompletedKey(y: System, i: nat, id: WorkerId, req: Request, env: TurnEnv)
    requires Reachable(y) && Completed(y.store.turns, i)
    requires CanArrive(y, id, req) && y.store.lock == None && HasKey(req) && req.key == y.store.turns[i].key
    ensures var z := Exec(y, Arrival(id, req, env) + Goes(id, env, 4));
      && z.store == y.store.(minted := y.store.minted + 1)
      && z.workers == y.workers[id := Worker(req, Some(y.store.minted), Done(Verdict(y.store.turns, i, req)))]
  {
    ReachableInv(y);
    ArrivalTakesLock(y, id, req, env);
    ExecConcat(y, Arrival(id, req, env), Goes(id, env, 4));
    AnswersRetry(Arrived(y, id, req), i, id, env);
    ArrivedThenDone(y, id, req, Verdict(y.store.turns, i, req));
  }

  lemma ArrivedThenDone(y: System, id: WorkerId, req: Request, o: Outcome)
    requires CanArrive(y, id, req)
    ensures var z := Arrived(y, id, req);
      At(z.(store := z.store.(lock := None)), id, Done(o)).workers
        == y.workers[id := Worker(req, Some(y.store.minted), Done(o))]
  {
  }

  /** The call looks up its key and releases the lock with the verdict. */
  lemma AnswersRetry(y: System, i: nat, id: WorkerId, env: TurnEnv)
    requires LogOk(y.store.turns) && Completed(y.store.turns, i)
    requires id in y.workers && y.workers[id].pc == FindKey && y.workers[id].token.Some?
    requires y.store.lock == y.workers[id].token && y.workers[id].req.key == y.store.turns[i].key
    ensures Exec(y, Goes(id, env, 4)) ==
      At(y.(store := y.store.(lock := None)), id, Done(Verdict(y.store.turns, i, y.workers[id].req)))
  {
    var o := Verdict(y.store.turns, i, y.workers[id].req);
    LookUp(y, i, id, env);
    GoesOn(y, id, env, 3);
    if o.Returned? {
      Replays(At(y, id, GetReply(i)), i, id, env);
    } else {
      Releases(At(y, id, ReleaseGet(o)), id, env, o);
    }
    AtAgain(y, id, GetReply(i), Done(o));
    AtAgain(y, id, ReleaseGet(o), Done(o));
  }

  lemma AtAgain(y: System, id: WorkerId, pc: Pc, last: Pc)
    requires id in y.workers
    ensures At(At(y, id, pc).(store := y.store.(lock := None)), id, last) ==
        At(y.(store := y.store.(lock := None)), id, last)
  {
    var w := y.workers[id];
    assert y.workers[id := w.(pc := pc)][id := w.(pc := last)] == y.workers[id := w.(pc := last)];
  }

  lemma Replays(y: System, i: nat, id: WorkerId, env: TurnEnv)
    requires LogOk(y.store.turns) && Completed(y.store.turns, i)
    requires id in y.workers && y.workers[id].pc == GetReply(i) && y.workers[id].token.Some?
    requires y.store.lock == y.workers[id].token
    ensures Exec(y, Goes(id, env, 3)) ==
      At(y.(store := y.store.(lock := None)), id, Done(Returned(i, y.store.turns[i + 1].text, false)))
  {
    var o := Returned(i, y.store.turns[i + 1].text, false);
    Reply(y, i, id, env);
    GoesOn(y, id, env, 2);
    Releases(At(y, id, ReleaseGet(o)), id, env, o);
    AtAgain(y, id, ReleaseGet(o), Done(o));
  }
}
