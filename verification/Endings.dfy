/** How a call ends that finds the lock held, its key abandoned, or an await that fails. */
module Endings {
  import opened Wrappers
  import opened TurnEngine
  import opened SessionStores
  import opened TurnProtocol
  import opened TurnSafety
  import opened LockSafety
  import opened Schedules
  import opened SoloTurns
  import opened Replay
  import opened Reachability

  // ---- A lock that is held ---------------------------------------------------------------------------

  lemma {:induction false} Waits(y: System, id: WorkerId, env: TurnEnv, n: nat)
    requires id in y.workers && y.workers[id].pc == Acquire(0) && y.store.lock.Some? && n <= 200
    ensures Walks(y, id, env, n, At(y, id, if n < 200 then Acquire(n) else Done(Raised(LockTimeout))))
  {
    if n == 0 {
      assert y.workers[id := y.workers[id].(pc := Acquire(0))] == y.workers;
      assert Goes(id, env, 0) == [];
    } else {
      Waits(y, id, env, n - 1);
      var waiting := At(y, id, Acquire(n - 1));
      var next := if n < 200 then Acquire(n) else Done(Raised(LockTimeout));
      assert Step(waiting, Go(id, env)) == At(waiting, id, next);
      AtTwice(y, id, Acquire(n - 1), next);
      WalkNext(y, id, env, n - 1, waiting, At(y, id, next));
    }
  }

  lemma EntersQueue(y: System, id: WorkerId, req: Request, env: TurnEnv)
    requires CanArrive(y, id, req)
    ensures Exec(y, [Begin(id, req), Go(id, env), Go(id, env)])
         == y.(workers := y.workers[id := Worker(req, None, Acquire(0))])
  {
    var y1 := Step(y, Begin(id, req));
    var y2 := Step(y1, Go(id, env));
    assert y2.workers[id] == Worker(req, None, Authorize);
    var y3 := Step(y2, Go(id, env));
    assert y3.workers == y.workers[id := Worker(req, None, Acquire(0))] && y3.store == y.store;
    ExecOne(y2, Go(id, env));
    ExecCons(y1, Go(id, env), [Go(id, env)]);
    ExecCons(y, Begin(id, req), [Go(id, env), Go(id, env)]);
    assert [Go(id, env)] + [Go(id, env)] == [Go(id, env), Go(id, env)];
    assert [Begin(id, req)] + [Go(id, env), Go(id, env)] == [Begin(id, req), Go(id, env), Go(id, env)];
  }

  /** A call that finds the lock held tries two hundred times, no more and no fewer, and then gives up.
      It holds no token and leaves the stores as they were. */
  lemma WaitsTwoHundredTimes(y: System, id: WorkerId, req: Request, env: TurnEnv, n: nat)
    requires CanArrive(y, id, req) && y.store.lock.Some? && n <= 200
    ensures var z := Exec(y, [Begin(id, req), Go(id, env), Go(id, env)] + Goes(id, env, n));
      && z.store == y.store
      && z.workers == y.workers[id := Worker(req, None, if n < 200 then Acquire(n) else Done(Raised(LockTimeout)))]
  {
    EntersQueue(y, id, req, env);
    var y3 := y.(workers := y.workers[id := Worker(req, None, Acquire(0))]);
    ExecConcat(y, [Begin(id, req), Go(id, env), Go(id, env)], Goes(id, env, n));
    Waits(y3, id, env, n);
  }

  // ---- A key that is abandoned -----------------------------------------------------------------------

  lemma FindsAbandoned(y: System, i: nat, id: WorkerId, env: TurnEnv)
    requires LogOk(y.store.turns) && Abandoned(y, i)
    requires id in y.workers && y.workers[id].pc == FindKey && y.workers[id].token.Some?
    requires y.workers[id].req.key == y.store.turns[i].key
    ensures Step(y, Go(id, env)) ==
      At(y, id, if y.store.turns[i].bodyHash == Some(y.workers[id].req.bodyHash) then GetReply(i)
                else ReleaseGet(Raised(IdempotencyConflict)))
  {
    KeyFound(y.store.turns, i, y.store.turns[i].key.value);
  }

  lemma FindsNoReply(y: System, i: nat, id: WorkerId, env: TurnEnv)
    requires LogOk(y.store.turns) && Abandoned(y, i)
    requires id in y.workers && y.workers[id].pc == GetReply(i)
    ensures Step(y, Go(id, env)) == At(y, id, LoadSnapshot)
  {
    if i + 1 < |y.store.turns| { TurnFound(y.store.turns, i + 1); }
  }

  /** An undisturbed retry of an abandoned key falls through the replay and meets the unique
      constraint, or is rejected for its fingerprint. Either way it adds no row. */
  lemma AbandonedKeyCollides(y: System, i: nat, id: WorkerId, req: Request, env: TurnEnv) returns (k: nat)
    requires Reachable(y) && Abandoned(y, i)
    requires CanArrive(y, id, req) && y.store.lock == None && HasKey(req) && req.key == y.store.turns[i].key
    ensures var z := Exec(y, Turn(id, req, env, k));
      && id in z.workers
      && z.workers[id].pc == Done(Raised(
           if y.store.turns[i].bodyHash == Some(req.bodyHash) then IntegrityError else IdempotencyConflict))
      && z.store.turns == y.store.turns && z.store.snapshots == y.store.snapshots && z.store.lock == None
  {
    ReachableInv(y);
    ArrivedIsBehind(y, id, req);
    var arrived := Arrived(y, id, req);
    assert Abandoned(arrived, i);
    FindsAbandoned(arrived, i, id, env);
    assert Walks(arrived, id, env, 0, arrived);
    if y.store.turns[i].bodyHash == Some(req.bodyHash) {
      k := CollidesAfterReads(arrived, i, id, env);
      TurnWalks(y, id, req, env, k, At(Unlocked(Reloaded(arrived)), id, Done(Raised(IntegrityError))));
    } else {
      var o := Raised(IdempotencyConflict);
      WalkNext(arrived, id, env, 0, arrived, At(arrived, id, ReleaseGet(o)));
      WalkOut(arrived, id, env, 1, arrived, o);
      k := 3;
      TurnWalks(y, id, req, env, k, At(Unlocked(arrived), id, Done(o)));
    }
  }

  lemma CollidesAfterReads(y: System, i: nat, id: WorkerId, env: TurnEnv) returns (k: nat)
    requires Behind(y, id) && LogOk(y.store.turns) && Abandoned(y, i) && y.store.lock == y.workers[id].token
    requires y.workers[id].req.key == y.store.turns[i].key && Step(y, Go(id, env)) == At(y, id, GetReply(i))
    ensures Walks(y, id, env, k, At(Unlocked(Reloaded(y)), id, Done(Raised(IntegrityError))))
  {
    assert Walks(y, id, env, 0, y);
    WalkNext(y, id, env, 0, y, At(y, id, GetReply(i)));
    FindsNoReply(At(y, id, GetReply(i)), i, id, env);
    AtTwice(y, id, GetReply(i), LoadSnapshot);
    WalkNext(y, id, env, 1, At(y, id, GetReply(i)), At(y, id, LoadSnapshot));
    k := WalkThroughReads(y, id, env, 2);
    k := Collides(y, id, env, k);
  }

  // ---- An await that fails -----------------------------------------------------------------------------

  /** A failing await before the lock ends the call at once, and the error tells whether the lock
      service was down. */
  lemma FailsOutside(y: System, id: WorkerId, env: TurnEnv, fault: Fault)
    requires id in y.workers && y.workers[id].token == None && !Stopped(y.workers[id].pc) && fault != NoFault
    ensures var z := Step(y, Advance(id, env, fault));
      z.workers[id].pc == Done(Raised(if y.workers[id].pc.Ping? then StorageDegraded else StoreFailure))
  {
  }

  lemma LeavesLockAlone(cfg: Settings, owner: string, s: Store, id: WorkerId, w: Worker, env: TurnEnv)
    requires !Entering(w.pc) && !Releasing(w.pc)
    ensures Perform(s, Attempt(cfg, owner, s, id, w, env).effect).lock == s.lock
  {
  }

  /** A failing await under the lock releases it: with nobody else at work, two awaits later the lock is
      free, the call has raised, and the tables hold what they held when it failed. */
  lemma FailsUnderLock(y: System, id: WorkerId, env: TurnEnv, fault: Fault)
    requires id in y.workers && Live(y.workers[id]) && !Releasing(y.workers[id].pc) && fault != NoFault
    requires !Entering(y.workers[id].pc) && y.store.lock == y.workers[id].token
    ensures var failed := Step(y, Advance(id, env, fault)); var z := Step(Step(failed, Go(id, env)), Go(id, env));
      && z.store == failed.store.(lock := None)
      && z.workers == y.workers[id := y.workers[id].(pc := Done(Raised(StoreFailure)))]
      && (fault == FailsBefore ==> failed.store == y.store)
      && (fault == FailsAfter ==> failed.store == Step(y, Go(id, env)).store)
  {
    var failed := Step(y, Advance(id, env, fault));
    var o := Raised(StoreFailure);
    assert failed.workers == y.workers[id := y.workers[id].(pc := ReleaseGet(o))];
    LeavesLockAlone(y.cfg, y.owner, y.store, id, y.workers[id], env);
    assert Step(failed, Go(id, env)) == At(failed, id, ReleaseDelete(o));
    var y2 := At(failed, id, ReleaseDelete(o));
    assert Step(y2, Go(id, env)) == At(Unlocked(y2), id, Done(o));
    AtTwice(failed, id, ReleaseDelete(o), Done(o));
  }

  /** A call whose release fails leaves the lock to its time to live, unless the delete went through. */
  lemma FailsInRelease(y: System, id: WorkerId, env: TurnEnv, fault: Fault)
    requires id in y.workers && Releasing(y.workers[id].pc) && fault != NoFault
    ensures var z := Step(y, Advance(id, env, fault));
      && z.workers[id].pc == Done(Raised(StoreFailure))
      && z.store == (if fault == FailsAfter && y.workers[id].pc.ReleaseDelete? then y.store.(lock := None) else y.store)
  {
  }

  /** A call whose token is not in the lock when it looks leaves the lock alone. */
  lemma LeavesForeignLock(y: System, id: WorkerId, env: TurnEnv, o: Outcome)
    requires id in y.workers && y.workers[id].pc == ReleaseGet(o) && y.store.lock != y.workers[id].token
    ensures Step(y, Go(id, env)) == At(y, id, Done(o))
  {
  }
}
