/** What goes wrong when a lock key expires under its holder: the hypothesis of LockSafety is needed. */
module ExpiryHazards {
  import opened Wrappers
  import opened TurnEngine
  import opened SessionStores
  import opened TurnProtocol
  import opened TurnSafety
  import opened LockSafety
  import opened Schedules
  import opened SoloTurns

  /** One expiry under any live call lets the next arrival in beside it. */
  lemma ExpiryBreaksExclusion(y: System, a: WorkerId, b: WorkerId, req: Request, env: TurnEnv)
    requires a in y.workers && Live(y.workers[a]) && CanArrive(y, b, req)
    ensures var z := Exec(y, [ExpireLock] + Arrival(b, req, env));
      a != b && a in z.workers && b in z.workers && Live(z.workers[a]) && Live(z.workers[b])
  {
    ExecCons(y, ExpireLock, Arrival(b, req, env));
    ArrivalTakesLock(Step(y, ExpireLock), b, req, env);
  }

  /** Exclusion survives arrivals after an expiry exactly when the expiry respects the lock. */
  lemma RespectIsSharp(y: System, b: WorkerId, req: Request, env: TurnEnv)
    requires Respected(y) && CanArrive(y, b, req)
    ensures RespectsLock(y, ExpireLock) <==>
      var z := Exec(y, [ExpireLock] + Arrival(b, req, env));
      forall p, q | p in z.workers && q in z.workers && Live(z.workers[p]) && Live(z.workers[q]) :: p == q
  {
    RespectedInv(y);
    var z := Exec(y, [ExpireLock] + Arrival(b, req, env));
    ExecCons(y, ExpireLock, Arrival(b, req, env));
    ArrivalTakesLock(Step(y, ExpireLock), b, req, env);
    if a :| a in y.workers && Live(y.workers[a]) {
      ExpiryBreaksExclusion(y, a, b, req, env);
      assert !RespectsLock(y, ExpireLock);
    } else {
      assert forall p | p in z.workers && Live(z.workers[p]) :: p == b;
    }
  }

  /** A release that has read its token before the expiry deletes the next holder's token: the
      holder b never lost its key to expiry, and still c gets in beside it. */
  lemma StaleReleaseEvictsHolder(y: System, a: WorkerId, b: WorkerId, c: WorkerId, req: Request, env: TurnEnv)
    requires a in y.workers && Live(y.workers[a]) && y.workers[a].pc.ReleaseDelete?
    requires CanArrive(y, b, req) && CanArrive(y, c, req) && b != c
    ensures var beside := Exec(y, [ExpireLock] + Arrival(b, req, env));
      && b in beside.workers && beside.store.lock == beside.workers[b].token && Live(beside.workers[b])
      && var z := Exec(beside, [Go(a, env)] + Arrival(c, req, env));
         b in z.workers && c in z.workers && Live(z.workers[b]) && Live(z.workers[c])
  {
    ExecCons(y, ExpireLock, Arrival(b, req, env));
    ArrivalTakesLock(Step(y, ExpireLock), b, req, env);
    var beside := Exec(y, [ExpireLock] + Arrival(b, req, env));
    ExecCons(beside, Go(a, env), Arrival(c, req, env));
    ArrivalTakesLock(Step(beside, Go(a, env)), c, req, env);
  }

  /** Expiry and the arrival of b, then k awaits of b, while others wait. */
  function Overtaking(b: WorkerId, req: Request, env: TurnEnv, k: nat): seq<Event> {
    ([ExpireLock] + Arrival(b, req, env)) + Goes(b, env, k)
  }

  lemma OvertakerArrives(y: System, b: WorkerId, req: Request, env: TurnEnv)
    requires CanArrive(y, b, req)
    ensures Exec(y, [ExpireLock] + Arrival(b, req, env)) == Arrived(Step(y, ExpireLock), b, req)
  {
    ExecCons(y, ExpireLock, Arrival(b, req, env));
    ArrivalTakesLock(Step(y, ExpireLock), b, req, env);
  }

  /** A call that comes in after an expiry goes through its whole turn up to its snapshot. */
  lemma Overtakes(y: System, b: WorkerId, req: Request, env: TurnEnv, d: Draft) returns (k: nat)
    requires Contiguous(y.store.turns) && CanArrive(y, b, req) && Untaken(y.store.turns, req.key)
    requires !Asks(y.cfg, env.c)
    requires EngineTurn(y.cfg, LatestBlob(y.store.snapshots), req.message, env.c, env.engine) == Some(d)
    ensures Exec(y, Overtaking(b, req, env, k)) == Saved(Arrived(Step(y, ExpireLock), b, req), b, env, d)
  {
    var arrived := Arrived(Step(y, ExpireLock), b, req);
    OvertakerArrives(y, b, req, env);
    ArrivedBehind(y, b, req);
    k := WalkToCache(arrived, b, env, d);
    ExecConcat(y, [ExpireLock] + Arrival(b, req, env), Goes(b, env, k));
  }

  lemma ArrivedBehind(y: System, b: WorkerId, req: Request)
    requires Contiguous(y.store.turns) && CanArrive(y, b, req)
    ensures var arrived := Arrived(Step(y, ExpireLock), b, req);
      && Behind(arrived, b) && arrived.workers[b].req == req && arrived.cfg == y.cfg
      && arrived.store.turns == y.store.turns && arrived.store.snapshots == y.store.snapshots
  {
  }

  lemma SavedShows(y: System, b: WorkerId, req: Request, env: TurnEnv, d: Draft)
    requires CanArrive(y, b, req)
    ensures var z := Saved(Arrived(Step(y, ExpireLock), b, req), b, env, d);
      && z.store.snapshots == y.store.snapshots + [SnapshotRow(|y.store.turns| + 1, d.blob, d.record, b)]
      && forall a | a in y.workers :: a in z.workers && z.workers[a] == y.workers[a]
  {
  }

  /** A turn that overtakes a call a between its answer and its snapshot starts from the snapshot
      before a's; when a's snapshot arrives it is last in the table but not the latest. */
  lemma LateSaveIsLost(y: System, a: WorkerId, b: WorkerId, req: Request, env: TurnEnv, d: Draft) returns (k: nat)
    requires Respected(y) && a in y.workers && y.workers[a].pc.SaveSnapshot?
    requires CanArrive(y, b, req) && Untaken(y.store.turns, req.key)
    requires !Asks(y.cfg, env.c)
    requires EngineTurn(y.cfg, LatestBlob(y.store.snapshots), req.message, env.c, env.engine) == Some(d)
    ensures var z := Step(Exec(y, Overtaking(b, req, env, k)), Go(a, env));
      var n := |y.store.snapshots|;
      && |z.store.snapshots| == n + 2
      && z.store.snapshots[n] == SnapshotRow(|y.store.turns| + 1, d.blob, d.record, b)
      && d.record.basis == LatestBlob(y.store.snapshots)
      && z.store.snapshots[n + 1].writer == a
      && z.store.snapshots[n + 1].afterTurn < z.store.snapshots[n].afterTurn
      && LatestSnapshot(z.store.snapshots) == Some(z.store.snapshots[n])
  {
    RespectedInv(y);
    k := Overtakes(y, b, req, env, d);
    SavedShows(y, b, req, env, d);
    EngineBasis(y.cfg, LatestBlob(y.store.snapshots), req.message, env.c, env.engine);
    LateRow(y, a, Exec(y, Overtaking(b, req, env, k)), b, env, d);
  }

  lemma LateRow(y: System, a: WorkerId, y3: System, b: WorkerId, env: TurnEnv, d: Draft)
    requires LockInv(y) && a in y.workers && y.workers[a].pc.SaveSnapshot?
    requires a in y3.workers && y3.workers[a] == y.workers[a]
    requires y3.store.snapshots == y.store.snapshots + [SnapshotRow(|y.store.turns| + 1, d.blob, d.record, b)]
    ensures var z := Step(y3, Go(a, env)); var n := |y.store.snapshots|;
      && |z.store.snapshots| == n + 2
      && z.store.snapshots[n] == y3.store.snapshots[n]
      && z.store.snapshots[n + 1].writer == a
      && z.store.snapshots[n + 1].afterTurn < z.store.snapshots[n].afterTurn
      && LatestSnapshot(z.store.snapshots) == Some(z.store.snapshots[n])
  {
    var n, ti, draft := |y.store.snapshots|, y.workers[a].pc.ti, y.workers[a].pc.draft;
    var z := Step(y3, Go(a, env));
    GoSave(y3, a, env, ti, draft);
    assert z.store.snapshots == y3.store.snapshots + [SnapshotRow(ti + 1, draft.blob, draft.record, a)];
    assert LocalsOk(y.store.turns, a, y.workers[a]);
    assert forall j | 0 <= j < n :: y.store.snapshots[j].afterTurn < |y.store.turns|;
    GreatestIsLatest(z.store.snapshots, n);
  }

  lemma GreatestIsLatest(snaps: seq<SnapshotRow>, n: nat)
    requires n < |snaps| && forall j | 0 <= j < |snaps| && j != n :: snaps[j].afterTurn < snaps[n].afterTurn
    ensures LatestSnapshot(snaps) == Some(snaps[n])
  {
    var best := LatestSnapshot(snaps).value;
    var i :| 0 <= i < |snaps| && snaps[i] == best;
    assert snaps[n].afterTurn <= best.afterTurn;
  }

  /** A snapshot with a smaller index than another is never read again, in any continuation. */
  lemma SupersededForever(y: System, j: nat, n: nat, events: seq<Event>)
    requires j < |y.store.snapshots| && n < |y.store.snapshots|
    requires y.store.snapshots[j].afterTurn < y.store.snapshots[n].afterTurn
    ensures var latest := LatestSnapshot(Exec(y, events).store.snapshots);
      latest.Some? && latest.value.afterTurn >= y.store.snapshots[n].afterTurn && latest.value != y.store.snapshots[j]
  {
    RowsPersist(y, events);
    var snaps := Exec(y, events).store.snapshots;
    assert snaps[n] == y.store.snapshots[n];
  }
}
