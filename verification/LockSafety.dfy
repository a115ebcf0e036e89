/** What holds in addition when no lock key expires while its holder is still running. */
module LockSafety {
  import opened Wrappers
  import opened ResearchNodes
  import opened Routing
  import opened ConversationMerge
  import opened TurnEngine
  import opened SessionStores
  import opened TurnProtocol
  import opened TurnSafety

  /** Between the acquisition of a token and the end of its release. */
  predicate Live(w: Worker) { w.token.Some? && !Stopped(w.pc) }

  /** The lock key may expire only when it is not the token of a live call. */
  ghost predicate RespectsLock(y: System, e: Event) {
    e == ExpireLock ==> forall id | id in y.workers && Live(y.workers[id]) :: y.workers[id].token != y.store.lock
  }

  ghost predicate RespectsRun(y: System, events: seq<Event>)
    decreases |events|
  {
    events == [] || (RespectsLock(y, events[0]) && RespectsRun(Step(y, events[0]), events[1..]))
  }

  // ---- Tokens, in every run ----------------------------------------------------------------

  ghost predicate TokensOk(y: System) {
    && (y.store.lock.Some? ==> y.store.lock.value < y.store.minted)
    && (forall id | id in y.workers :: y.workers[id].token.Some? ==> y.workers[id].token.value < y.store.minted)
    && (forall id | id in y.workers :: Entering(y.workers[id].pc) ==> y.workers[id].token == None)
    && (forall id | id in y.workers :: !Entering(y.workers[id].pc) && !Stopped(y.workers[id].pc) ==>
        y.workers[id].token.Some?)
    && (forall a, b | a in y.workers && b in y.workers && a != b && y.workers[a].token.Some? ::
          y.workers[a].token != y.workers[b].token)
  }

  /** A move keeps the token, or takes a new one along with the lock. */
  lemma MoveToken(cfg: Settings, owner: string, s: Store, id: WorkerId, w: Worker, env: TurnEnv, fault: Fault)
    requires Entering(w.pc) ==> w.token == None
    requires !Entering(w.pc) && !Stopped(w.pc) ==> w.token.Some?
    ensures var m := MoveOf(cfg, owner, s, id, w, env, fault);
      && (m.worker.token == w.token || (m.effect == TakeLock && m.worker.token == Some(s.minted)))
      && (m.effect == TakeLock ==> Entering(w.pc) && s.lock == None)
      && (m.effect == DropLock ==> w.pc.ReleaseDelete?)
      && (Entering(m.worker.pc) ==> m.worker.token == None && Entering(w.pc))
      && (!Entering(m.worker.pc) && !Stopped(m.worker.pc) ==> m.worker.token.Some?)
      && (Stopped(w.pc) ==> m.worker == w && m.effect == Nothing)
      && (Entering(w.pc) ==> m.effect == TakeLock || m.effect == Nothing)
  {
  }

  /** A call that moves as `MoveToken` says keeps the tokens in order. */
  lemma MoveKeepsTokens(y: System, id: WorkerId, m: Move)
    requires TokensOk(y) && id in y.workers
    requires m.worker.token == y.workers[id].token || (m.effect == TakeLock && m.worker.token == Some(y.store.minted))
    requires Entering(m.worker.pc) ==> m.worker.token == None
    requires !Entering(m.worker.pc) && !Stopped(m.worker.pc) ==> m.worker.token.Some?
    ensures TokensOk(y.(store := Perform(y.store, m.effect), workers := y.workers[id := m.worker]))
  {
  }

  lemma StepKeepsTokens(y: System, e: Event)
    requires TokensOk(y)
    ensures TokensOk(Step(y, e))
  {
    if e.Advance? && e.id in y.workers {
      MoveToken(y.cfg, y.owner, y.store, e.id, y.workers[e.id], e.env, e.fault);
      MoveKeepsTokens(y, e.id, MoveOf(y.cfg, y.owner, y.store, e.id, y.workers[e.id], e.env, e.fault));
    }
  }

  // ---- The lock belongs to its holder --------------------------------------------------------

  ghost predicate Held(y: System) {
    forall id | id in y.workers && Live(y.workers[id]) :: y.store.lock == y.workers[id].token
  }

  lemma StepKeepsHeld(y: System, e: Event)
    requires TokensOk(y) && Held(y) && RespectsLock(y, e)
    ensures Held(Step(y, e))
  {
    if e.Advance? && e.id in y.workers {
      MoveToken(y.cfg, y.owner, y.store, e.id, y.workers[e.id], e.env, e.fault);
    }
  }

  /** At most one call is between acquire and release. */
  lemma OneHolder(y: System, a: WorkerId, b: WorkerId)
    requires TokensOk(y) && Held(y)
    requires a in y.workers && b in y.workers && Live(y.workers[a]) && Live(y.workers[b])
    ensures a == b
  {
  }

  // ---- What the holder knows about the tables ------------------------------------------------

  /** The blob of the n-th snapshot; none before the first. */
  function BlobAt(snaps: seq<SnapshotRow>, n: nat): Option<StateBlob>
    requires n <= |snaps|
  {
    if n == 0 then None else Some(snaps[n - 1].blob)
  }

  /** The snapshot was computed from the previous one and comes later in the log. */
  ghost predicate Follows(snaps: seq<SnapshotRow>, j: nat)
    requires j < |snaps|
  {
    && snaps[j].record.basis == BlobAt(snaps, j)
    && (j > 0 ==> snaps[j - 1].afterTurn < snaps[j].afterTurn)
  }

  ghost predicate Chained(snaps: seq<SnapshotRow>) {
    forall j: nat | j < |snaps| :: Follows(snaps, j)
  }

  lemma {:induction false} ChainIncreases(snaps: seq<SnapshotRow>, i: nat, j: nat)
    requires Chained(snaps) && i < j < |snaps|
    ensures snaps[i].afterTurn < snaps[j].afterTurn
  {
    assert Follows(snaps, j);
    if i < j - 1 { ChainIncreases(snaps, i, j - 1); }
  }

  /** In a chain the latest snapshot is the last one saved. */
  lemma LatestIsLast(snaps: seq<SnapshotRow>)
    requires Chained(snaps)
    ensures LatestBlob(snaps) == BlobAt(snaps, |snaps|)
    ensures snaps != [] ==> LatestSnapshot(snaps) == Some(snaps[|snaps| - 1])
  {
    if snaps != [] {
      var last := |snaps| - 1;
      forall i | 0 <= i < last
        ensures snaps[i].afterTurn < snaps[last].afterTurn
      {
        ChainIncreases(snaps, i, last);
      }
      var best := LatestSnapshot(snaps).value;
      assert snaps[last].afterTurn <= best.afterTurn;
    }
  }

  /** The working document shows the snapshot it was written for. */
  ghost predicate DocOk(s: Store) {
    s.doc.Some? ==> s.doc.value.covers <= |s.snapshots| && s.doc.value.blob == BlobAt(s.snapshots, s.doc.value.covers)
  }

  ghost predicate HolderOk(s: Store, pc: Pc) {
    match pc
    case GetDoc(snap) => snap == BlobAt(s.snapshots, |s.snapshots|)
    case ReloadDoc(snap) => snap == BlobAt(s.snapshots, |s.snapshots|)
    case NextIndex(snap) => snap == BlobAt(s.snapshots, |s.snapshots|)
    case AppendUser(snap, ti) => snap == BlobAt(s.snapshots, |s.snapshots|) && |s.turns| == ti
    case Classify(snap, ti) => snap == BlobAt(s.snapshots, |s.snapshots|) && |s.turns| == ti + 1
    case AppendClarify(snap, ti) => snap == BlobAt(s.snapshots, |s.snapshots|) && |s.turns| == ti + 1
    case CacheClarify(snap, ti) => snap == BlobAt(s.snapshots, |s.snapshots|)
    case RunEngine(snap, ti, _) => snap == BlobAt(s.snapshots, |s.snapshots|) && |s.turns| == ti + 1
    case AppendAssistant(ti, _, d) => d.record.basis == BlobAt(s.snapshots, |s.snapshots|) && |s.turns| == ti + 1
    case SaveSnapshot(ti, d) =>
      && d.record.basis == BlobAt(s.snapshots, |s.snapshots|)
      && (forall j | 0 <= j < |s.snapshots| :: s.snapshots[j].afterTurn < ti + 1)
    case CacheDoc(ti, d) => BlobAt(s.snapshots, |s.snapshots|) == Some(d.blob)
    case _ => true
  }

  ghost predicate SessionOk(s: Store) {
    && LogOk(s.turns) && Chained(s.snapshots) && DocOk(s)
    && forall j | 0 <= j < |s.snapshots| :: s.snapshots[j].afterTurn < |s.turns|
  }

  ghost predicate HolderMoveOk(s: Store, m: Move) {
    var after := Perform(s, m.effect);
    && Chained(after.snapshots) && DocOk(after)
    && (forall j | 0 <= j < |after.snapshots| :: after.snapshots[j].afterTurn < |after.turns|)
    && HolderOk(after, m.worker.pc)
  }

  lemma DocWritten(s: Store, doc: Doc)
    requires SessionOk(s) && doc.covers == |s.snapshots| && doc.blob == BlobAt(s.snapshots, |s.snapshots|)
    ensures DocOk(Perform(s, WriteDoc(doc)))
  {
  }

  /** The next snapshot extends the chain, and leaves the document showing the one before. */
  lemma SaveExtendsChain(s: Store, row: SnapshotRow)
    requires Chained(s.snapshots) && DocOk(s) && row.record.basis == BlobAt(s.snapshots, |s.snapshots|)
    requires forall j | 0 <= j < |s.snapshots| :: s.snapshots[j].afterTurn < row.afterTurn
    ensures Chained(s.snapshots + [row]) && DocOk(Perform(s, AddSnapshot(row)))
  {
    var after := s.snapshots + [row];
    forall j: nat | j < |after|
      ensures Follows(after, j)
    {
      assert BlobAt(after, j) == BlobAt(s.snapshots, j);
      if j < |s.snapshots| { assert Follows(s.snapshots, j); }
    }
  }

  lemma HolderPrepares(s: Store, w: Worker)
    requires SessionOk(s) && HolderOk(s, w.pc) && Preparing(w.pc)
    ensures HolderMoveOk(s, Prepare(s, w))
  {
    var m := Prepare(s, w);
    if w.pc.LoadSnapshot? {
      LatestIsLast(s.snapshots);
      assert m == Goto(w, GetDoc(BlobAt(s.snapshots, |s.snapshots|)));
    } else if w.pc.ReloadDoc? {
      DocWritten(s, Doc(w.pc.snap, None, |s.snapshots|));
      assert m.worker.pc == NextIndex(w.pc.snap);
    } else if w.pc.NextIndex? {
      NextIndexIsLength(s.turns);
      assert m == Goto(w, AppendUser(w.pc.snap, |s.turns|));
    } else if w.pc.GetDoc? {
      assert m == Goto(w, ReloadDoc(w.pc.snap)) || m == Goto(w, NextIndex(w.pc.snap));
    } else {
      assert m.effect == Nothing &&
          (m.worker.pc.LoadSnapshot? || m.worker.pc.GetReply? || Releasing(m.worker.pc) || Stopped(m.worker.pc));
    }
  }

  /** Under the lock the next index is free: only a key can make the user row collide. */
  lemma NoIndexTaken(turns: seq<TurnRow>, row: TurnRow)
    requires Contiguous(turns) && row.index == |turns|
    ensures Violates(turns, row) <==> row.key.Some? && exists i | 0 <= i < |turns| :: turns[i].key == row.key
  {
    assert forall i | 0 <= i < |turns| :: turns[i].index == i;
  }

  lemma HolderOpens(cfg: Settings, s: Store, id: WorkerId, w: Worker, env: TurnEnv)
    requires w.pc.AppendUser? || w.pc.Classify? || w.pc.AppendClarify? || w.pc.CacheClarify?
    requires SessionOk(s) && HolderOk(s, w.pc)
    ensures HolderMoveOk(s, Open(cfg, s, id, w, env))
  {
    var m := Open(cfg, s, id, w, env);
    if w.pc.AppendUser? {
      assert m == Move(AddTurn(UserRow(w.pc.ti, w.req, id)), w.(pc := Classify(w.pc.snap, w.pc.ti)))
        || m == Move(Nothing, Abort(w, IntegrityError));
    } else if w.pc.AppendClarify? {
      var row := AssistantRow(w.pc.ti, CLARIFY_MESSAGE, NeedsClarification, w.req, id);
      assert
        || m == Move(AddTurn(row), w.(pc := CacheClarify(w.pc.snap, w.pc.ti)))
        || m == Move(Nothing, Abort(w, IntegrityError));
    } else if w.pc.Classify? {
      assert m == Goto(w, AppendClarify(w.pc.snap, w.pc.ti)) || m == Goto(w, RunEngine(w.pc.snap, w.pc.ti, env.c));
    } else {
      DocWritten(s, Doc(w.pc.snap, Some(w.pc.ti + 1), |s.snapshots|));
      assert m.worker.pc.ReleaseGet?;
    }
  }

  lemma HolderResponds(cfg: Settings, s: Store, id: WorkerId, w: Worker, env: TurnEnv)
    requires w.pc.RunEngine? || w.pc.AppendAssistant?
    requires SessionOk(s) && HolderOk(s, w.pc)
    ensures HolderMoveOk(s, Respond(cfg, s, id, w, env))
  {
    if w.pc.AppendAssistant? {
      var row := AssistantRow(w.pc.ti, w.pc.draft.text, w.pc.intent, w.req, id);
      NoIndexTaken(s.turns, row);
      assert Respond(cfg, s, id, w, env) == Move(AddTurn(row), w.(pc := SaveSnapshot(w.pc.ti, w.pc.draft)));
    } else {
      EngineBasis(cfg, w.pc.snap, w.req.message, w.pc.c, env.engine);
    }
  }

  lemma EngineBasis(cfg: Settings, snap: Option<StateBlob>, message: string, c: Classification, envs: seq<Env>)
    ensures var d := EngineTurn(cfg, snap, message, c, envs); d.Some? ==> d.value.record.basis == snap
  {
  }

  lemma HolderPersists(s: Store, id: WorkerId, w: Worker)
    requires w.pc.SaveSnapshot? || w.pc.CacheDoc?
    requires SessionOk(s) && HolderOk(s, w.pc)
    requires w.pc.SaveSnapshot? ==> w.pc.ti + 1 < |s.turns|
    ensures HolderMoveOk(s, Persist(s, id, w))
  {
    var m := Persist(s, id, w);
    var d := w.pc.draft;
    if w.pc.SaveSnapshot? {
      var row := SnapshotRow(w.pc.ti + 1, d.blob, d.record, id);
      SaveExtendsChain(s, row);
      assert m == Move(AddSnapshot(row), w.(pc := CacheDoc(w.pc.ti, d)));
    } else {
      DocWritten(s, Doc(Some(d.blob), Some(w.pc.ti + 1), |s.snapshots|));
      assert m.worker.pc.ReleaseGet?;
    }
  }

  /** What the holder does next keeps the session a chain, and keeps its own knowledge current. */
  lemma HolderMoves(cfg: Settings, owner: string, s: Store, id: WorkerId, w: Worker, env: TurnEnv, fault: Fault)
    requires SessionOk(s) && HolderOk(s, w.pc) && LocalsOk(s.turns, id, w) && !Entering(w.pc)
    ensures HolderMoveOk(s, MoveOf(cfg, owner, s, id, w, env, fault))
  {
    if Stopped(w.pc) {
    } else if Preparing(w.pc) {
      HolderPrepares(s, w);
    } else if Releasing(w.pc) {
    } else if w.pc.RunEngine? || w.pc.AppendAssistant? {
      HolderResponds(cfg, s, id, w, env);
    } else if w.pc.SaveSnapshot? || w.pc.CacheDoc? {
      HolderPersists(s, id, w);
    } else {
      HolderOpens(cfg, s, id, w, env);
    }
  }

  // ---- One step of a lock-respecting run -------------------------------------------------------

  ghost predicate HoldersOk(y: System) {
    forall id | id in y.workers && Live(y.workers[id]) :: HolderOk(y.store, y.workers[id].pc)
  }

  ghost predicate LockInv(y: System) {
    Inv(y) && TokensOk(y) && Held(y) && SessionOk(y.store) && HoldersOk(y)
  }

  lemma SnapshotsBehindLog(y: System)
    requires Inv(y)
    ensures forall j | 0 <= j < |y.store.snapshots| :: y.store.snapshots[j].afterTurn < |y.store.turns|
  {
    forall j | 0 <= j < |y.store.snapshots|
      ensures y.store.snapshots[j].afterTurn < |y.store.turns|
    {
      assert SnapshotOk(y.store.turns, y.store.snapshots[j]);
    }
  }

  /** A live call moves alone. */
  lemma HolderSteps(y: System, id: WorkerId, env: TurnEnv, fault: Fault)
    requires LockInv(y) && id in y.workers && Live(y.workers[id])
    ensures var z := Step(y, Advance(id, env, fault)); Chained(z.store.snapshots) && DocOk(z.store) && HoldersOk(z)
  {
    var w := y.workers[id];
    HolderMoves(y.cfg, y.owner, y.store, id, w, env, fault);
    MoveToken(y.cfg, y.owner, y.store, id, w, env, fault);
    var z := Step(y, Advance(id, env, fault));
    forall other | other in z.workers && Live(z.workers[other])
      ensures HolderOk(z.store, z.workers[other].pc)
    {
      if other != id { OneHolder(y, id, other); }
    }
  }

  /** A call that is not live leaves the tables alone; if it takes the lock, no call was live. */
  lemma OutsiderSteps(y: System, id: WorkerId, env: TurnEnv, fault: Fault)
    requires LockInv(y) && id in y.workers && !Live(y.workers[id])
    ensures var z := Step(y, Advance(id, env, fault)); Chained(z.store.snapshots) && DocOk(z.store) && HoldersOk(z)
  {
    var w := y.workers[id];
    MoveToken(y.cfg, y.owner, y.store, id, w, env, fault);
    var m := MoveOf(y.cfg, y.owner, y.store, id, w, env, fault);
    var z := Step(y, Advance(id, env, fault));
    if Entering(w.pc) { EntersFresh(y.cfg, y.owner, y.store, id, w, env, fault); }
    forall other | other in z.workers && Live(z.workers[other])
      ensures HolderOk(z.store, z.workers[other].pc)
    {
      assert other != id ==> Live(y.workers[other]) && z.workers[other] == y.workers[other];
      assert other != id ==> z.store.snapshots == y.store.snapshots && z.store.turns == y.store.turns;
    }
  }

  lemma EntersFresh(cfg: Settings, owner: string, s: Store, id: WorkerId, w: Worker, env: TurnEnv, fault: Fault)
    requires Entering(w.pc) && w.token == None
    ensures var m := MoveOf(cfg, owner, s, id, w, env, fault);
      Live(m.worker) ==> m.worker.pc == FindKey || m.worker.pc == LoadSnapshot
  {
  }

  lemma StepKeepsHolders(y: System, e: Event)
    requires LockInv(y) && RespectsLock(y, e)
    ensures var z := Step(y, e); Chained(z.store.snapshots) && DocOk(z.store) && HoldersOk(z)
  {
    if e.Advance? && e.id in y.workers {
      if Live(y.workers[e.id]) {
        HolderSteps(y, e.id, e.env, e.fault);
      } else {
        OutsiderSteps(y, e.id, e.env, e.fault);
      }
    }
  }

  lemma StepKeepsLockInv(y: System, e: Event)
    requires LockInv(y) && RespectsLock(y, e)
    ensures LockInv(Step(y, e))
  {
    StepKeepsInv(y, e);
    StepKeepsTokens(y, e);
    StepKeepsHeld(y, e);
    StepKeepsHolders(y, e);
    SnapshotsBehindLog(Step(y, e));
  }

  lemma {:induction false} RunKeepsLockInv(y: System, events: seq<Event>)
    requires LockInv(y) && RespectsRun(y, events)
    ensures LockInv(Exec(y, events))
    decreases |events|
  {
    if events == [] {
    } else {
      StepKeepsLockInv(y, events[0]);
      RunKeepsLockInv(Step(y, events[0]), events[1..]);
    }
  }

  // ---- Main results over lock-respecting runs --------------------------------------------------

  /** A state reached by a run of a created session that respects the lock. */
  ghost predicate Respected(y: System) {
    exists cfg, owner, events: seq<Event> ::
      RespectsRun(Created(cfg, owner), events) && Exec(Created(cfg, owner), events) == y
  }

  lemma RespectedInv(y: System)
    requires Respected(y)
    ensures LockInv(y)
  {
    var cfg, owner, events: seq<Event> :|
      RespectsRun(Created(cfg, owner), events) && Exec(Created(cfg, owner), events) == y;
    RunKeepsLockInv(Created(cfg, owner), events);
  }

  /** At most one call per session is between acquire and release. */
  lemma MutualExclusion(y: System, a: WorkerId, b: WorkerId)
    requires Respected(y)
    requires a in y.workers && b in y.workers && Live(y.workers[a]) && Live(y.workers[b])
    ensures a == b && y.store.lock == y.workers[a].token
  {
    RespectedInv(y);
    OneHolder(y, a, b);
  }

  /** The delete at the end of a release finds the token the get has seen: its own. */
  lemma ReleaseRemovesOwnToken(y: System, id: WorkerId, env: TurnEnv)
    requires Respected(y) && id in y.workers && Live(y.workers[id]) && Releasing(y.workers[id].pc)
    ensures var z := Step(y, Advance(id, env, NoFault));
      && y.store.lock == y.workers[id].token
      && (y.workers[id].pc.ReleaseGet? ==> z.workers[id].pc.ReleaseDelete? && z.store == y.store)
      && (y.workers[id].pc.ReleaseDelete? ==> z.workers[id].pc.Done? && z.store == y.store.(lock := None))
  {
    RespectedInv(y);
  }

  /** No append ever collides on the turn index: a user row is refused exactly when its key is
      taken, an assistant row never. */
  lemma NoIndexCollision(y: System, id: WorkerId)
    requires Respected(y) && id in y.workers && Live(y.workers[id])
    ensures var w := y.workers[id]; var turns := y.store.turns;
      && (w.pc.AppendUser? ==>
            (Violates(turns, UserRow(w.pc.ti, w.req, id)) <==>
             w.req.key.Some? && exists i | 0 <= i < |turns| :: turns[i].key == w.req.key))
      && (w.pc.AppendClarify? ==>
          !Violates(turns, AssistantRow(w.pc.ti, CLARIFY_MESSAGE, NeedsClarification, w.req, id)))
      && (w.pc.AppendAssistant? ==> !Violates(turns, AssistantRow(w.pc.ti, w.pc.draft.text, w.pc.intent, w.req, id)))
  {
    RespectedInv(y);
    var w := y.workers[id];
    assert HolderOk(y.store, w.pc);
    if w.pc.AppendUser? {
      NoIndexTaken(y.store.turns, UserRow(w.pc.ti, w.req, id));
    } else if w.pc.AppendClarify? {
      NoIndexTaken(y.store.turns, AssistantRow(w.pc.ti, CLARIFY_MESSAGE, NeedsClarification, w.req, id));
    } else if w.pc.AppendAssistant? {
      NoIndexTaken(y.store.turns, AssistantRow(w.pc.ti, w.pc.draft.text, w.pc.intent, w.req, id));
    }
  }

  /** Snapshot indices strictly increase, each snapshot was computed from the one before it, the
      latest is the last saved, and a working document shows the snapshot it was written for. */
  lemma SnapshotsFormChain(y: System)
    requires Respected(y)
    ensures Chained(y.store.snapshots)
    ensures LatestBlob(y.store.snapshots) == BlobAt(y.store.snapshots, |y.store.snapshots|)
    ensures y.store.doc.Some? ==>
      var doc := y.store.doc.value;
      doc.covers <= |y.store.snapshots| && doc.blob == BlobAt(y.store.snapshots, doc.covers)
  {
    RespectedInv(y);
    LatestIsLast(y.store.snapshots);
  }

  /** Every snapshot that is saved is followed by the write of the working document. */
  ghost predicate CachesSaves(y: System, e: Event) {
    match e
    case Advance(id, _, fault) =>
      id in y.workers ==>
        && (y.workers[id].pc.SaveSnapshot? ==> fault != FailsAfter)
        && (y.workers[id].pc.CacheDoc? ==> fault != FailsBefore)
    case Crash(id) => id in y.workers ==> !y.workers[id].pc.CacheDoc?
    case _ => true
  }

  ghost predicate CachingRun(y: System, events: seq<Event>)
    decreases |events|
  {
    events == [] || (CachesSaves(y, events[0]) && CachingRun(Step(y, events[0]), events[1..]))
  }

  /** The document is current unless the last save is still to be cached. */
  ghost predicate DocCurrent(y: System) {
    y.store.doc.Some? ==>
      || y.store.doc.value.covers == |y.store.snapshots|
      || exists id :: id in y.workers && Live(y.workers[id]) && y.workers[id].pc.CacheDoc?
  }

  lemma WritesAreCurrent(cfg: Settings, owner: string, s: Store, id: WorkerId, w: Worker, env: TurnEnv, fault: Fault)
    ensures var m := MoveOf(cfg, owner, s, id, w, env, fault);
      && (m.effect.WriteDoc? ==> m.effect.doc.covers == |s.snapshots|)
      && (m.effect.AddSnapshot? ==> w.pc.SaveSnapshot?)
      && (w.pc.SaveSnapshot? && fault == NoFault ==> m.worker == w.(pc := CacheDoc(w.pc.ti, w.pc.draft)))
      && (w.pc.CacheDoc? && fault != FailsBefore ==> m.effect.WriteDoc?)
  {
    if Preparing(w.pc) {
      assert !Prepare(s, w).effect.AddSnapshot?;
      assert Prepare(s, w).effect.WriteDoc? ==> Prepare(s, w).effect.doc.covers == |s.snapshots|;
    }
  }

  lemma StepKeepsDocCurrent(y: System, e: Event)
    requires LockInv(y) && RespectsLock(y, e) && CachesSaves(y, e) && DocCurrent(y)
    ensures DocCurrent(Step(y, e))
  {
    var z := Step(y, e);
    if e.Advance? && e.id in y.workers {
      var w := y.workers[e.id];
      WritesAreCurrent(y.cfg, y.owner, y.store, e.id, w, e.env, e.fault);
      if w.pc.SaveSnapshot? && e.fault == NoFault {
        assert Live(z.workers[e.id]) && z.workers[e.id].pc.CacheDoc?;
      }
    }
    if y.store.doc.Some? && y.store.doc.value.covers != |y.store.snapshots| {
      var id :| id in y.workers && Live(y.workers[id]) && y.workers[id].pc.CacheDoc?;
      CacherStays(y, e, id);
    }
  }

  /** A save still to be cached waits for its own call, which nobody overtakes. */
  lemma CacherStays(y: System, e: Event, id: WorkerId)
    requires LockInv(y) && CachesSaves(y, e)
    requires id in y.workers && Live(y.workers[id]) && y.workers[id].pc.CacheDoc?
    ensures var z := Step(y, e);
      || (z.store.doc.Some? && z.store.doc.value.covers == |z.store.snapshots|)
      || (id in z.workers && Live(z.workers[id]) && z.workers[id].pc.CacheDoc?)
  {
    if e.Advance? && e.id == id {
      WritesAreCurrent(y.cfg, y.owner, y.store, id, y.workers[id], e.env, e.fault);
    }
  }

  lemma {:induction false} RunKeepsDocCurrent(y: System, events: seq<Event>)
    requires LockInv(y) && DocCurrent(y) && RespectsRun(y, events) && CachingRun(y, events)
    ensures LockInv(Exec(y, events)) && DocCurrent(Exec(y, events))
    decreases |events|
  {
    if events == [] {
    } else {
      StepKeepsLockInv(y, events[0]);
      StepKeepsDocCurrent(y, events[0]);
      RunKeepsDocCurrent(Step(y, events[0]), events[1..]);
    }
  }

  /** In a lock-respecting run whose saves are all cached, whenever no call is between acquire and
      release a present working document holds the latest snapshot, or nothing when there is none. */
  lemma IdleDocIsLatest(cfg: Settings, owner: string, events: seq<Event>)
    requires RespectsRun(Created(cfg, owner), events) && CachingRun(Created(cfg, owner), events)
    ensures var y := Exec(Created(cfg, owner), events);
      y.store.doc.Some? && (forall id | id in y.workers :: !Live(y.workers[id])) ==>
        y.store.doc.value.blob == LatestBlob(y.store.snapshots)
  {
    RunKeepsDocCurrent(Created(cfg, owner), events);
    LatestIsLast(Exec(Created(cfg, owner), events).store.snapshots);
  }
}
