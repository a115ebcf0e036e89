/** One call going on by itself, with no fault, from its arrival to its snapshot or its release. */
module SoloTurns {
  import opened Wrappers
  import opened Routing
  import opened ConversationMerge
  import opened TurnEngine
  import opened SessionStores
  import opened TurnProtocol
  import opened TurnSafety
  import opened LockSafety
  import opened Schedules

  // ---- One await -----------------------------------------------------------------------------------

  function WithTurn(y: System, row: TurnRow): System {
    y.(store := y.store.(turns := y.store.turns + [row]))
  }

  function WithSnapshot(y: System, row: SnapshotRow): System {
    y.(store := y.store.(snapshots := y.store.snapshots + [row]))
  }

  function WithDoc(y: System, doc: Doc): System {
    y.(store := y.store.(doc := Some(doc)))
  }

  /** The assistant row of a turn that only asks for clarification. */
  function ClarifyRow(y: System, b: WorkerId, ti: nat): TurnRow
    requires b in y.workers
  {
    AssistantRow(ti, CLARIFY_MESSAGE, NeedsClarification, y.workers[b].req, b)
  }

  function Unlocked(y: System): System {
    y.(store := y.store.(lock := None))
  }

  /** The key of a request is in nobody's row; NULL never is. */
  predicate Untaken(turns: seq<TurnRow>, key: Option<string>) {
    key.Some? ==> forall i | 0 <= i < |turns| :: turns[i].key != key
  }

  /** The working document after the reload, if the snapshot asks for one. */
  function Reloaded(y: System): System {
    var snap := LatestBlob(y.store.snapshots);
    if y.store.doc == None && snap.Some? then
      y.(store := y.store.(doc := Some(Doc(snap, None, |y.store.snapshots|))))
    else y
  }

  lemma GoFindKey(y: System, b: WorkerId, env: TurnEnv)
    requires b in y.workers && y.workers[b].pc.FindKey? && y.workers[b].req.key.Some?
    requires Untaken(y.store.turns, y.workers[b].req.key)
    ensures Step(y, Go(b, env)) == At(y, b, LoadSnapshot)
  {
    assert FindByKey(y.store.turns, y.workers[b].req.key.value) == None;
  }

  lemma GoLoad(y: System, b: WorkerId, env: TurnEnv)
    requires b in y.workers && y.workers[b].pc.LoadSnapshot?
    ensures Step(y, Go(b, env)) == At(y, b, GetDoc(LatestBlob(y.store.snapshots)))
  {
  }

  lemma GoGetDoc(y: System, b: WorkerId, env: TurnEnv, snap: Option<StateBlob>)
    requires b in y.workers && y.workers[b].pc == GetDoc(snap)
    ensures Step(y, Go(b, env)) ==
        At(y, b, if y.store.doc == None && snap.Some? then ReloadDoc(snap) else NextIndex(snap))
  {
  }

  lemma GoReload(y: System, b: WorkerId, env: TurnEnv)
    requires b in y.workers && y.workers[b].pc == ReloadDoc(LatestBlob(y.store.snapshots))
    requires y.store.doc == None && y.store.snapshots != []
    ensures Step(y, Go(b, env)) == At(Reloaded(y), b, NextIndex(LatestBlob(y.store.snapshots)))
  {
  }

  lemma GoNextIndex(y: System, b: WorkerId, env: TurnEnv, snap: Option<StateBlob>)
    requires b in y.workers && y.workers[b].pc == NextIndex(snap) && Contiguous(y.store.turns)
    ensures Step(y, Go(b, env)) == At(y, b, AppendUser(snap, |y.store.turns|))
  {
    NextIndexIsLength(y.store.turns);
  }

  /** The user row goes in exactly when its key is in no row. */
  lemma GoAppendUser(y: System, b: WorkerId, env: TurnEnv, snap: Option<StateBlob>)
    requires b in y.workers && y.workers[b].pc == AppendUser(snap, |y.store.turns|) && y.workers[b].token.Some?
    requires Contiguous(y.store.turns)
    ensures Step(y, Go(b, env)) ==
      if Untaken(y.store.turns, y.workers[b].req.key) then
        At(WithTurn(y, UserRow(|y.store.turns|, y.workers[b].req, b)), b, Classify(snap, |y.store.turns|))
      else At(y, b, ReleaseGet(Raised(IntegrityError)))
  {
    NoIndexTaken(y.store.turns, UserRow(|y.store.turns|, y.workers[b].req, b));
  }

  lemma GoClassify(y: System, b: WorkerId, env: TurnEnv, snap: Option<StateBlob>, ti: nat)
    requires b in y.workers && y.workers[b].pc == Classify(snap, ti)
    ensures Step(y, Go(b, env)) ==
      At(y, b, if Asks(y.cfg, env.c) then AppendClarify(snap, ti)
        else RunEngine(snap, ti, env.c))
  {
    AsksExactly(y.cfg, snap, env.c);
  }

  lemma GoAppendClarify(y: System, b: WorkerId, env: TurnEnv, snap: Option<StateBlob>, ti: nat)
    requires b in y.workers && y.workers[b].pc == AppendClarify(snap, ti)
    requires |y.store.turns| == ti + 1 && Contiguous(y.store.turns)
    ensures Step(y, Go(b, env)) == At(WithTurn(y, ClarifyRow(y, b, ti)), b, CacheClarify(snap, ti))
  {
    NoIndexTaken(y.store.turns, ClarifyRow(y, b, ti));
  }

  lemma GoCacheClarify(y: System, b: WorkerId, env: TurnEnv, snap: Option<StateBlob>, ti: nat)
    requires b in y.workers && y.workers[b].pc == CacheClarify(snap, ti)
    ensures Step(y, Go(b, env)) ==
      At(WithDoc(y, Doc(snap, Some(ti + 1), |y.store.snapshots|)), b, ReleaseGet(Returned(ti, CLARIFY_MESSAGE, true)))
  {
  }

  lemma DraftMove(cfg: Settings, owner: string, s: Store, b: WorkerId, w: Worker, env: TurnEnv,
                  snap: Option<StateBlob>, ti: nat, d: Option<Draft>)
    requires w.pc == RunEngine(snap, ti, env.c) && w.token.Some?
    requires EngineTurn(cfg, snap, w.req.message, env.c, env.engine) == d
    ensures MoveOf(cfg, owner, s, b, w, env, NoFault) ==
      Move(Nothing, w.(pc := if d == None then ReleaseGet(Raised(EngineFailure))
                             else AppendAssistant(ti, env.c.intent, d.value)))
  {
    assert Attempt(cfg, owner, s, b, w, env) == Respond(cfg, s, b, w, env);
  }

  lemma GoEngine(y: System, b: WorkerId, env: TurnEnv, snap: Option<StateBlob>, ti: nat, d: Option<Draft>)
    requires b in y.workers && y.workers[b].pc == RunEngine(snap, ti, env.c) && y.workers[b].token.Some?
    requires EngineTurn(y.cfg, snap, y.workers[b].req.message, env.c, env.engine) == d
    ensures Step(y, Go(b, env)) ==
      At(y, b, if d == None then ReleaseGet(Raised(EngineFailure)) else AppendAssistant(ti, env.c.intent, d.value))
  {
    DraftMove(y.cfg, y.owner, y.store, b, y.workers[b], env, snap, ti, d);
  }

  lemma GoAppendAssistant(y: System, b: WorkerId, env: TurnEnv, intent: Intent, ti: nat, d: Draft)
    requires b in y.workers && y.workers[b].pc == AppendAssistant(ti, intent, d)
    requires |y.store.turns| == ti + 1 && Contiguous(y.store.turns)
    ensures Step(y, Go(b, env)) ==
      At(WithTurn(y, AssistantRow(ti, d.text, intent, y.workers[b].req, b)), b, SaveSnapshot(ti, d))
  {
    NoIndexTaken(y.store.turns, AssistantRow(ti, d.text, intent, y.workers[b].req, b));
  }

  lemma GoSave(y: System, b: WorkerId, env: TurnEnv, ti: nat, d: Draft)
    requires b in y.workers && y.workers[b].pc == SaveSnapshot(ti, d)
    ensures Step(y, Go(b, env)) == At(WithSnapshot(y, SnapshotRow(ti + 1, d.blob, d.record, b)), b, CacheDoc(ti, d))
  {
  }

  lemma GoCacheDoc(y: System, b: WorkerId, env: TurnEnv, ti: nat, d: Draft)
    requires b in y.workers && y.workers[b].pc == CacheDoc(ti, d)
    ensures Step(y, Go(b, env)) ==
      At(WithDoc(y, Doc(Some(d.blob), Some(ti + 1), |y.store.snapshots|)), b, ReleaseGet(Returned(ti, d.text, true)))
  {
  }

  lemma GoReleaseGet(y: System, b: WorkerId, env: TurnEnv, o: Outcome)
    requires b in y.workers && y.workers[b].pc == ReleaseGet(o) && y.store.lock == y.workers[b].token
    ensures Step(y, Go(b, env)) == At(y, b, ReleaseDelete(o))
  {
  }

  lemma GoReleaseDelete(y: System, b: WorkerId, env: TurnEnv, o: Outcome)
    requires b in y.workers && y.workers[b].pc == ReleaseDelete(o)
    ensures Step(y, Go(b, env)) == At(Unlocked(y), b, Done(o))
  {
  }

  // ---- Several awaits --------------------------------------------------------------------------------

  /** `z` is where the call is after k awaits from `y`. */
  ghost predicate Walks(y: System, b: WorkerId, env: TurnEnv, k: nat, z: System) {
    Exec(y, Goes(b, env, k)) == z
  }

  lemma WalkNext(y: System, b: WorkerId, env: TurnEnv, k: nat, z: System, next: System)
    requires Walks(y, b, env, k, z) && Step(z, Go(b, env)) == next
    ensures Walks(y, b, env, k + 1, next)
  {
    GoesSnoc(b, env, k);
    ExecConcat(y, Goes(b, env, k), [Go(b, env)]);
    ExecOne(z, Go(b, env));
  }

  lemma {:induction false} GoesSnoc(b: WorkerId, env: TurnEnv, k: nat)
    ensures Goes(b, env, k + 1) == Goes(b, env, k) + [Go(b, env)]
  {
    if k == 0 {
      assert Goes(b, env, 0) == [];
    } else {
      GoesSnoc(b, env, k - 1);
    }
  }

  lemma AtTwice(y: System, b: WorkerId, pc: Pc, next: Pc)
    requires b in y.workers
    ensures At(At(y, b, pc), b, next) == At(y, b, next)
  {
    var w := y.workers[b];
    assert y.workers[b := w.(pc := pc)][b := w.(pc := next)] == y.workers[b := w.(pc := next)];
  }

  /** An arrived call, just behind the lock. */
  ghost predicate Behind(y: System, b: WorkerId) {
    && b in y.workers && y.workers[b].token.Some?
    && y.workers[b].pc == (if HasKey(y.workers[b].req) then FindKey else LoadSnapshot)
    && Contiguous(y.store.turns)
  }

  /** Where the call stands before it inserts its user row. */
  function Ready(y: System, b: WorkerId): System
    requires b in y.workers
  {
    At(Reloaded(y), b, AppendUser(LatestBlob(y.store.snapshots), |y.store.turns|))
  }

  lemma WalkToLoad(y: System, b: WorkerId, env: TurnEnv) returns (k: nat)
    requires Behind(y, b) && (HasKey(y.workers[b].req) ==> Untaken(y.store.turns, y.workers[b].req.key))
    ensures Walks(y, b, env, k, At(y, b, LoadSnapshot))
  {
    k := 0;
    assert Walks(y, b, env, 0, y);
    if HasKey(y.workers[b].req) {
      GoFindKey(y, b, env);
      WalkNext(y, b, env, 0, y, At(y, b, LoadSnapshot));
      k := 1;
    } else {
      AtSame(y, b);
    }
  }

  lemma AtSame(y: System, b: WorkerId)
    requires b in y.workers
    ensures At(y, b, y.workers[b].pc) == y
  {
    assert y.workers[b := y.workers[b].(pc := y.workers[b].pc)] == y.workers;
  }

  lemma WalkToReady(y: System, b: WorkerId, env: TurnEnv) returns (k: nat)
    requires Behind(y, b) && (HasKey(y.workers[b].req) ==> Untaken(y.store.turns, y.workers[b].req.key))
    ensures Walks(y, b, env, k, Ready(y, b))
  {
    k := WalkToLoad(y, b, env);
    k := WalkThroughReads(y, b, env, k);
  }

  lemma WalkThroughReads(y: System, b: WorkerId, env: TurnEnv, j: nat) returns (k: nat)
    requires b in y.workers && Contiguous(y.store.turns) && Walks(y, b, env, j, At(y, b, LoadSnapshot))
    ensures Walks(y, b, env, k, Ready(y, b))
  {
    var snap := LatestBlob(y.store.snapshots);
    var y1, y2 := At(y, b, GetDoc(snap)), At(Reloaded(y), b, NextIndex(snap));
    GoLoad(At(y, b, LoadSnapshot), b, env);
    AtTwice(y, b, LoadSnapshot, GetDoc(snap));
    WalkNext(y, b, env, j, At(y, b, LoadSnapshot), y1);
    k := WalkThroughDoc(y, b, env, j + 1);
    GoNextIndex(y2, b, env, snap);
    AtTwice(Reloaded(y), b, NextIndex(snap), AppendUser(snap, |y.store.turns|));
    WalkNext(y, b, env, k, y2, Ready(y, b));
    k := k + 1;
  }

  lemma WalkThroughDoc(y: System, b: WorkerId, env: TurnEnv, j: nat) returns (k: nat)
    requires b in y.workers && Walks(y, b, env, j, At(y, b, GetDoc(LatestBlob(y.store.snapshots))))
    ensures Walks(y, b, env, k, At(Reloaded(y), b, NextIndex(LatestBlob(y.store.snapshots))))
  {
    var snap := LatestBlob(y.store.snapshots);
    var y1 := At(y, b, GetDoc(snap));
    GoGetDoc(y1, b, env, snap);
    if y.store.doc == None && snap.Some? {
      var y2 := At(y, b, ReloadDoc(snap));
      AtTwice(y, b, GetDoc(snap), ReloadDoc(snap));
      WalkNext(y, b, env, j, y1, y2);
      GoReload(y2, b, env);
      AtTwice(Reloaded(y), b, ReloadDoc(snap), NextIndex(snap));
      WalkNext(y, b, env, j + 1, y2, At(Reloaded(y), b, NextIndex(snap)));
      k := j + 2;
    } else {
      AtTwice(y, b, GetDoc(snap), NextIndex(snap));
      WalkNext(y, b, env, j, y1, At(y, b, NextIndex(snap)));
      k := j + 1;
    }
  }

  /** The store with the user row of the call, which stands at `pc`. */
  function Posted(y: System, b: WorkerId, pc: Pc): System
    requires b in y.workers
  {
    At(WithTurn(Reloaded(y), UserRow(|y.store.turns|, y.workers[b].req, b)), b, pc)
  }

  lemma PostWhenReady(y: System, b: WorkerId, env: TurnEnv, k: nat)
    requires b in y.workers && y.workers[b].token.Some? && Walks(y, b, env, k, Ready(y, b))
    requires Contiguous(y.store.turns) && Untaken(y.store.turns, y.workers[b].req.key)
    ensures Walks(y, b, env, k + 1, Posted(y, b, Classify(LatestBlob(y.store.snapshots), |y.store.turns|)))
  {
    var pc := Classify(LatestBlob(y.store.snapshots), |y.store.turns|);
    GoAppendUser(Ready(y, b), b, env, LatestBlob(y.store.snapshots));
    PostedFromReady(y, b, pc);
    WalkNext(y, b, env, k, Ready(y, b), Posted(y, b, pc));
  }

  lemma AskWhenPosted(y: System, b: WorkerId, env: TurnEnv, k: nat, snap: Option<StateBlob>, ti: nat)
    requires b in y.workers && Walks(y, b, env, k, Posted(y, b, Classify(snap, ti)))
    requires !Asks(y.cfg, env.c)
    ensures Walks(y, b, env, k + 1, Posted(y, b, RunEngine(snap, ti, env.c)))
  {
    GoClassify(Posted(y, b, Classify(snap, ti)), b, env, snap, ti);
    PostedAgain(y, b, Classify(snap, ti), RunEngine(snap, ti, env.c));
    WalkNext(y, b, env, k, Posted(y, b, Classify(snap, ti)), Posted(y, b, RunEngine(snap, ti, env.c)));
  }

  /** A call whose key is in nobody's row inserts its user row and asks the engine. */
  lemma WalkToEngine(y: System, b: WorkerId, env: TurnEnv) returns (k: nat)
    requires Behind(y, b) && Untaken(y.store.turns, y.workers[b].req.key)
    requires !Asks(y.cfg, env.c)
    ensures Walks(y, b, env, k, Posted(y, b, RunEngine(LatestBlob(y.store.snapshots), |y.store.turns|, env.c)))
  {
    k := WalkToReady(y, b, env);
    PostWhenReady(y, b, env, k);
    AskWhenPosted(y, b, env, k + 1, LatestBlob(y.store.snapshots), |y.store.turns|);
    k := k + 2;
  }

  lemma PostedFromReady(y: System, b: WorkerId, pc: Pc)
    requires b in y.workers
    ensures At(WithTurn(Ready(y, b), UserRow(|y.store.turns|, y.workers[b].req, b)), b, pc) == Posted(y, b, pc)
  {
    var row := UserRow(|y.store.turns|, y.workers[b].req, b);
    assert WithTurn(Ready(y, b), row) == At(WithTurn(Reloaded(y), row), b, Ready(y, b).workers[b].pc);
    AtTwice(WithTurn(Reloaded(y), row), b, Ready(y, b).workers[b].pc, pc);
  }

  lemma PostedAgain(y: System, b: WorkerId, pc: Pc, next: Pc)
    requires b in y.workers
    ensures At(Posted(y, b, pc), b, next) == Posted(y, b, next)
  {
    AtTwice(WithTurn(Reloaded(y), UserRow(|y.store.turns|, y.workers[b].req, b)), b, pc, next);
  }

  /** What the engine makes of an arrived call. */
  function DraftFor(y: System, b: WorkerId, env: TurnEnv): Option<Draft>
    requires b in y.workers
  {
    EngineTurn(y.cfg, LatestBlob(y.store.snapshots), y.workers[b].req.message, env.c, env.engine)
  }

  lemma WalkThroughEngine(y: System, b: WorkerId, env: TurnEnv) returns (k: nat)
    requires Behind(y, b) && Untaken(y.store.turns, y.workers[b].req.key)
    requires !Asks(y.cfg, env.c)
    ensures var d := DraftFor(y, b, env);
      Walks(y, b, env, k, Posted(y, b, if d == None then ReleaseGet(Raised(EngineFailure))
                                       else AppendAssistant(|y.store.turns|, env.c.intent, d.value)))
  {
    var snap, ti, d := LatestBlob(y.store.snapshots), |y.store.turns|, DraftFor(y, b, env);
    var asked := Posted(y, b, RunEngine(snap, ti, env.c));
    var pc := if d == None then ReleaseGet(Raised(EngineFailure)) else AppendAssistant(ti, env.c.intent, d.value);
    k := WalkToEngine(y, b, env);
    GoEngine(asked, b, env, snap, ti, d);
    PostedAgain(y, b, RunEngine(snap, ti, env.c), pc);
    WalkNext(y, b, env, k, asked, Posted(y, b, pc));
    k := k + 1;
  }

  /** The store with both rows of the call, which is about to save its snapshot. */
  function Saving(y: System, b: WorkerId, env: TurnEnv, d: Draft): System
    requires b in y.workers
  {
    var ti, req := |y.store.turns|, y.workers[b].req;
    At(WithTurn(WithTurn(Reloaded(y), UserRow(ti, req, b)), AssistantRow(ti, d.text, env.c.intent, req, b)),
       b, SaveSnapshot(ti, d))
  }

  lemma SaveWhenAnswered(y: System, b: WorkerId, env: TurnEnv, d: Draft, k: nat)
    requires b in y.workers && Contiguous(y.store.turns)
    requires Walks(y, b, env, k, Posted(y, b, AppendAssistant(|y.store.turns|, env.c.intent, d)))
    ensures Walks(y, b, env, k + 1, Saving(y, b, env, d))
  {
    var ti := |y.store.turns|;
    var from := Posted(y, b, AppendAssistant(ti, env.c.intent, d));
    GoAppendAssistant(from, b, env, env.c.intent, ti, d);
    SavingFromPosted(y, b, env, d);
    WalkNext(y, b, env, k, from, Saving(y, b, env, d));
  }

  lemma WalkToSave(y: System, b: WorkerId, env: TurnEnv, d: Draft) returns (k: nat)
    requires Behind(y, b) && Untaken(y.store.turns, y.workers[b].req.key)
    requires !Asks(y.cfg, env.c)
    requires DraftFor(y, b, env) == Some(d)
    ensures Walks(y, b, env, k, Saving(y, b, env, d))
  {
    k := WalkThroughEngine(y, b, env);
    SaveWhenAnswered(y, b, env, d, k);
    k := k + 1;
  }

  lemma SavingFromPosted(y: System, b: WorkerId, env: TurnEnv, d: Draft)
    requires b in y.workers
    ensures var ti := |y.store.turns|; var pc := AppendAssistant(ti, env.c.intent, d);
      At(WithTurn(Posted(y, b, pc), AssistantRow(ti, d.text, env.c.intent, y.workers[b].req, b)), b,
        SaveSnapshot(ti, d))
        == Saving(y, b, env, d)
  {
    var ti, req := |y.store.turns|, y.workers[b].req;
    var row, open := AssistantRow(ti, d.text, env.c.intent, req, b), WithTurn(Reloaded(y), UserRow(ti, req, b));
    var pc := AppendAssistant(ti, env.c.intent, d);
    assert WithTurn(At(open, b, pc), row) == At(WithTurn(open, row), b, pc);
    AtTwice(WithTurn(open, row), b, pc, SaveSnapshot(ti, d));
  }

  /** The snapshot of the call is in. */
  function Saved(y: System, b: WorkerId, env: TurnEnv, d: Draft): System
    requires b in y.workers
  {
    At(WithSnapshot(Saving(y, b, env, d), SnapshotRow(|y.store.turns| + 1, d.blob, d.record, b)),
       b, CacheDoc(|y.store.turns|, d))
  }

  lemma WalkToCache(y: System, b: WorkerId, env: TurnEnv, d: Draft) returns (k: nat)
    requires Behind(y, b) && Untaken(y.store.turns, y.workers[b].req.key)
    requires !Asks(y.cfg, env.c)
    requires DraftFor(y, b, env) == Some(d)
    ensures Walks(y, b, env, k, Saved(y, b, env, d))
  {
    k := WalkToSave(y, b, env, d);
    GoSave(Saving(y, b, env, d), b, env, |y.store.turns|, d);
    WalkNext(y, b, env, k, Saving(y, b, env, d), Saved(y, b, env, d));
    k := k + 1;
  }

  /** From the get of its release a call that still holds the lock is done two awaits later. */
  lemma WalkOut(y: System, b: WorkerId, env: TurnEnv, k: nat, z: System, o: Outcome)
    requires b in z.workers && Walks(y, b, env, k, At(z, b, ReleaseGet(o))) && z.store.lock == z.workers[b].token
    ensures Walks(y, b, env, k + 1, At(z, b, ReleaseDelete(o)))
    ensures Walks(y, b, env, k + 2, At(Unlocked(z), b, Done(o)))
  {
    GoReleaseGet(At(z, b, ReleaseGet(o)), b, env, o);
    AtTwice(z, b, ReleaseGet(o), ReleaseDelete(o));
    WalkNext(y, b, env, k, At(z, b, ReleaseGet(o)), At(z, b, ReleaseDelete(o)));
    GoReleaseDelete(At(z, b, ReleaseDelete(o)), b, env, o);
    AtTwice(Unlocked(z), b, ReleaseDelete(o), Done(o));
    assert Unlocked(At(z, b, ReleaseDelete(o))) == At(Unlocked(z), b, ReleaseDelete(o));
    WalkNext(y, b, env, k + 1, At(z, b, ReleaseDelete(o)), At(Unlocked(z), b, Done(o)));
  }

  // ---- Whole turns -----------------------------------------------------------------------------------

  /** The call has its user row and its clarification, and is out. */
  function Clarified(y: System, b: WorkerId): System
    requires b in y.workers
  {
    var snap, ti := LatestBlob(y.store.snapshots), |y.store.turns|;
    var asked := WithTurn(Posted(y, b, CacheClarify(snap, ti)), ClarifyRow(y, b, ti));
    At(Unlocked(WithDoc(asked, Doc(snap, Some(ti + 1), |y.store.snapshots|))), b,
      Done(Returned(ti, CLARIFY_MESSAGE, true)))
  }

  lemma WalkThroughClarification(y: System, b: WorkerId, env: TurnEnv) returns (k: nat)
    requires Behind(y, b) && Untaken(y.store.turns, y.workers[b].req.key) && y.store.lock == y.workers[b].token
    requires Asks(y.cfg, env.c)
    ensures Walks(y, b, env, k, Clarified(y, b))
  {
    k := WalkToReady(y, b, env);
    PostWhenReady(y, b, env, k);
    ClarifyWhenPosted(y, b, env, k + 1);
    LeaveWhenClarified(y, b, env, k + 3);
    k := k + 6;
  }

  lemma ClarifyWhenPosted(y: System, b: WorkerId, env: TurnEnv, k: nat)
    requires b in y.workers && Contiguous(y.store.turns)
    requires Walks(y, b, env, k, Posted(y, b, Classify(LatestBlob(y.store.snapshots), |y.store.turns|)))
    requires Asks(y.cfg, env.c)
    ensures var snap, ti := LatestBlob(y.store.snapshots), |y.store.turns|;
      Walks(y, b, env, k + 2, WithTurn(Posted(y, b, CacheClarify(snap, ti)), ClarifyRow(y, b, ti)))
  {
    var snap, ti := LatestBlob(y.store.snapshots), |y.store.turns|;
    var asked, asking := Posted(y, b, AppendClarify(snap, ti)), Posted(y, b, Classify(snap, ti));
    GoClassify(asking, b, env, snap, ti);
    PostedAgain(y, b, Classify(snap, ti), AppendClarify(snap, ti));
    WalkNext(y, b, env, k, asking, asked);
    GoAppendClarify(asked, b, env, snap, ti);
    PostedWithTurn(y, b, AppendClarify(snap, ti), CacheClarify(snap, ti), ClarifyRow(y, b, ti));
    WalkNext(y, b, env, k + 1, asked, WithTurn(Posted(y, b, CacheClarify(snap, ti)), ClarifyRow(y, b, ti)));
  }

  lemma PostedWithTurn(y: System, b: WorkerId, pc: Pc, next: Pc, row: TurnRow)
    requires b in y.workers
    ensures At(WithTurn(Posted(y, b, pc), row), b, next) == WithTurn(Posted(y, b, next), row)
  {
    PostedAgain(y, b, pc, next);
    assert At(WithTurn(Posted(y, b, pc), row), b, next) == WithTurn(At(Posted(y, b, pc), b, next), row);
  }

  lemma LeaveWhenClarified(y: System, b: WorkerId, env: TurnEnv, k: nat)
    requires b in y.workers && y.store.lock == y.workers[b].token
    requires var snap, ti := LatestBlob(y.store.snapshots), |y.store.turns|;
      Walks(y, b, env, k, WithTurn(Posted(y, b, CacheClarify(snap, ti)), ClarifyRow(y, b, ti)))
    ensures Walks(y, b, env, k + 3, Clarified(y, b))
  {
    var snap, ti := LatestBlob(y.store.snapshots), |y.store.turns|;
    var asked := WithTurn(Posted(y, b, CacheClarify(snap, ti)), ClarifyRow(y, b, ti));
    var cached, o := WithDoc(asked, Doc(snap, Some(ti + 1), |y.store.snapshots|)), Returned(ti, CLARIFY_MESSAGE, true);
    GoCacheClarify(asked, b, env, snap, ti);
    WalkNext(y, b, env, k, asked, At(cached, b, ReleaseGet(o)));
    WalkOut(y, b, env, k + 1, cached, o);
  }

  /** The call has both rows, its snapshot and its document, and is out. */
  function Replied(y: System, b: WorkerId, env: TurnEnv, d: Draft): System
    requires b in y.workers
  {
    var ti := |y.store.turns|;
    At(Unlocked(WithDoc(Saved(y, b, env, d), Doc(Some(d.blob), Some(ti + 1), |y.store.snapshots| + 1))), b,
       Done(Returned(ti, d.text, true)))
  }

  lemma WalkThroughAnswer(y: System, b: WorkerId, env: TurnEnv, d: Draft) returns (k: nat)
    requires Behind(y, b) && Untaken(y.store.turns, y.workers[b].req.key) && y.store.lock == y.workers[b].token
    requires !Asks(y.cfg, env.c)
    requires DraftFor(y, b, env) == Some(d)
    ensures Walks(y, b, env, k, Replied(y, b, env, d))
  {
    k := WalkToCache(y, b, env, d);
    LeaveWhenSaved(y, b, env, d, k);
    k := k + 3;
  }

  lemma SavedKeepsLock(y: System, b: WorkerId, env: TurnEnv, d: Draft)
    requires b in y.workers
    ensures var saved := Saved(y, b, env, d);
      && b in saved.workers && saved.workers[b] == y.workers[b].(pc := CacheDoc(|y.store.turns|, d))
      && saved.store.lock == y.store.lock && |saved.store.snapshots| == |y.store.snapshots| + 1
  {
  }

  lemma LeaveWhenSaved(y: System, b: WorkerId, env: TurnEnv, d: Draft, k: nat)
    requires b in y.workers && y.store.lock == y.workers[b].token && Walks(y, b, env, k, Saved(y, b, env, d))
    ensures Walks(y, b, env, k + 3, Replied(y, b, env, d))
  {
    var ti, saved := |y.store.turns|, Saved(y, b, env, d);
    var cached, o := WithDoc(saved, Doc(Some(d.blob), Some(ti + 1), |y.store.snapshots| + 1)),
        Returned(ti, d.text, true);
    SavedKeepsLock(y, b, env, d);
    GoCacheDoc(saved, b, env, ti, d);
    WalkNext(y, b, env, k, saved, At(cached, b, ReleaseGet(o)));
    WalkOut(y, b, env, k + 1, cached, o);
  }

  /** The call has its user row, no answer, and is out. */
  function Refused(y: System, b: WorkerId): System
    requires b in y.workers
  {
    At(Unlocked(Posted(y, b, ReleaseGet(Raised(EngineFailure)))), b, Done(Raised(EngineFailure)))
  }

  lemma WalkThroughRefusal(y: System, b: WorkerId, env: TurnEnv) returns (k: nat)
    requires Behind(y, b) && Untaken(y.store.turns, y.workers[b].req.key) && y.store.lock == y.workers[b].token
    requires !Asks(y.cfg, env.c)
    requires DraftFor(y, b, env) == None
    ensures Walks(y, b, env, k, Refused(y, b))
  {
    k := WalkThroughEngine(y, b, env);
    LeaveWhenRefused(y, b, env, k);
    k := k + 2;
  }

  lemma LeaveWhenRefused(y: System, b: WorkerId, env: TurnEnv, k: nat)
    requires b in y.workers && y.store.lock == y.workers[b].token
    requires Walks(y, b, env, k, Posted(y, b, ReleaseGet(Raised(EngineFailure))))
    ensures Walks(y, b, env, k + 2, Refused(y, b))
  {
    var o := Raised(EngineFailure);
    PostedAgain(y, b, ReleaseGet(o), ReleaseGet(o));
    WalkOut(y, b, env, k, Posted(y, b, ReleaseGet(o)), o);
  }
}
