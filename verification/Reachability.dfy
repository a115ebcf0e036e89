/** How undisturbed calls end, and runs that reach the states from which things go wrong. */
module Reachability {
  import opened Wrappers
  import Text
  import opened ResearchNodes
  import opened Routing
  import opened ConversationMerge
  import opened TurnEngine
  import opened SessionStores
  import opened TurnProtocol
  import opened TurnSafety
  import opened LockSafety
  import opened Schedules
  import opened SoloTurns
  import opened ExpiryHazards
  import opened Replay

  // ---- Undisturbed runs -----------------------------------------------------------

  /** A call arrives and goes on for k awaits. */
  function Turn(id: WorkerId, req: Request, env: TurnEnv, k: nat): seq<Event> {
    Arrival(id, req, env) + Goes(id, env, k)
  }

  lemma TurnWalks(y: System, id: WorkerId, req: Request, env: TurnEnv, k: nat, z: System)
    requires CanArrive(y, id, req) && y.store.lock == None && Walks(Arrived(y, id, req), id, env, k, z)
    ensures Exec(y, Turn(id, req, env, k)) == z
  {
    ArrivalTakesLock(y, id, req, env);
    ExecConcat(y, Arrival(id, req, env), Goes(id, env, k));
  }

  lemma {:induction false} NoExpiryInGoes(id: WorkerId, env: TurnEnv, k: nat)
    ensures ExpireLock !in Goes(id, env, k)
  {
    if k == 0 {
    } else {
      NoExpiryInGoes(id, env, k - 1);
    }
  }

  lemma {:induction false} NoExpiryRespects(y: System, events: seq<Event>)
    requires ExpireLock !in events
    ensures RespectsRun(y, events)
    decreases |events|
  {
    if events == [] {
    } else {
      assert events[0] != ExpireLock;
      NoExpiryRespects(Step(y, events[0]), events[1..]);
    }
  }

  lemma NewSessionIsReachable(cfg: Settings, owner: string)
    ensures Reachable(Created(cfg, owner))
  {
    assert Exec(Created(cfg, owner), []) == Created(cfg, owner);
  }

  lemma TurnRespects(cfg: Settings, owner: string, id: WorkerId, req: Request, env: TurnEnv, k: nat)
    ensures Respected(Exec(Created(cfg, owner), Turn(id, req, env, k)))
  {
    NoExpiryInGoes(id, env, k);
    assert ExpireLock !in Arrival(id, req, env);
    NoExpiryRespects(Created(cfg, owner), Turn(id, req, env, k));
  }

  // ---- How an undisturbed call ends ------------------------------------------------------------------

  lemma ArrivedIsBehind(y: System, id: WorkerId, req: Request)
    requires Contiguous(y.store.turns) && CanArrive(y, id, req)
    ensures var arrived := Arrived(y, id, req);
      && Behind(arrived, id) && arrived.workers[id].req == req && arrived.store.turns == y.store.turns
      && arrived.store.snapshots == y.store.snapshots && arrived.store.lock == arrived.workers[id].token
  {
  }

  /** The turn gets a reply: a request for clarification, or the text of a completed engine run. */
  predicate Replies(y: System, req: Request, env: TurnEnv) {
    var basis := LatestBlob(y.store.snapshots);
    Asks(y.cfg, env.c) || EngineTurn(y.cfg, basis, req.message, env.c, env.engine).Some?
  }

  /** Where an undisturbed call with a new key leaves the session. */
  function Settled(y: System, id: WorkerId, req: Request, env: TurnEnv): System {
    var basis := LatestBlob(y.store.snapshots);
    if Asks(y.cfg, env.c) then Clarified(Arrived(y, id, req), id)
    else
      match EngineTurn(y.cfg, basis, req.message, env.c, env.engine)
      case None => Refused(Arrived(y, id, req), id)
      case Some(d) => Replied(Arrived(y, id, req), id, env, d)
  }

  lemma CallSettles(y: System, id: WorkerId, req: Request, env: TurnEnv) returns (k: nat)
    requires Contiguous(y.store.turns) && CanArrive(y, id, req) && y.store.lock == None
    requires Untaken(y.store.turns, req.key)
    ensures Exec(y, Turn(id, req, env, k)) == Settled(y, id, req, env)
  {
    ArrivedIsBehind(y, id, req);
    k := ArrivedSettles(y, id, req, env);
    TurnWalks(y, id, req, env, k, Settled(y, id, req, env));
  }

  lemma ArrivedSettles(y: System, id: WorkerId, req: Request, env: TurnEnv) returns (k: nat)
    requires var arrived := Arrived(y, id, req);
      && Behind(arrived, id) && Untaken(arrived.store.turns, req.key) && arrived.store.lock == arrived.workers[id].token
    ensures Walks(Arrived(y, id, req), id, env, k, Settled(y, id, req, env))
  {
    var arrived, basis := Arrived(y, id, req), LatestBlob(y.store.snapshots);
    if Asks(y.cfg, env.c) {
      k := WalkThroughClarification(arrived, id, env);
    } else {
      var d := DraftFor(arrived, id, env);
      if d == None {
        k := WalkThroughRefusal(arrived, id, env);
      } else {
        k := WalkThroughAnswer(arrived, id, env, d.value);
      }
    }
  }

  /** Only the user row of a call is new at index n, with what the request says, and the lock is free. */
  predicate ShowsRequest(y: System, z: System, id: WorkerId, req: Request) {
    var turns, n := z.store.turns, |y.store.turns|;
    && n < |turns| && turns[..n] == y.store.turns
    && turns[n] == TurnRow(n, User, req.message, Some(req.bodyHash), None, req.trace, req.key, id)
    && z.store.lock == None && z.cfg == y.cfg && z.owner == y.owner
  }

  /** After a request for clarification: a second row with the fixed text and no snapshot. The cached
      document holds the snapshot from before, under the index of the new row. */
  predicate ShowsClarification(y: System, z: System, id: WorkerId, req: Request) {
    var n := |y.store.turns|;
    && ShowsRequest(y, z, id, req) && |z.store.turns| == n + 2
    && z.store.turns[n + 1]
       == TurnRow(n + 1, Assistant, CLARIFY_MESSAGE, None, Some(NeedsClarification), req.trace, None, id)
    && z.store.snapshots == y.store.snapshots
    && z.store.doc == Some(Doc(LatestBlob(y.store.snapshots), Some(n + 1), |y.store.snapshots|))
    && id in z.workers && z.workers[id].pc == Done(Returned(n, CLARIFY_MESSAGE, true))
  }

  /** After an answer: a second row with its text, the snapshot of the turn, and its cached copy. */
  predicate ShowsAnswer(y: System, z: System, id: WorkerId, req: Request, intent: Intent, d: Draft) {
    var n := |y.store.turns|;
    && ShowsRequest(y, z, id, req) && |z.store.turns| == n + 2
    && z.store.turns[n + 1] == TurnRow(n + 1, Assistant, d.text, None, Some(intent), req.trace, None, id)
    && z.store.snapshots == y.store.snapshots + [SnapshotRow(n + 1, d.blob, d.record, id)]
    && z.store.doc == Some(Doc(Some(d.blob), Some(n + 1), |z.store.snapshots|))
    && id in z.workers && z.workers[id].pc == Done(Returned(n, d.text, true))
  }

  /** After an engine failure: the user row alone. */
  predicate ShowsRefusal(y: System, z: System, id: WorkerId, req: Request) {
    && ShowsRequest(y, z, id, req) && |z.store.turns| == |y.store.turns| + 1
    && z.store.snapshots == y.store.snapshots
    && id in z.workers && z.workers[id].pc == Done(Raised(EngineFailure))
  }

  lemma ClarifiedShows(y: System, id: WorkerId, req: Request)
    requires CanArrive(y, id, req)
    ensures ShowsClarification(y, Clarified(Arrived(y, id, req), id), id, req)
  {
  }

  lemma RepliedShows(y: System, id: WorkerId, req: Request, env: TurnEnv, d: Draft)
    requires CanArrive(y, id, req)
    ensures ShowsAnswer(y, Replied(Arrived(y, id, req), id, env, d), id, req, env.c.intent, d)
  {
  }

  lemma RefusedShows(y: System, id: WorkerId, req: Request)
    requires CanArrive(y, id, req)
    ensures ShowsRefusal(y, Refused(Arrived(y, id, req), id), id, req)
  {
  }

  /** What the session and the call show afterwards. */
  lemma SettledShows(y: System, id: WorkerId, req: Request, env: TurnEnv)
    requires CanArrive(y, id, req)
    ensures var z := Settled(y, id, req, env);
      var d := EngineTurn(y.cfg, LatestBlob(y.store.snapshots), req.message, env.c, env.engine);
      if Asks(y.cfg, env.c) then ShowsClarification(y, z, id, req)
      else if d.Some? then ShowsAnswer(y, z, id, req, env.c.intent, d.value)
      else ShowsRefusal(y, z, id, req)
  {
    ClarifiedShows(y, id, req);
    RefusedShows(y, id, req);
    var d := EngineTurn(y.cfg, LatestBlob(y.store.snapshots), req.message, env.c, env.engine);
    if d.Some? { RepliedShows(y, id, req, env, d.value); }
  }

  // ---- Keys that are settled and keys that are shut --------------------------------------------------

  /** In every reachable session with a free lock an undisturbed call with a new key returns its turn
      and completes its key exactly when the turn gets a reply, and abandons it exactly when not. */
  lemma KeySettledExactly(y: System, id: WorkerId, req: Request, env: TurnEnv) returns (k: nat)
    requires Reachable(y) && CanArrive(y, id, req) && y.store.lock == None
    requires req.key.Some? && Untaken(y.store.turns, req.key)
    ensures var z := Exec(y, Turn(id, req, env, k)); var n := |y.store.turns|;
      && Reachable(z) && n < |z.store.turns| && z.store.turns[n].key == req.key
      && id in z.workers && z.workers[id].pc.Done?
      && (z.workers[id].pc.outcome.Returned? <==> Replies(y, req, env))
      && (Completed(z.store.turns, n) <==> Replies(y, req, env))
      && (Abandoned(z, n) <==> !Replies(y, req, env))
  {
    ReachableInv(y);
    k := CallSettles(y, id, req, env);
    SettledKey(y, Settled(y, id, req, env), id, req, env);
    ReachableExec(y, Turn(id, req, env, k));
  }

  lemma SettledKey(y: System, z: System, id: WorkerId, req: Request, env: TurnEnv)
    requires CanArrive(y, id, req) && req.key.Some? && z == Settled(y, id, req, env)
    ensures var n := |y.store.turns|;
      && n < |z.store.turns| && z.store.turns[n].key == req.key && id in z.workers && z.workers[id].pc.Done?
      && (z.workers[id].pc.outcome.Returned? <==> Replies(y, req, env))
      && (Completed(z.store.turns, n) <==> Replies(y, req, env))
      && (Abandoned(z, n) <==> !Replies(y, req, env))
  {
    SettledShows(y, id, req, env);
    if Replies(y, req, env) {
      ReplyCompletesKey(y, z, id, req);
    } else {
      RefusalAbandonsKey(y, z, id, req);
    }
  }

  lemma ReplyCompletesKey(y: System, z: System, id: WorkerId, req: Request)
    requires req.key.Some? && ShowsRequest(y, z, id, req) && |z.store.turns| == |y.store.turns| + 2
    requires z.store.turns[|y.store.turns| + 1].role == Assistant
    ensures Completed(z.store.turns, |y.store.turns|) && !Abandoned(z, |y.store.turns|)
  {
  }

  lemma RefusalAbandonsKey(y: System, z: System, id: WorkerId, req: Request)
    requires req.key.Some? && ShowsRefusal(y, z, id, req)
    ensures !Completed(z.store.turns, |y.store.turns|) && Abandoned(z, |y.store.turns|)
  {
  }

  /** Whether the turn gets a reply is in the hands of the caller: with answers that do not raise it
      does exactly when it asks for clarification, or the message is not blank and the budget valid. */
  lemma RepliesExactly(y: System, req: Request, env: TurnEnv)
    requires |env.engine| >= 16 && forall i | 0 <= i < |env.engine| :: !env.engine[i].raises
    ensures Replies(y, req, env) <==>
      || Asks(y.cfg, env.c)
      || (!Text.IsBlank(req.message) && 1 <= y.cfg.maxIterations <= 5)
  {
    if !Asks(y.cfg, env.c) {
      EngineTurnCompletes(y.cfg, LatestBlob(y.store.snapshots), req.message, env.c, env.engine);
    }
  }

  /** The first call of a new session completes its key, or abandons it, by the same condition. */
  lemma FirstCallSettlesKey(cfg: Settings, owner: string, id: WorkerId, req: Request, env: TurnEnv) returns (z: System)
    requires req.owner == owner && req.key.Some?
    requires |env.engine| >= 16 && forall i | 0 <= i < |env.engine| :: !env.engine[i].raises
    ensures
      var good := Asks(cfg, env.c)
        || (!Text.IsBlank(req.message) && 1 <= cfg.maxIterations <= 5);
      Reachable(z) && (Completed(z.store.turns, 0) <==> good) && (Abandoned(z, 0) <==> !good)
  {
    var x := Created(cfg, owner);
    NewSessionIsReachable(cfg, owner);
    RepliesExactly(x, req, env);
    var k := KeySettledExactly(x, id, req, env);
    z := Exec(x, Turn(id, req, env, k));
  }

  /** A message of white space is stripped before the turn; the graph refuses the empty query. */
  lemma BlankRefused(cfg: Settings, basis: Option<StateBlob>, message: string, c: Classification, envs: seq<Env>)
    requires Text.IsBlank(message)
    ensures EngineTurn(cfg, basis, message, c, envs) == None
  {
  }

  /** In every reachable session with a free lock, an undisturbed call with a new key and a blank
      message that is not asked for clarification leaves its key abandoned, whatever the engine answers. */
  lemma BlankMessageAbandonsKey(y: System, id: WorkerId, req: Request, env: TurnEnv) returns (k: nat)
    requires Reachable(y) && CanArrive(y, id, req) && y.store.lock == None
    requires req.key.Some? && Untaken(y.store.turns, req.key) && Text.IsBlank(req.message)
    requires !Asks(y.cfg, env.c)
    ensures var z := Exec(y, Turn(id, req, env, k));
      Reachable(z) && Abandoned(z, |y.store.turns|) && z.store.turns[|y.store.turns|].key == req.key
  {
    BlankRefused(y.cfg, LatestBlob(y.store.snapshots), req.message, env.c, env.engine);
    k := KeySettledExactly(y, id, req, env);
  }

  /** Once the writer of a keyed turn has stopped, it is settled what a retry gets: in every run a retry
      that meets no fault, gets the lock and is the owner's returns a turn exactly when the turn was
      answered, the key is looked up and the fingerprint agrees. */
  lemma RetriedExactlyWhenCompleted(y: System, i: nat, id: WorkerId, events: seq<Event>)
    requires Reachable(y) && i < |y.store.turns| && y.store.turns[i].key.Some?
    requires y.store.turns[i].writer in y.workers && Stopped(y.workers[y.store.turns[i].writer].pc)
    requires id in y.workers && y.workers[id].req.key == y.store.turns[i].key && id != y.store.turns[i].writer
    requires HasKey(y.workers[id].req) ==> Entering(y.workers[id].pc) || y.workers[id].pc.FindKey?
    requires Steady(events, id)
    ensures var z := Exec(y, events); var req := y.workers[id].req;
      && id in z.workers
      && (z.workers[id].pc.Done? && z.workers[id].pc.outcome !in {Raised(LockTimeout), Raised(AccessDenied)} ==>
            (z.workers[id].pc.outcome.Returned? <==>
             Completed(y.store.turns, i) && HasKey(req) && y.store.turns[i].bodyHash == Some(req.bodyHash)))
  {
    if Completed(y.store.turns, i) {
      ReplayedExactlyWithKey(y, i, id, events);
    } else {
      ReachableInv(y);
      KeyedRowIsUser(y.store.turns, i);
      RequestsPersist(y, events, id);
      AbandonedKeyNeverReturns(y, events, i, id);
    }
  }

  /** A call whose engine run raises gets as far as its release. */
  lemma RefusedWalk(y: System, id: WorkerId, req: Request, env: TurnEnv) returns (k: nat)
    requires Contiguous(y.store.turns) && CanArrive(y, id, req) && Untaken(y.store.turns, req.key)
    requires !Asks(y.cfg, env.c)
    requires EngineTurn(y.cfg, LatestBlob(y.store.snapshots), req.message, env.c, env.engine) == None
    ensures var arrived := Arrived(y, id, req); var out := ReleaseGet(Raised(EngineFailure));
      && Walks(arrived, id, env, k, Posted(arrived, id, out))
      && At(Posted(arrived, id, out), id, out) == Posted(arrived, id, out)
  {
    var arrived, out := Arrived(y, id, req), ReleaseGet(Raised(EngineFailure));
    k := WalkThroughEngine(arrived, id, env);
    PostedAgain(arrived, id, out, out);
  }

  /** The empty key skips the look-up and meets the unique constraint: an undisturbed second call with
      it ends in an integrity error, and neither replays the first turn nor adds one. */
  lemma EmptyKeyCollides(y: System, id: WorkerId, req: Request, env: TurnEnv) returns (k: nat)
    requires Reachable(y) && CanArrive(y, id, req) && y.store.lock == None
    requires req.key == Some("") && !Untaken(y.store.turns, req.key)
    ensures var z := Exec(y, Turn(id, req, env, k));
      && id in z.workers && z.workers[id].pc == Done(Raised(IntegrityError))
      && z.store.turns == y.store.turns && z.store.snapshots == y.store.snapshots
  {
    ReachableInv(y);
    var arrived := Arrived(y, id, req);
    ArrivedIsBehind(y, id, req);
    k := WalkToReady(arrived, id, env);
    k := Collides(arrived, id, env, k);
    TurnWalks(y, id, req, env, k, At(Unlocked(Reloaded(arrived)), id, Done(Raised(IntegrityError))));
  }

  lemma Collides(y: System, b: WorkerId, env: TurnEnv, j: nat) returns (k: nat)
    requires Behind(y, b) && !Untaken(y.store.turns, y.workers[b].req.key) && y.store.lock == y.workers[b].token
    requires Walks(y, b, env, j, Ready(y, b))
    ensures Walks(y, b, env, k, At(Unlocked(Reloaded(y)), b, Done(Raised(IntegrityError))))
  {
    RefusedWhenReady(y, b, env, j);
    WalkOut(y, b, env, j + 1, Reloaded(y), Raised(IntegrityError));
    k := j + 3;
  }

  lemma RefusedWhenReady(y: System, b: WorkerId, env: TurnEnv, j: nat)
    requires b in y.workers && y.workers[b].token.Some? && Contiguous(y.store.turns)
    requires !Untaken(y.store.turns, y.workers[b].req.key) && Walks(y, b, env, j, Ready(y, b))
    ensures Walks(y, b, env, j + 1, At(Reloaded(y), b, ReleaseGet(Raised(IntegrityError))))
  {
    var at, out := AppendUser(LatestBlob(y.store.snapshots), |y.store.turns|), ReleaseGet(Raised(IntegrityError));
    GoAppendUser(Ready(y, b), b, env, LatestBlob(y.store.snapshots));
    AtTwice(Reloaded(y), b, at, out);
    WalkNext(y, b, env, j, Ready(y, b), At(Reloaded(y), b, out));
  }

  // ---- Calls caught at an awkward await ----------------------------------------------------------------

  /** A lock-respecting run of a new session that leaves one call between the get and the delete of
      its release, where an expiry lets two others in. */
  lemma CaughtReleasing(cfg: Settings, owner: string, id: WorkerId, req: Request, env: TurnEnv) returns (y: System)
    requires req.owner == owner && Text.IsBlank(req.message) && !Asks(cfg, env.c)
    ensures Respected(y) && y.owner == owner && y.workers.Keys == {id}
    ensures Live(y.workers[id]) && y.workers[id].pc.ReleaseDelete?
  {
    BlankRefused(cfg, None, req.message, env.c, env.engine);
    var k := RefusedWalk(Created(cfg, owner), id, req, env);
    y := ReleasingAfter(cfg, owner, id, req, env, k);
  }

  lemma ReleasingAfter(cfg: Settings, owner: string, id: WorkerId, req: Request, env: TurnEnv, k: nat)
    returns (y: System)
    requires req.owner == owner
    requires var arrived := Arrived(Created(cfg, owner), id, req); var out := ReleaseGet(Raised(EngineFailure));
      && Walks(arrived, id, env, k, Posted(arrived, id, out))
      && At(Posted(arrived, id, out), id, out) == Posted(arrived, id, out)
    ensures Respected(y) && y.owner == owner && y.workers.Keys == {id}
    ensures Live(y.workers[id]) && y.workers[id].pc.ReleaseDelete?
  {
    var x, o := Created(cfg, owner), Raised(EngineFailure);
    var z := Posted(Arrived(x, id, req), id, ReleaseGet(o));
    y := At(z, id, ReleaseDelete(o));
    WalkOut(Arrived(x, id, req), id, env, k, z, o);
    WalkIsRespected(cfg, owner, id, req, env, k + 1, y);
  }

  lemma WalkIsRespected(cfg: Settings, owner: string, id: WorkerId, req: Request, env: TurnEnv, k: nat, y: System)
    requires req.owner == owner && Walks(Arrived(Created(cfg, owner), id, req), id, env, k, y)
    ensures Respected(y)
  {
    TurnWalks(Created(cfg, owner), id, req, env, k, y);
    TurnRespects(cfg, owner, id, req, env, k);
  }

  /** A lock-respecting run of a new session that leaves one call between its answer and its snapshot. */
  lemma CaughtSaving(cfg: Settings, owner: string, id: WorkerId, req: Request, env: TurnEnv, d: Draft)
    returns (y: System)
    requires req.owner == owner && !Asks(cfg, env.c)
    requires EngineTurn(cfg, None, req.message, env.c, env.engine) == Some(d)
    ensures Respected(y) && y.cfg == cfg && y.owner == owner && y.workers.Keys == {id}
    ensures y.workers[id].pc.SaveSnapshot? && y.store.snapshots == []
    ensures forall i | 0 <= i < |y.store.turns| :: y.store.turns[i].key == req.key || y.store.turns[i].key == None
  {
    var arrived := Arrived(Created(cfg, owner), id, req);
    var k := WalkToSave(arrived, id, env, d);
    y := SavingAfter(cfg, owner, id, req, env, d, k);
  }

  lemma SavingAfter(cfg: Settings, owner: string, id: WorkerId, req: Request, env: TurnEnv, d: Draft, k: nat)
    returns (y: System)
    requires req.owner == owner
    requires var arrived := Arrived(Created(cfg, owner), id, req);
      Walks(arrived, id, env, k, Saving(arrived, id, env, d))
    ensures Respected(y) && y.cfg == cfg && y.owner == owner && y.workers.Keys == {id}
    ensures y.workers[id].pc.SaveSnapshot? && y.store.snapshots == []
    ensures forall i | 0 <= i < |y.store.turns| :: y.store.turns[i].key == req.key || y.store.turns[i].key == None
  {
    var arrived := Arrived(Created(cfg, owner), id, req);
    y := Saving(arrived, id, env, d);
    SavingShows(arrived, id, env, d);
    WalkIsRespected(cfg, owner, id, req, env, k, y);
  }

  lemma SavingShows(y: System, b: WorkerId, env: TurnEnv, d: Draft)
    requires b in y.workers
    ensures var z := Saving(y, b, env, d); var n, req := |y.store.turns|, y.workers[b].req;
      && z.cfg == y.cfg && z.owner == y.owner && z.workers.Keys == y.workers.Keys
      && z.workers[b].pc == SaveSnapshot(n, d) && z.store.snapshots == y.store.snapshots
      && z.store.turns == y.store.turns + [UserRow(n, req, b), AssistantRow(n, d.text, env.c.intent, req, b)]
  {
  }

  /** Two rows, the second saved by a under a smaller index than the first, which b computed without it. */
  ghost predicate SecondIsLost(snaps: seq<SnapshotRow>, a: WorkerId, b: WorkerId) {
    && |snaps| == 2
    && snaps[0].writer == b && snaps[0].record.basis == None
    && snaps[1].writer == a && snaps[1].afterTurn < snaps[0].afterTurn
    && LatestSnapshot(snaps) == Some(snaps[0])
  }

  /** Every session whose budget is valid can lose a snapshot: two messages that are not blank, two
      keys that differ and engine answers that do not raise are enough. The snapshot of the first call
      is saved last, under the smaller index, and no continuation reads it. */
  lemma SnapshotsGetLost(cfg: Settings, owner: string, a: WorkerId, b: WorkerId, first: Request, second: Request,
          env: TurnEnv)
    returns (z: System)
    requires a != b && first.owner == owner && second.owner == owner
    requires second.key.Some? ==> second.key != first.key
    requires !Text.IsBlank(first.message) && !Text.IsBlank(second.message) && 1 <= cfg.maxIterations <= 5
    requires !Asks(cfg, env.c)
    requires |env.engine| >= 16 && forall i | 0 <= i < |env.engine| :: !env.engine[i].raises
    ensures Reachable(z) && SecondIsLost(z.store.snapshots, a, b)
    ensures forall events: seq<Event> ::
      LatestSnapshot(Exec(z, events).store.snapshots) != Some(z.store.snapshots[1])
  {
    EngineTurnCompletes(cfg, None, first.message, env.c, env.engine);
    EngineTurnCompletes(cfg, None, second.message, env.c, env.engine);
    var d := EngineTurn(cfg, None, first.message, env.c, env.engine).value;
    var e := EngineTurn(cfg, None, second.message, env.c, env.engine).value;
    var y := CaughtSaving(cfg, owner, a, first, env, d);
    z := LostAfter(y, a, b, second, env, e);
    LostForever(z, a, b);
  }

  lemma LostForever(z: System, a: WorkerId, b: WorkerId)
    requires SecondIsLost(z.store.snapshots, a, b)
    ensures forall events: seq<Event> ::
      LatestSnapshot(Exec(z, events).store.snapshots) != Some(z.store.snapshots[1])
  {
    forall events: seq<Event> ensures LatestSnapshot(Exec(z, events).store.snapshots) != Some(z.store.snapshots[1]) {
      SupersededForever(z, 1, 0, events);
    }
  }

  lemma LostAfter(y: System, a: WorkerId, b: WorkerId, req: Request, env: TurnEnv, e: Draft) returns (z: System)
    requires Respected(y) && a in y.workers && y.workers[a].pc.SaveSnapshot? && y.store.snapshots == []
    requires CanArrive(y, b, req) && Untaken(y.store.turns, req.key) && !Asks(y.cfg, env.c)
    requires EngineTurn(y.cfg, None, req.message, env.c, env.engine) == Some(e)
    ensures Reachable(z) && SecondIsLost(z.store.snapshots, a, b)
  {
    var events := LosingRun(y, a, b, req, env, e);
    z := Step(Exec(y, events), Go(a, env));
    StepReachable(y, events, Go(a, env));
  }

  lemma LosingRun(y: System, a: WorkerId, b: WorkerId, req: Request, env: TurnEnv, e: Draft)
    returns (events: seq<Event>)
    requires Respected(y) && a in y.workers && y.workers[a].pc.SaveSnapshot? && y.store.snapshots == []
    requires CanArrive(y, b, req) && Untaken(y.store.turns, req.key) && !Asks(y.cfg, env.c)
    requires EngineTurn(y.cfg, None, req.message, env.c, env.engine) == Some(e)
    ensures SecondIsLost(Step(Exec(y, events), Go(a, env)).store.snapshots, a, b)
  {
    var k := LateSaveIsLost(y, a, b, req, env, e);
    events := Overtaking(b, req, env, k);
  }

  lemma StepReachable(y: System, events: seq<Event>, e: Event)
    requires Respected(y)
    ensures Reachable(Step(Exec(y, events), e))
  {
    RespectedReachable(y);
    ReachableExec(y, events);
    ExecOne(Exec(y, events), e);
    ReachableExec(Exec(y, events), [e]);
  }

  lemma RespectedReachable(y: System)
    requires Respected(y)
    ensures Reachable(y)
  {
    var cfg, owner, events: seq<Event> :|
      RespectsRun(Created(cfg, owner), events) && Exec(Created(cfg, owner), events) == y;
  }
}
