/** What the two unique constraints guarantee in every run, whatever fails, stops or expires. */
module TurnSafety {
  import opened Wrappers
  import opened ResearchNodes
  import opened Routing
  import opened ConversationMerge
  import opened TurnEngine
  import opened SessionStores
  import opened TurnProtocol

  /** Row i has turn index i. */
  ghost predicate Contiguous(turns: seq<TurnRow>) {
    forall i | 0 <= i < |turns| :: turns[i].index == i
  }

  /** An assistant row answers the user row just before it, for the same call and trace. */
  ghost predicate Answers(turns: seq<TurnRow>, i: int) {
    && 0 < i < |turns|
    && turns[i - 1].role == User
    && turns[i - 1].writer == turns[i].writer
    && turns[i - 1].trace == turns[i].trace
    && turns[i].key == None
  }

  ghost predicate Paired(turns: seq<TurnRow>) {
    forall i | 0 <= i < |turns| && turns[i].role == Assistant :: Answers(turns, i)
  }

  /** A key that is not NULL occurs once. */
  ghost predicate KeysUnique(turns: seq<TurnRow>) {
    forall i, j | 0 <= i < j < |turns| && turns[i].key.Some? :: turns[i].key != turns[j].key
  }

  /** A call opens at most one turn. */
  ghost predicate OneTurnEach(turns: seq<TurnRow>) {
    forall i, j | 0 <= i < j < |turns| && turns[i].role == User && turns[j].role == User ::
      turns[i].writer != turns[j].writer
  }

  ghost predicate LogOk(turns: seq<TurnRow>) {
    Contiguous(turns) && Paired(turns) && KeysUnique(turns) && OneTurnEach(turns)
  }

  /** The call has inserted its user row at ti. */
  ghost predicate Opened(turns: seq<TurnRow>, ti: nat, req: Request, id: WorkerId) {
    ti < |turns| && turns[ti] == UserRow(ti, req, id)
  }

  /** The call has also inserted the assistant row with this text. */
  ghost predicate Answered(turns: seq<TurnRow>, ti: nat, text: string, req: Request, id: WorkerId) {
    && Opened(turns, ti, req, id)
    && ti + 1 < |turns|
    && turns[ti + 1].role == Assistant && turns[ti + 1].writer == id && turns[ti + 1].text == text
  }

  /** A returned turn is on record: its two rows carry the key, the fingerprint and the text. */
  ghost predicate OnRecord(turns: seq<TurnRow>, req: Request, id: WorkerId, o: Outcome) {
    o.Returned? ==>
      && o.ti + 1 < |turns|
      && turns[o.ti].role == User && turns[o.ti].key == req.key && turns[o.ti].bodyHash == Some(req.bodyHash)
      && turns[o.ti + 1].role == Assistant && turns[o.ti + 1].text == o.text
      && (o.processed ==> turns[o.ti].writer == id)
      && (!o.processed ==> HasKey(req))
  }

  ghost predicate LocalsOk(turns: seq<TurnRow>, id: WorkerId, w: Worker) {
    match w.pc
    case FindKey => HasKey(w.req)
    case GetReply(ti) =>
      && HasKey(w.req) && ti < |turns| && turns[ti].role == User
      && turns[ti].key == w.req.key && turns[ti].bodyHash == Some(w.req.bodyHash)
    case AppendUser(_, ti) => ti <= |turns|
    case Classify(_, ti) => Opened(turns, ti, w.req, id)
    case AppendClarify(_, ti) => Opened(turns, ti, w.req, id)
    case CacheClarify(_, ti) => Answered(turns, ti, CLARIFY_MESSAGE, w.req, id)
    case RunEngine(_, ti, c) => Opened(turns, ti, w.req, id)
    case AppendAssistant(ti, _, d) => Opened(turns, ti, w.req, id) && d.text == d.blob.synthesis
    case SaveSnapshot(ti, d) => Answered(turns, ti, d.text, w.req, id) && d.text == d.blob.synthesis
    case CacheDoc(ti, d) => Answered(turns, ti, d.text, w.req, id) && d.text == d.blob.synthesis
    case ReleaseGet(o) => OnRecord(turns, w.req, id, o)
    case ReleaseDelete(o) => OnRecord(turns, w.req, id, o)
    case Done(o) => OnRecord(turns, w.req, id, o)
    case _ => true
  }

  /** The call cannot have inserted a turn yet. */
  predicate BeforeTurn(pc: Pc) { Entering(pc) || Preparing(pc) || pc.AppendUser? }

  /** The call may have inserted a snapshot. */
  predicate AfterSave(pc: Pc) { pc.CacheDoc? || Releasing(pc) || Stopped(pc) }

  /** Every row was inserted by a call of this run, from its own request. */
  ghost predicate Authored(turns: seq<TurnRow>, workers: map<WorkerId, Worker>) {
    forall i | 0 <= i < |turns| ::
      && turns[i].writer in workers
      && !BeforeTurn(workers[turns[i].writer].pc)
      && (turns[i].role == User ==> turns[i] == UserRow(i, workers[turns[i].writer].req, turns[i].writer))
  }

  /** A snapshot belongs to an assistant row of the same call and stores the text it returned. */
  ghost predicate SnapshotOk(turns: seq<TurnRow>, s: SnapshotRow) {
    && s.afterTurn < |turns|
    && turns[s.afterTurn].role == Assistant
    && turns[s.afterTurn].writer == s.writer
    && turns[s.afterTurn].text == s.blob.synthesis
  }

  ghost predicate SnapshotsOk(turns: seq<TurnRow>, snaps: seq<SnapshotRow>) {
    && (forall j | 0 <= j < |snaps| :: SnapshotOk(turns, snaps[j]))
    && (forall i, j | 0 <= i < j < |snaps| :: snaps[i].afterTurn != snaps[j].afterTurn)
  }

  ghost predicate SaversDone(snaps: seq<SnapshotRow>, workers: map<WorkerId, Worker>) {
    forall j | 0 <= j < |snaps| ::
      snaps[j].writer in workers && AfterSave(workers[snaps[j].writer].pc)
  }

  ghost predicate Inv(y: System) {
    && LogOk(y.store.turns)
    && Authored(y.store.turns, y.workers)
    && SnapshotsOk(y.store.turns, y.store.snapshots)
    && SaversDone(y.store.snapshots, y.workers)
    && (forall id | id in y.workers :: LocalsOk(y.store.turns, id, y.workers[id]))
  }

  // ---- Properties of the tables ------------------------------------------------------------

  lemma NextIndexIsLength(turns: seq<TurnRow>)
    requires Contiguous(turns)
    ensures NextTurnIndex(turns) == |turns|
  {
    if turns != [] {
      assert turns[|turns| - 1].index == |turns| - 1;
    }
  }

  lemma TakenIndexCollides(turns: seq<TurnRow>, row: TurnRow)
    requires Contiguous(turns) && row.index < |turns|
    ensures Violates(turns, row)
  {
    assert turns[row.index].index == row.index;
  }

  /** The only row index the constraint lets in is the next one. */
  lemma OnlyNextIndexFits(turns: seq<TurnRow>, row: TurnRow)
    requires Contiguous(turns) && row.index <= |turns| && !Violates(turns, row)
    ensures row.index == |turns|
  {
    if row.index < |turns| { TakenIndexCollides(turns, row); }
  }

  lemma UserRowFits(turns: seq<TurnRow>, row: TurnRow)
    requires LogOk(turns) && row.role == User && row.index <= |turns| && !Violates(turns, row)
    requires forall i | 0 <= i < |turns| :: turns[i].writer != row.writer
    ensures LogOk(turns + [row]) && row.index == |turns|
  {
    OnlyNextIndexFits(turns, row);
    var after := turns + [row];
    forall i | 0 <= i < |after| && after[i].role == Assistant
      ensures Answers(after, i)
    {
      assert Answers(turns, i);
    }
  }

  lemma AssistantRowFits(turns: seq<TurnRow>, row: TurnRow)
    requires LogOk(turns) && row.role == Assistant && row.key == None && 0 < row.index <= |turns| &&
        !Violates(turns, row)
    requires turns[row.index - 1].role == User && turns[row.index - 1].writer == row.writer
    requires turns[row.index - 1].trace == row.trace
    ensures LogOk(turns + [row]) && row.index == |turns|
  {
    OnlyNextIndexFits(turns, row);
    var after := turns + [row];
    forall i | 0 <= i < |after| && after[i].role == Assistant
      ensures Answers(after, i)
    {
      if i < |turns| { assert Answers(turns, i); }
    }
  }

  /** Facts about a call survive rows that others add. */
  lemma LocalsStable(turns: seq<TurnRow>, more: seq<TurnRow>, id: WorkerId, w: Worker)
    requires turns <= more && LocalsOk(turns, id, w)
    ensures LocalsOk(more, id, w)
  {
    assert |turns| <= |more| && forall i | 0 <= i < |turns| :: turns[i] == more[i];
  }

  // ---- One await of one call ---------------------------------------------------------------

  /** What a call may do to the tables in one await. */
  ghost predicate EffectOk(turns: seq<TurnRow>, id: WorkerId, w: Worker, e: Effect) {
    match e
    case AddTurn(row) =>
      && row.writer == id
      && !Violates(turns, row)
      && ((w.pc.AppendUser? && row.index <= |turns| && row == UserRow(row.index, w.req, id))
        || (!BeforeTurn(w.pc) && row.role == Assistant && row.key == None && 0 < row.index <= |turns|
            && row.trace == w.req.trace && Opened(turns, row.index - 1, w.req, id)))
    case AddSnapshot(s) =>
      && w.pc.SaveSnapshot? && s.writer == id && SnapshotOk(turns, s)
      && s.afterTurn > 0 && Opened(turns, s.afterTurn - 1, w.req, id)
    case _ => true
  }

  ghost predicate MoveOk(s: Store, id: WorkerId, w: Worker, m: Move) {
    && EffectOk(s.turns, id, w, m.effect)
    && LocalsOk(Perform(s, m.effect).turns, id, m.worker)
    && m.worker.req == w.req
  }

  lemma EnterOk(owner: string, s: Store, id: WorkerId, w: Worker)
    requires Entering(w.pc)
    ensures MoveOk(s, id, w, Enter(owner, s, w))
  {
  }

  lemma PrepareOk(s: Store, id: WorkerId, w: Worker)
    requires Preparing(w.pc) && LogOk(s.turns) && LocalsOk(s.turns, id, w)
    ensures MoveOk(s, id, w, Prepare(s, w))
  {
    if w.pc.FindKey? {
      FindKeyOk(s, id, w);
    } else if w.pc.GetReply? {
      GetReplyOk(s, id, w);
    } else {
      NextIndexIsLength(s.turns);
    }
  }

  lemma FindKeyOk(s: Store, id: WorkerId, w: Worker)
    requires w.pc.FindKey? && LogOk(s.turns) && LocalsOk(s.turns, id, w)
    ensures MoveOk(s, id, w, Prepare(s, w))
  {
    var found := FindByKey(s.turns, w.req.key.value);
    if found.Some? {
      var i :| 0 <= i < |s.turns| && s.turns[i] == found.value;
      KeyedRowIsUser(s.turns, i);
    }
  }

  lemma GetReplyOk(s: Store, id: WorkerId, w: Worker)
    requires w.pc.GetReply? && LogOk(s.turns) && LocalsOk(s.turns, id, w)
    ensures MoveOk(s, id, w, Prepare(s, w))
  {
    var found := GetTurn(s.turns, w.pc.ti + 1);
    if found.Some? {
      var i :| 0 <= i < |s.turns| && s.turns[i] == found.value;
      assert s.turns[i].index == i;
    }
  }

  lemma KeyedRowIsUser(turns: seq<TurnRow>, i: nat)
    requires LogOk(turns) && i < |turns| && turns[i].key.Some?
    ensures turns[i].role == User && turns[i].index == i
  {
    assert turns[i].role == Assistant ==> Answers(turns, i);
  }

  lemma OpenTurnOk(cfg: Settings, s: Store, id: WorkerId, w: Worker, env: TurnEnv)
    requires w.pc.AppendUser? || w.pc.Classify? || w.pc.AppendClarify? || w.pc.CacheClarify?
    requires LogOk(s.turns) && LocalsOk(s.turns, id, w)
    ensures MoveOk(s, id, w, Open(cfg, s, id, w, env))
  {
    match w.pc
    case AppendUser(_, ti) =>
      if !Violates(s.turns, UserRow(ti, w.req, id)) { OnlyNextIndexFits(s.turns, UserRow(ti, w.req, id)); }
    case AppendClarify(_, ti) =>
      var row := AssistantRow(ti, CLARIFY_MESSAGE, NeedsClarification, w.req, id);
      if !Violates(s.turns, row) { OnlyNextIndexFits(s.turns, row); }
    case _ =>
  }

  lemma RunEngineOk(cfg: Settings, s: Store, id: WorkerId, w: Worker, env: TurnEnv)
    requires w.pc.RunEngine? && LocalsOk(s.turns, id, w)
    ensures MoveOk(s, id, w, Respond(cfg, s, id, w, env))
  {
    var m := Respond(cfg, s, id, w, env);
    assert m.effect == Nothing;
    var draft := EngineTurn(cfg, w.pc.snap, w.req.message, w.pc.c, env.engine);
    if draft.Some? {
      EngineText(cfg, w.pc.snap, w.req.message, w.pc.c, env.engine);
      assert m.worker.pc == AppendAssistant(w.pc.ti, w.pc.c.intent, draft.value);
    } else {
      assert m.worker == Abort(w, EngineFailure);
    }
  }

  lemma AppendAssistantOk(cfg: Settings, s: Store, id: WorkerId, w: Worker, env: TurnEnv)
    requires w.pc.AppendAssistant? && LogOk(s.turns) && LocalsOk(s.turns, id, w)
    ensures MoveOk(s, id, w, Respond(cfg, s, id, w, env))
  {
    var m := Respond(cfg, s, id, w, env);
    var row := AssistantRow(w.pc.ti, w.pc.draft.text, w.pc.intent, w.req, id);
    if Violates(s.turns, row) {
      assert m == Move(Nothing, Abort(w, IntegrityError));
    } else {
      OnlyNextIndexFits(s.turns, row);
      assert m == Move(AddTurn(row), w.(pc := SaveSnapshot(w.pc.ti, w.pc.draft)));
    }
  }

  lemma EngineText(cfg: Settings, snap: Option<StateBlob>, message: string, c: Classification, envs: seq<Env>)
    requires EngineTurn(cfg, snap, message, c, envs).Some?
    ensures var d := EngineTurn(cfg, snap, message, c, envs).value; d.text == d.blob.synthesis
  {
  }

  lemma SaveOk(s: Store, id: WorkerId, w: Worker)
    requires w.pc.SaveSnapshot? && LocalsOk(s.turns, id, w)
    ensures MoveOk(s, id, w, Persist(s, id, w))
  {
    var d := w.pc.draft;
    assert SnapshotOk(s.turns, SnapshotRow(w.pc.ti + 1, d.blob, d.record, id));
  }

  lemma CacheOk(s: Store, id: WorkerId, w: Worker)
    requires w.pc.CacheDoc? && LocalsOk(s.turns, id, w)
    ensures MoveOk(s, id, w, Persist(s, id, w))
  {
    AnsweredOnRecord(s.turns, w.pc.ti, w.pc.draft.text, id, w);
  }

  lemma AnsweredOnRecord(turns: seq<TurnRow>, ti: nat, text: string, id: WorkerId, w: Worker)
    requires Answered(turns, ti, text, w.req, id)
    ensures LocalsOk(turns, id, w.(pc := ReleaseGet(Returned(ti, text, true))))
  {
  }

  lemma AttemptOk(cfg: Settings, owner: string, s: Store, id: WorkerId, w: Worker, env: TurnEnv)
    requires LogOk(s.turns) && LocalsOk(s.turns, id, w)
    ensures MoveOk(s, id, w, Attempt(cfg, owner, s, id, w, env))
  {
    if Stopped(w.pc) {
    } else if Entering(w.pc) {
      EnterOk(owner, s, id, w);
    } else if Preparing(w.pc) {
      PrepareOk(s, id, w);
    } else if Releasing(w.pc) {
    } else if w.pc.RunEngine? {
      RunEngineOk(cfg, s, id, w, env);
    } else if w.pc.AppendAssistant? {
      AppendAssistantOk(cfg, s, id, w, env);
    } else if w.pc.SaveSnapshot? {
      SaveOk(s, id, w);
    } else if w.pc.CacheDoc? {
      CacheOk(s, id, w);
    } else {
      OpenTurnOk(cfg, s, id, w, env);
    }
  }

  lemma MoveIsOk(cfg: Settings, owner: string, s: Store, id: WorkerId, w: Worker, env: TurnEnv, fault: Fault)
    requires LogOk(s.turns) && LocalsOk(s.turns, id, w)
    ensures MoveOk(s, id, w, MoveOf(cfg, owner, s, id, w, env, fault))
  {
    AttemptOk(cfg, owner, s, id, w, env);
  }

  /** A call never goes back to before its turn, nor to before its save. */
  lemma MoveGoesForward(cfg: Settings, owner: string, s: Store, id: WorkerId, w: Worker, env: TurnEnv, fault: Fault)
    ensures var m := MoveOf(cfg, owner, s, id, w, env, fault);
      && (!BeforeTurn(w.pc) || m.effect.AddTurn? ==> !BeforeTurn(m.worker.pc))
      && (AfterSave(w.pc) || m.effect.AddSnapshot? ==> AfterSave(m.worker.pc))
  {
    if Preparing(w.pc) {
      assert !Prepare(s, w).effect.AddTurn? && !Prepare(s, w).effect.AddSnapshot?;
    }
  }

  // ---- One step of the system --------------------------------------------------------------

  lemma LogStaysOk(s: Store, workers: map<WorkerId, Worker>, id: WorkerId, e: Effect)
    requires LogOk(s.turns) && Authored(s.turns, workers)
    requires id in workers && EffectOk(s.turns, id, workers[id], e)
    ensures LogOk(Perform(s, e).turns)
  {
    if e.AddTurn? {
      var row := e.row;
      if workers[id].pc.AppendUser? {
        assert forall i | 0 <= i < |s.turns| :: s.turns[i].writer != id;
        UserRowFits(s.turns, row);
      } else {
        AssistantRowFits(s.turns, row);
      }
    }
  }

  lemma RowsStayAuthored(s: Store, workers: map<WorkerId, Worker>, id: WorkerId, m: Move)
    requires LogOk(s.turns) && Authored(s.turns, workers)
    requires id in workers && MoveOk(s, id, workers[id], m)
    requires !BeforeTurn(workers[id].pc) || m.effect.AddTurn? ==> !BeforeTurn(m.worker.pc)
    ensures Authored(Perform(s, m.effect).turns, workers[id := m.worker])
  {
    if m.effect.AddTurn? { OnlyNextIndexFits(s.turns, m.effect.row); }
  }

  lemma SnapshotsStayOk(s: Store, workers: map<WorkerId, Worker>, id: WorkerId, e: Effect)
    requires SnapshotsOk(s.turns, s.snapshots) && SaversDone(s.snapshots, workers)
    requires id in workers && EffectOk(s.turns, id, workers[id], e)
    ensures SnapshotsOk(Perform(s, e).turns, Perform(s, e).snapshots)
  {
    if e.AddSnapshot? {
      NewSnapshotFits(s.turns, s.snapshots, workers, id, e.snapshot);
    } else {
      SnapshotsStable(s.turns, Perform(s, e).turns, s.snapshots);
    }
  }

  lemma SnapshotsStable(turns: seq<TurnRow>, more: seq<TurnRow>, snaps: seq<SnapshotRow>)
    requires turns <= more && SnapshotsOk(turns, snaps)
    ensures SnapshotsOk(more, snaps)
  {
    assert |turns| <= |more| && forall i | 0 <= i < |turns| :: turns[i] == more[i];
    forall j | 0 <= j < |snaps|
      ensures SnapshotOk(more, snaps[j])
    {
      assert SnapshotOk(turns, snaps[j]);
    }
  }

  /** A call that has not saved yet finds no snapshot at its own turn. */
  lemma NewSnapshotFits(turns: seq<TurnRow>, snaps: seq<SnapshotRow>, workers: map<WorkerId, Worker>, id: WorkerId,
          row: SnapshotRow)
    requires SnapshotsOk(turns, snaps) && SaversDone(snaps, workers)
    requires id in workers && workers[id].pc.SaveSnapshot? && row.writer == id && SnapshotOk(turns, row)
    ensures SnapshotsOk(turns, snaps + [row])
  {
    forall j | 0 <= j < |snaps|
      ensures snaps[j].afterTurn != row.afterTurn
    {
      assert SnapshotOk(turns, snaps[j]);
    }
  }

  lemma SaversStayDone(s: Store, workers: map<WorkerId, Worker>, id: WorkerId, m: Move)
    requires SaversDone(s.snapshots, workers) && id in workers && EffectOk(s.turns, id, workers[id], m.effect)
    requires AfterSave(workers[id].pc) || m.effect.AddSnapshot? ==> AfterSave(m.worker.pc)
    ensures SaversDone(Perform(s, m.effect).snapshots, workers[id := m.worker])
  {
  }

  lemma OthersStayOk(s: Store, workers: map<WorkerId, Worker>, id: WorkerId, m: Move)
    requires forall w | w in workers :: LocalsOk(s.turns, w, workers[w])
    requires LocalsOk(Perform(s, m.effect).turns, id, m.worker)
    ensures var after := workers[id := m.worker];
            forall w | w in after :: LocalsOk(Perform(s, m.effect).turns, w, after[w])
  {
    forall w | w in workers && w != id
      ensures LocalsOk(Perform(s, m.effect).turns, w, workers[w])
    {
      LocalsStable(s.turns, Perform(s, m.effect).turns, w, workers[w]);
    }
  }

  /** The parts of the invariant, after one move of one call. */
  lemma MoveKeepsInv(y: System, id: WorkerId, m: Move, after: System)
    requires Inv(y) && id in y.workers && MoveOk(y.store, id, y.workers[id], m)
    requires !BeforeTurn(y.workers[id].pc) || m.effect.AddTurn? ==> !BeforeTurn(m.worker.pc)
    requires AfterSave(y.workers[id].pc) || m.effect.AddSnapshot? ==> AfterSave(m.worker.pc)
    requires after == y.(store := Perform(y.store, m.effect), workers := y.workers[id := m.worker])
    ensures Inv(after)
  {
    LogStaysOk(y.store, y.workers, id, m.effect);
    RowsStayAuthored(y.store, y.workers, id, m);
    SnapshotsStayOk(y.store, y.workers, id, m.effect);
    SaversStayDone(y.store, y.workers, id, m);
    OthersStayOk(y.store, y.workers, id, m);
  }

  lemma AdvanceKeepsInv(y: System, id: WorkerId, env: TurnEnv, fault: Fault)
    requires Inv(y) && id in y.workers
    ensures Inv(Step(y, Advance(id, env, fault)))
  {
    var m := MoveOf(y.cfg, y.owner, y.store, id, y.workers[id], env, fault);
    MoveIsOk(y.cfg, y.owner, y.store, id, y.workers[id], env, fault);
    MoveGoesForward(y.cfg, y.owner, y.store, id, y.workers[id], env, fault);
    MoveKeepsInv(y, id, m, Step(y, Advance(id, env, fault)));
  }

  lemma CrashKeepsInv(y: System, id: WorkerId)
    requires Inv(y) && id in y.workers
    ensures Inv(y.(workers := y.workers[id := y.workers[id].(pc := Crashed)]))
  {
    var m := Move(Nothing, y.workers[id].(pc := Crashed));
    MoveKeepsInv(y, id, m, y.(workers := y.workers[id := m.worker]));
  }

  lemma BeginKeepsInv(y: System, id: WorkerId, req: Request)
    requires Inv(y) && id !in y.workers
    ensures Inv(y.(workers := y.workers[id := Worker(req, None, Ping)]))
  {
  }

  /** One event of any kind keeps every table and every call consistent. */
  lemma StepKeepsInv(y: System, e: Event)
    requires Inv(y)
    ensures Inv(Step(y, e))
  {
    if e.Advance? && e.id in y.workers {
      AdvanceKeepsInv(y, e.id, e.env, e.fault);
    } else if e.Crash? && e.id in y.workers {
      CrashKeepsInv(y, e.id);
    } else if e.Begin? && e.id !in y.workers {
      BeginKeepsInv(y, e.id, e.req);
    }
  }

  lemma {:induction false} RunKeepsInv(y: System, events: seq<Event>)
    requires Inv(y)
    ensures Inv(Exec(y, events))
    decreases |events|
  {
    if events == [] {
    } else {
      StepKeepsInv(y, events[0]);
      RunKeepsInv(Step(y, events[0]), events[1..]);
    }
  }

  // ---- Main results over all runs ----------------------------------------------------------

  /** A state some run of a created session reaches. */
  ghost predicate Reachable(y: System) {
    exists cfg, owner, events: seq<Event> :: Exec(Created(cfg, owner), events) == y
  }

  lemma ReachableInv(y: System)
    requires Reachable(y)
    ensures Inv(y)
  {
    var cfg, owner, events: seq<Event> :| Exec(Created(cfg, owner), events) == y;
    RunKeepsInv(Created(cfg, owner), events);
  }

  /** In every run the turn indices are 0..n-1 in insertion order, and each assistant row answers
      the user row just before it, for the same call and trace. */
  lemma TurnLogIsExact(y: System)
    requires Reachable(y)
    ensures forall i | 0 <= i < |y.store.turns| :: y.store.turns[i].index == i
    ensures forall i | 0 <= i < |y.store.turns| && y.store.turns[i].role == Assistant :: Answers(y.store.turns, i)
  {
    ReachableInv(y);
  }

  /** In every run a key that is not NULL, the empty one included, has at most one row, a user row,
      and of all calls that carry it only the writer of that row ever wrote anything. */
  lemma KeyHasOneWriter(y: System, i: nat, id: WorkerId)
    requires Reachable(y)
    requires i < |y.store.turns| && y.store.turns[i].key.Some?
    requires id in y.workers && y.workers[id].req.key == y.store.turns[i].key && id != y.store.turns[i].writer
    ensures y.store.turns[i].role == User
    ensures forall j | 0 <= j < |y.store.turns| && j != i :: y.store.turns[j].key != y.store.turns[i].key
    ensures forall j | 0 <= j < |y.store.turns| :: y.store.turns[j].writer != id
    ensures forall j | 0 <= j < |y.store.snapshots| :: y.store.snapshots[j].writer != id
  {
    ReachableInv(y);
    var turns := y.store.turns;
    KeyedRowIsUser(turns, i);
    forall j | 0 <= j < |turns|
      ensures turns[j].writer != id
    {
      if turns[j].role == User {
        assert turns[j] == UserRow(j, y.workers[turns[j].writer].req, turns[j].writer);
      } else {
        assert Answers(turns, j);
        assert turns[j - 1] == UserRow(j - 1, y.workers[turns[j - 1].writer].req, turns[j - 1].writer);
      }
    }
    forall j | 0 <= j < |y.store.snapshots|
      ensures y.store.snapshots[j].writer != id
    {
      assert SnapshotOk(turns, y.store.snapshots[j]);
    }
  }

  /** In every run a turn that was returned, processed or replayed, is what the two rows at its
      index say, and their key and fingerprint are the caller's. */
  lemma ReturnedTurnIsOnRecord(y: System, id: WorkerId, o: Outcome)
    requires Reachable(y) && id in y.workers && y.workers[id].pc == Done(o) && o.Returned?
    ensures var turns := y.store.turns; var req := y.workers[id].req;
      && o.ti + 1 < |turns|
      && turns[o.ti].role == User && turns[o.ti].key == req.key && turns[o.ti].bodyHash == Some(req.bodyHash)
      && turns[o.ti + 1].role == Assistant && turns[o.ti + 1].text == o.text
      && turns[o.ti + 1].writer == turns[o.ti].writer
      && (o.processed ==> turns[o.ti].writer == id)
      && (!o.processed ==> HasKey(req))
  {
    ReachableInv(y);
    assert LocalsOk(y.store.turns, id, y.workers[id]);
    assert Answers(y.store.turns, o.ti + 1);
  }

  /** Rows are only ever added. */
  lemma {:induction false} RowsPersist(y: System, events: seq<Event>)
    ensures y.store.turns <= Exec(y, events).store.turns
    ensures y.store.snapshots <= Exec(y, events).store.snapshots
    ensures y.workers.Keys <= Exec(y, events).workers.Keys
    decreases |events|
  {
    if events == [] {
    } else {
      RowsPersist(Step(y, events[0]), events[1..]);
    }
  }

  /** A row that carries the key but another fingerprint shuts the key for this caller: in no
      continuation does the call return a turn. */
  lemma MismatchNeverReturns(y: System, i: nat, id: WorkerId, events: seq<Event>)
    requires Reachable(y)
    requires i < |y.store.turns| && y.store.turns[i].key.Some?
    requires id in y.workers && y.workers[id].req.key == y.store.turns[i].key
    requires y.store.turns[i].bodyHash != Some(y.workers[id].req.bodyHash)
    ensures var z := Exec(y, events); id in z.workers && (z.workers[id].pc.Done? ==> z.workers[id].pc.outcome.Raised?)
  {
    ReachableExec(y, events);
    var z := Exec(y, events);
    RowsPersist(y, events);
    RequestsPersist(y, events, id);
    assert z.store.turns[i] == y.store.turns[i];
    ReachableInv(z);
    if z.workers[id].pc.Done? && z.workers[id].pc.outcome.Returned? {
      ReturnedTurnIsOnRecord(z, id, z.workers[id].pc.outcome);
    }
  }

  lemma ReachableExec(y: System, events: seq<Event>)
    requires Reachable(y)
    ensures Reachable(Exec(y, events))
  {
    var cfg, owner, first: seq<Event> :| Exec(Created(cfg, owner), first) == y;
    ExecConcat(Created(cfg, owner), first, events);
  }

  lemma RequestKept(y: System, e: Event, id: WorkerId)
    requires id in y.workers
    ensures id in Step(y, e).workers && Step(y, e).workers[id].req == y.workers[id].req
  {
    if e.Advance? && e.id == id {
      var m := MoveOf(y.cfg, y.owner, y.store, id, y.workers[id], e.env, e.fault);
      assert m.worker.req == y.workers[id].req;
    }
  }

  lemma {:induction false} RequestsPersist(y: System, events: seq<Event>, id: WorkerId)
    requires id in y.workers
    ensures id in Exec(y, events).workers && Exec(y, events).workers[id].req == y.workers[id].req
    decreases |events|
  {
    if events == [] {
    } else {
      RequestKept(y, events[0], id);
      RequestsPersist(Step(y, events[0]), events[1..], id);
    }
  }

  /** A keyed turn whose call has stopped without an answer. */
  ghost predicate Abandoned(y: System, i: nat) {
    && i < |y.store.turns|
    && y.store.turns[i].key.Some?
    && y.store.turns[i].role == User
    && y.store.turns[i].writer in y.workers
    && Stopped(y.workers[y.store.turns[i].writer].pc)
    && (i + 1 < |y.store.turns| ==> y.store.turns[i + 1].role == User)
  }

  lemma AbandonedStays(y: System, e: Event, i: nat)
    requires Inv(y) && Abandoned(y, i)
    ensures Abandoned(Step(y, e), i)
  {
    var a := y.store.turns[i].writer;
    if e.Advance? && e.id in y.workers && e.id != a {
      var m := MoveOf(y.cfg, y.owner, y.store, e.id, y.workers[e.id], e.env, e.fault);
      MoveIsOk(y.cfg, y.owner, y.store, e.id, y.workers[e.id], e.env, e.fault);
      assert m.effect.AddTurn? && m.effect.row.role == Assistant ==> m.effect.row.index != i + 1;
      if m.effect.AddTurn? { OnlyNextIndexFits(y.store.turns, m.effect.row); }
    }
  }

  lemma {:induction false} AbandonedForever(y: System, events: seq<Event>, i: nat)
    requires Inv(y) && Abandoned(y, i)
    ensures Abandoned(Exec(y, events), i)
    decreases |events|
  {
    if events == [] {
    } else {
      StepKeepsInv(y, events[0]);
      AbandonedStays(y, events[0], i);
      AbandonedForever(Step(y, events[0]), events[1..], i);
    }
  }

  /** Retrying an abandoned key never succeeds: in no continuation does any call with that key
      return a turn. */
  lemma AbandonedKeyNeverReturns(y: System, events: seq<Event>, i: nat, id: WorkerId)
    requires Reachable(y) && Abandoned(y, i)
    requires id in Exec(y, events).workers && Exec(y, events).workers[id].req.key == y.store.turns[i].key
    ensures Exec(y, events).workers[id].pc.Done? ==> Exec(y, events).workers[id].pc.outcome.Raised?
  {
    var z := Exec(y, events);
    ReachableInv(y);
    AbandonedForever(y, events, i);
    RowsPersist(y, events);
    assert z.store.turns[i] == y.store.turns[i];
    ReachableExec(y, events);
    ReachableInv(z);
    if z.workers[id].pc.Done? && z.workers[id].pc.outcome.Returned? {
      ReturnedTurnIsOnRecord(z, id, z.workers[id].pc.outcome);
    }
  }

  /** In every run at most one snapshot belongs to a turn, it belongs to an assistant row of the
      same call, and it stores the text that row returned. */
  lemma SnapshotsMatchTurns(y: System)
    requires Reachable(y)
    ensures forall j | 0 <= j < |y.store.snapshots| :: SnapshotOk(y.store.turns, y.store.snapshots[j])
    ensures forall i, j | 0 <= i < j < |y.store.snapshots| ::
        y.store.snapshots[i].afterTurn != y.store.snapshots[j].afterTurn
  {
    ReachableInv(y);
  }
}
