/** What the rows and the snapshots of a session tell about the calls that wrote them, in every run. */
module Records {
  import opened Wrappers
  import opened ResearchNodes
  import opened Routing
  import opened ConversationMerge
  import opened TurnEngine
  import opened SessionStores
  import opened TurnProtocol
  import opened TurnSafety

  /** An assistant row carries an intent, neither key nor fingerprint, and the fixed text if the intent
      was unclear. */
  predicate Attributed(row: TurnRow) {
    row.role == Assistant ==>
      && row.bodyHash == None && row.key == None && row.intent.Some?
      && (row.intent.value == NeedsClarification ==> row.text == CLARIFY_MESSAGE)
  }

  /** The draft is what the engine made of the message, under an intent that was not unclear. */
  ghost predicate DraftOf(cfg: Settings, d: Draft, message: string, intent: Intent) {
    && intent != NeedsClarification && d.record.message == message && d.record.classification.intent == intent
    && Produced(cfg, d)
  }

  /** Some answers of the engine's collaborators lead from the basis and the message to the draft. */
  ghost predicate Produced(cfg: Settings, d: Draft) {
    exists envs: seq<Env> :: EngineTurn(cfg, d.record.basis, d.record.message, d.record.classification, envs) == Some(d)
  }

  /** What a call at work knows about its draft. */
  ghost predicate KnowsDraft(cfg: Settings, turns: seq<TurnRow>, w: Worker) {
    && (w.pc.RunEngine? ==> !Asks(cfg, w.pc.c))
    && (w.pc.AppendAssistant? ==> DraftOf(cfg, w.pc.draft, w.req.message, w.pc.intent))
    && (w.pc.SaveSnapshot? ==> Answering(cfg, turns, w.pc.ti, w.pc.draft, w.req.message))
  }

  /** The draft was given as the answer in the row after ti. */
  ghost predicate Answering(cfg: Settings, turns: seq<TurnRow>, ti: nat, d: Draft, message: string) {
    ti + 1 < |turns| && turns[ti + 1].intent.Some? && DraftOf(cfg, d, message, turns[ti + 1].intent.value)
  }

  /** A snapshot is what the engine made of the user row before the assistant row it belongs to. */
  ghost predicate Recorded(cfg: Settings, turns: seq<TurnRow>, s: SnapshotRow) {
    && 0 < s.afterTurn < |turns| && turns[s.afterTurn].intent.Some?
    && DraftOf(cfg, Draft(turns[s.afterTurn].text, s.blob, s.record),
               turns[s.afterTurn - 1].text, turns[s.afterTurn].intent.value)
  }

  predicate AllAttributed(turns: seq<TurnRow>) {
    forall i | 0 <= i < |turns| :: Attributed(turns[i])
  }

  ghost predicate AllRecorded(cfg: Settings, turns: seq<TurnRow>, snaps: seq<SnapshotRow>) {
    forall j | 0 <= j < |snaps| :: Recorded(cfg, turns, snaps[j])
  }

  ghost predicate AllKnow(cfg: Settings, turns: seq<TurnRow>, workers: map<WorkerId, Worker>) {
    forall id | id in workers :: KnowsDraft(cfg, turns, workers[id])
  }

  ghost predicate Honest(y: System) {
    && AllAttributed(y.store.turns)
    && AllRecorded(y.cfg, y.store.turns, y.store.snapshots)
    && AllKnow(y.cfg, y.store.turns, y.workers)
  }

  /** The effect of a move and what the call knows after it. */
  ghost predicate HonestMove(cfg: Settings, s: Store, m: Move) {
    && (m.effect.AddTurn? ==> Attributed(m.effect.row))
    && (m.effect.AddSnapshot? ==> Recorded(cfg, s.turns, m.effect.snapshot))
    && KnowsDraft(cfg, Perform(s, m.effect).turns, m.worker)
  }

  lemma EngineProduces(cfg: Settings, basis: Option<StateBlob>, message: string, c: Classification, envs: seq<Env>)
    requires EngineTurn(cfg, basis, message, c, envs).Some? && !Asks(cfg, c)
    ensures DraftOf(cfg, EngineTurn(cfg, basis, message, c, envs).value, message, c.intent)
  {
    var d := EngineTurn(cfg, basis, message, c, envs).value;
    assert d.record.basis == basis && d.record.message == message && d.record.classification == c;
    assert EngineTurn(cfg, d.record.basis, d.record.message, d.record.classification, envs) == Some(d);
  }

  lemma HonestEngine(cfg: Settings, s: Store, id: WorkerId, w: Worker, env: TurnEnv)
    requires KnowsDraft(cfg, s.turns, w) && w.pc.RunEngine?
    ensures HonestMove(cfg, s, Respond(cfg, s, id, w, env))
  {
    var d := EngineTurn(cfg, w.pc.snap, w.req.message, w.pc.c, env.engine);
    if d.Some? {
      EngineProduces(cfg, w.pc.snap, w.req.message, w.pc.c, env.engine);
      assert Respond(cfg, s, id, w, env) == Goto(w, AppendAssistant(w.pc.ti, w.pc.c.intent, d.value));
    }
  }

  lemma InsertRefused(cfg: Settings, s: Store, w: Worker, row: TurnRow, next: Pc)
    requires Violates(s.turns, row)
    ensures HonestMove(cfg, s, Insert(s, w, row, next))
  {
    assert Insert(s, w, row, next) == Move(Nothing, Abort(w, IntegrityError));
  }

  lemma InsertDone(cfg: Settings, s: Store, w: Worker, row: TurnRow, next: Pc)
    requires !Violates(s.turns, row) && Attributed(row) && KnowsDraft(cfg, s.turns + [row], w.(pc := next))
    ensures HonestMove(cfg, s, Insert(s, w, row, next))
  {
    var m := Insert(s, w, row, next);
    assert m.effect == AddTurn(row) && m.worker == w.(pc := next);
    assert Perform(s, m.effect).turns == s.turns + [row];
  }

  lemma HonestAnswer(cfg: Settings, s: Store, id: WorkerId, w: Worker, env: TurnEnv)
    requires Contiguous(s.turns) && KnowsDraft(cfg, s.turns, w) && LocalsOk(s.turns, id, w) && w.pc.AppendAssistant?
    ensures HonestMove(cfg, s, Respond(cfg, s, id, w, env))
  {
    var ti, intent, d := w.pc.ti, w.pc.intent, w.pc.draft;
    AnswerKnown(cfg, s.turns, id, w);
    var row := AssistantRow(ti, d.text, intent, w.req, id);
    if Violates(s.turns, row) {
      InsertRefused(cfg, s, w, row, SaveSnapshot(ti, d));
    } else {
      InsertDone(cfg, s, w, row, SaveSnapshot(ti, d));
    }
  }

  lemma AnswerKnown(cfg: Settings, turns: seq<TurnRow>, id: WorkerId, w: Worker)
    requires Contiguous(turns) && KnowsDraft(cfg, turns, w) && LocalsOk(turns, id, w) && w.pc.AppendAssistant?
    ensures var row := AssistantRow(w.pc.ti, w.pc.draft.text, w.pc.intent, w.req, id);
      && Attributed(row)
      && (!Violates(turns, row) ==> KnowsDraft(cfg, turns + [row], w.(pc := SaveSnapshot(w.pc.ti, w.pc.draft))))
  {
    var row := AssistantRow(w.pc.ti, w.pc.draft.text, w.pc.intent, w.req, id);
    if !Violates(turns, row) {
      OnlyNextIndexFits(turns, row);
      DraftKnown(cfg, turns, row, w.pc.intent, w.(pc := SaveSnapshot(w.pc.ti, w.pc.draft)));
    }
  }

  lemma DraftKnown(cfg: Settings, turns: seq<TurnRow>, row: TurnRow, intent: Intent, w: Worker)
    requires w.pc.SaveSnapshot? && |turns| == w.pc.ti + 1 && row.intent == Some(intent)
    requires DraftOf(cfg, w.pc.draft, w.req.message, intent)
    ensures KnowsDraft(cfg, turns + [row], w)
  {
    assert (turns + [row])[w.pc.ti + 1] == row;
  }

  lemma HonestOpening(cfg: Settings, s: Store, id: WorkerId, w: Worker, env: TurnEnv)
    requires w.pc.AppendUser? || w.pc.Classify? || w.pc.AppendClarify? || w.pc.CacheClarify?
    ensures HonestMove(cfg, s, Open(cfg, s, id, w, env))
  {
    if w.pc.Classify? { AsksExactly(cfg, w.pc.snap, env.c); }
  }

  lemma HonestSave(cfg: Settings, s: Store, id: WorkerId, w: Worker)
    requires KnowsDraft(cfg, s.turns, w) && LocalsOk(s.turns, id, w)
    requires w.pc.SaveSnapshot? || w.pc.CacheDoc?
    ensures HonestMove(cfg, s, Persist(s, id, w))
  {
    if w.pc.SaveSnapshot? {
      var ti, d := w.pc.ti, w.pc.draft;
      assert s.turns[ti].text == w.req.message;
      assert Draft(s.turns[ti + 1].text, d.blob, d.record) == d;
    }
  }

  lemma HonestAttempt(cfg: Settings, owner: string, s: Store, id: WorkerId, w: Worker, env: TurnEnv)
    requires Contiguous(s.turns) && KnowsDraft(cfg, s.turns, w) && LocalsOk(s.turns, id, w)
    ensures HonestMove(cfg, s, Attempt(cfg, owner, s, id, w, env))
  {
    if Stopped(w.pc) {
    } else if Entering(w.pc) {
    } else if Preparing(w.pc) {
      assert HonestMove(cfg, s, Prepare(s, w));
    } else if Releasing(w.pc) {
    } else if w.pc.RunEngine? {
      HonestEngine(cfg, s, id, w, env);
    } else if w.pc.AppendAssistant? {
      HonestAnswer(cfg, s, id, w, env);
    } else if w.pc.SaveSnapshot? || w.pc.CacheDoc? {
      HonestSave(cfg, s, id, w);
    } else {
      HonestOpening(cfg, s, id, w, env);
    }
  }

  lemma HonestStep(cfg: Settings, owner: string, s: Store, id: WorkerId, w: Worker, env: TurnEnv, fault: Fault)
    requires Contiguous(s.turns) && KnowsDraft(cfg, s.turns, w) && LocalsOk(s.turns, id, w)
    ensures HonestMove(cfg, s, MoveOf(cfg, owner, s, id, w, env, fault))
  {
    HonestAttempt(cfg, owner, s, id, w, env);
  }

  lemma KnowsMore(cfg: Settings, turns: seq<TurnRow>, more: seq<TurnRow>, w: Worker)
    requires KnowsDraft(cfg, turns, w) && turns <= more
    ensures KnowsDraft(cfg, more, w)
  {
  }

  lemma RecordedLonger(cfg: Settings, turns: seq<TurnRow>, more: seq<TurnRow>, s: SnapshotRow)
    requires Recorded(cfg, turns, s) && turns <= more
    ensures Recorded(cfg, more, s)
  {
  }

  lemma RowsStayAttributed(s: Store, e: Effect)
    requires AllAttributed(s.turns) && (e.AddTurn? ==> Attributed(e.row))
    ensures AllAttributed(Perform(s, e).turns)
  {
  }

  lemma SnapshotsStayRecorded(cfg: Settings, s: Store, e: Effect)
    requires AllRecorded(cfg, s.turns, s.snapshots) && (e.AddSnapshot? ==> Recorded(cfg, s.turns, e.snapshot))
    ensures AllRecorded(cfg, Perform(s, e).turns, Perform(s, e).snapshots)
  {
    forall j | 0 <= j < |s.snapshots| ensures Recorded(cfg, Perform(s, e).turns, s.snapshots[j]) {
      RecordedLonger(cfg, s.turns, Perform(s, e).turns, s.snapshots[j]);
    }
  }

  lemma OthersKnowTheirs(cfg: Settings, s: Store, e: Effect, workers: map<WorkerId, Worker>, id: WorkerId, w: Worker)
    requires AllKnow(cfg, s.turns, workers) && KnowsDraft(cfg, Perform(s, e).turns, w)
    ensures AllKnow(cfg, Perform(s, e).turns, workers[id := w])
  {
    forall other | other in workers && other != id ensures KnowsDraft(cfg, Perform(s, e).turns, workers[other]) {
      KnowsMore(cfg, s.turns, Perform(s, e).turns, workers[other]);
    }
  }

  lemma MoveKeepsHonest(y: System, id: WorkerId, m: Move)
    requires Honest(y) && id in y.workers && HonestMove(y.cfg, y.store, m)
    ensures Honest(y.(store := Perform(y.store, m.effect), workers := y.workers[id := m.worker]))
  {
    RowsStayAttributed(y.store, m.effect);
    SnapshotsStayRecorded(y.cfg, y.store, m.effect);
    OthersKnowTheirs(y.cfg, y.store, m.effect, y.workers, id, m.worker);
  }

  lemma StepKeepsHonest(y: System, e: Event)
    requires Inv(y) && Honest(y)
    ensures Honest(Step(y, e))
  {
    if e.Advance? && e.id in y.workers {
      HonestStep(y.cfg, y.owner, y.store, e.id, y.workers[e.id], e.env, e.fault);
      MoveKeepsHonest(y, e.id, MoveOf(y.cfg, y.owner, y.store, e.id, y.workers[e.id], e.env, e.fault));
    }
  }

  lemma {:induction false} RunKeepsHonest(y: System, events: seq<Event>)
    requires Inv(y) && Honest(y)
    ensures Honest(Exec(y, events))
    decreases |events|
  {
    if events == [] {
    } else {
      StepKeepsInv(y, events[0]);
      StepKeepsHonest(y, events[0]);
      RunKeepsHonest(Step(y, events[0]), events[1..]);
    }
  }

  lemma ReachableHonest(y: System)
    requires Reachable(y)
    ensures Inv(y) && Honest(y)
  {
    ReachableInv(y);
    var cfg, owner, events: seq<Event> :| Exec(Created(cfg, owner), events) == y;
    RunKeepsHonest(Created(cfg, owner), events);
  }

  /** In every run a user row says what the request of its call says, field by field, and an assistant
      row carries the trace of its call and an intent, but neither key nor fingerprint. */
  lemma RowsTellRequests(y: System, i: nat)
    requires Reachable(y) && i < |y.store.turns|
    ensures var row := y.store.turns[i];
      && row.writer in y.workers
      && var req := y.workers[row.writer].req;
      if row.role == User then
        row == TurnRow(i, User, req.message, Some(req.bodyHash), None, req.trace, req.key, row.writer)
      else
        && row.index == i && row.trace == req.trace && row.bodyHash == None && row.key == None && row.intent.Some?
        && (row.intent == Some(NeedsClarification) ==> row.text == CLARIFY_MESSAGE)
  {
    ReachableHonest(y);
    var row := y.store.turns[i];
    assert Attributed(row);
    if row.role == Assistant {
      assert Answers(y.store.turns, i);
      assert y.store.turns[i - 1].writer == row.writer;
    }
  }

  /** In every run a snapshot is what the engine made of the text of the user row before its assistant
      row, under the intent of that row, which was clear; the row holds the text of the answer. */
  lemma SnapshotsTellTurns(y: System, j: nat)
    requires Reachable(y) && j < |y.store.snapshots|
    ensures var s := y.store.snapshots[j]; var turns := y.store.turns;
      && 0 < s.afterTurn < |turns| && turns[s.afterTurn - 1].writer == s.writer == turns[s.afterTurn].writer
      && s.record.message == turns[s.afterTurn - 1].text
      && Some(s.record.classification.intent) == turns[s.afterTurn].intent != Some(NeedsClarification)
      && Produced(y.cfg, Draft(turns[s.afterTurn].text, s.blob, s.record))
  {
    ReachableHonest(y);
    var s := y.store.snapshots[j];
    assert SnapshotOk(y.store.turns, s) && Answers(y.store.turns, s.afterTurn);
    assert Recorded(y.cfg, y.store.turns, s);
  }
}
