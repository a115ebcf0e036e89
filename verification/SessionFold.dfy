/** A session, however its calls interleave, stores what a simple account of its saved turns says. */
module SessionFold {
  import opened Wrappers
  import opened Json
  import opened ResearchState
  import opened ResearchNodes
  import opened ResearchGraph
  import opened Routing
  import opened ConversationMerge
  import opened TurnEngine
  import opened SessionStores
  import opened TurnProtocol
  import opened LockSafety

  // ---- Every stored blob comes from an engine run --------------------------------------------

  /** The draft is what some run of the engine made of its record. */
  ghost predicate Produced(cfg: Settings, d: Draft) {
    exists envs: seq<Env> ::
      EngineTurn(cfg, d.record.basis, d.record.message, d.record.classification, envs) == Some(d)
  }

  ghost predicate DraftOk(cfg: Settings, pc: Pc) {
    pc.AppendAssistant? || pc.SaveSnapshot? || pc.CacheDoc? ==> Produced(cfg, pc.draft)
  }

  function DraftOf(row: SnapshotRow): Draft { Draft(row.blob.synthesis, row.blob, row.record) }

  ghost predicate RowsGenuine(cfg: Settings, rows: seq<SnapshotRow>) {
    forall j | 0 <= j < |rows| :: Produced(cfg, DraftOf(rows[j]))
  }

  ghost predicate CallsGenuine(cfg: Settings, workers: map<WorkerId, Worker>) {
    forall id | id in workers :: DraftOk(cfg, workers[id].pc)
  }

  ghost predicate Genuine(y: System) {
    RowsGenuine(y.cfg, y.store.snapshots) && CallsGenuine(y.cfg, y.workers)
  }

  lemma EngineProduces(cfg: Settings, snap: Option<StateBlob>, message: string, c: Classification, envs: seq<Env>)
    requires EngineTurn(cfg, snap, message, c, envs).Some?
    ensures var d := EngineTurn(cfg, snap, message, c, envs).value;
            Produced(cfg, d) && d.text == d.blob.synthesis
  {
    var d := EngineTurn(cfg, snap, message, c, envs).value;
    assert EngineTurn(cfg, d.record.basis, d.record.message, d.record.classification, envs) == Some(d);
  }

  lemma ProducedText(cfg: Settings, d: Draft)
    requires Produced(cfg, d)
    ensures d.text == d.blob.synthesis
  {
    var envs :| EngineTurn(cfg, d.record.basis, d.record.message, d.record.classification, envs) == Some(d);
    EngineProduces(cfg, d.record.basis, d.record.message, d.record.classification, envs);
  }

  /** A move brings a draft along, or gets it from the engine. */
  lemma MoveDraft(cfg: Settings, owner: string, s: Store, id: WorkerId, w: Worker, env: TurnEnv, fault: Fault)
    ensures var m := MoveOf(cfg, owner, s, id, w, env, fault);
      && (m.worker.pc.SaveSnapshot? ==>
          (w.pc.AppendAssistant? || w.pc.SaveSnapshot?) && m.worker.pc.draft == w.pc.draft)
      && (m.worker.pc.CacheDoc? ==> (w.pc.SaveSnapshot? || w.pc.CacheDoc?) && m.worker.pc.draft == w.pc.draft)
      && (m.effect.AddSnapshot? ==>
          w.pc.SaveSnapshot? && m.effect.snapshot == SnapshotRow(w.pc.ti + 1, w.pc.draft.blob, w.pc.draft.record, id))
      && (m.worker.pc.AppendAssistant? && !w.pc.AppendAssistant? ==>
          w.pc.RunEngine? && m.worker == Respond(cfg, s, id, w, env).worker)
      && (m.worker.pc.AppendAssistant? && w.pc.AppendAssistant? ==> m.worker.pc.draft == w.pc.draft)
  {
    if Preparing(w.pc) {
      assert !Prepare(s, w).effect.AddSnapshot? && !Prepare(s, w).worker.pc.AppendAssistant?;
    }
  }

  lemma EngineMoveDraft(cfg: Settings, s: Store, id: WorkerId, w: Worker, env: TurnEnv)
    requires w.pc.RunEngine?
    ensures DraftOk(cfg, Respond(cfg, s, id, w, env).worker.pc)
  {
    var d := EngineTurn(cfg, w.pc.snap, w.req.message, w.pc.c, env.engine);
    if d.Some? {
      EngineProduces(cfg, w.pc.snap, w.req.message, w.pc.c, env.engine);
    }
  }

  lemma MoveGenuine(cfg: Settings, owner: string, s: Store, id: WorkerId, w: Worker, env: TurnEnv, fault: Fault)
    requires DraftOk(cfg, w.pc)
    ensures var m := MoveOf(cfg, owner, s, id, w, env, fault);
      DraftOk(cfg, m.worker.pc) && (m.effect.AddSnapshot? ==> Produced(cfg, DraftOf(m.effect.snapshot)))
  {
    MoveDraft(cfg, owner, s, id, w, env, fault);
    if w.pc.RunEngine? { EngineMoveDraft(cfg, s, id, w, env); }
    if w.pc.SaveSnapshot? { ProducedText(cfg, w.pc.draft); }
  }

  lemma RowAdded(cfg: Settings, rows: seq<SnapshotRow>, row: SnapshotRow)
    requires RowsGenuine(cfg, rows) && Produced(cfg, DraftOf(row))
    ensures RowsGenuine(cfg, rows + [row])
  {
  }

  lemma CallMoved(cfg: Settings, workers: map<WorkerId, Worker>, id: WorkerId, w: Worker)
    requires CallsGenuine(cfg, workers) && DraftOk(cfg, w.pc)
    ensures CallsGenuine(cfg, workers[id := w])
  {
  }

  lemma MoveKeepsGenuine(y: System, id: WorkerId, m: Move, snaps: seq<SnapshotRow>)
    requires Genuine(y) && DraftOk(y.cfg, m.worker.pc)
    requires m.effect.AddSnapshot? ==> Produced(y.cfg, DraftOf(m.effect.snapshot))
    requires snaps == y.store.snapshots + (if m.effect.AddSnapshot? then [m.effect.snapshot] else [])
    ensures RowsGenuine(y.cfg, snaps) && CallsGenuine(y.cfg, y.workers[id := m.worker])
  {
    CallMoved(y.cfg, y.workers, id, m.worker);
    if m.effect.AddSnapshot? { RowAdded(y.cfg, y.store.snapshots, m.effect.snapshot); }
    else { assert snaps == y.store.snapshots; }
  }

  lemma SavedBy(s: Store, e: Effect)
    ensures Perform(s, e).snapshots == s.snapshots + (if e.AddSnapshot? then [e.snapshot] else [])
  {
  }

  lemma AdvanceKeepsGenuine(y: System, id: WorkerId, env: TurnEnv, fault: Fault)
    requires Genuine(y) && id in y.workers
    ensures Genuine(Step(y, Advance(id, env, fault)))
  {
    var m := MoveOf(y.cfg, y.owner, y.store, id, y.workers[id], env, fault);
    MoveGenuine(y.cfg, y.owner, y.store, id, y.workers[id], env, fault);
    SavedBy(y.store, m.effect);
    MoveKeepsGenuine(y, id, m, Perform(y.store, m.effect).snapshots);
  }

  lemma StepKeepsGenuine(y: System, e: Event)
    requires Genuine(y)
    ensures Genuine(Step(y, e))
  {
    if e.Advance? && e.id in y.workers {
      AdvanceKeepsGenuine(y, e.id, e.env, e.fault);
    } else if e.Crash? && e.id in y.workers {
      CallMoved(y.cfg, y.workers, e.id, y.workers[e.id].(pc := Crashed));
    } else if e.Begin? {
      CallMoved(y.cfg, y.workers, e.id, Worker(e.req, None, Ping));
    }
  }

  lemma {:induction false} RunKeepsGenuine(y: System, events: seq<Event>)
    requires Genuine(y)
    ensures Genuine(Exec(y, events))
    decreases |events|
  {
    if events == [] {
    } else {
      StepKeepsGenuine(y, events[0]);
      RunKeepsGenuine(Step(y, events[0]), events[1..]);
    }
  }

  // ---- The simple account of a session --------------------------------------------------------

  /** One step per saved turn, oldest first. */
  function Account(rows: seq<SnapshotRow>): Summary {
    if rows == [] then NO_TURNS
    else
      var last := rows[|rows| - 1];
      Extend(Account(rows[..|rows| - 1]), last.blob.synthesis, last.record)
  }

  lemma ProducedExtends(cfg: Settings, row: SnapshotRow, s: Summary)
    requires Produced(cfg, DraftOf(row)) && Basis(row.record.basis, s)
    ensures Shows(row.blob, Extend(s, row.blob.synthesis, row.record))
  {
    var d, r := DraftOf(row), row.record;
    var envs :| EngineTurn(cfg, r.basis, r.message, r.classification, envs) == Some(d);
    TurnExtends(cfg, r.basis, r.message, r.classification, envs, s);
  }

  /** The n-th blob of a genuine chain shows the account of the first n rows. */
  lemma {:induction false} ChainIsAccount(cfg: Settings, rows: seq<SnapshotRow>, n: nat)
    requires Chained(rows) && RowsGenuine(cfg, rows) && n <= |rows|
    ensures Basis(BlobAt(rows, n), Account(rows[..n]))
  {
    if n == 0 {
    } else {
      ChainIsAccount(cfg, rows, n - 1);
      LastExtends(cfg, rows, n - 1, Account(rows[..n - 1]));
      AccountSnoc(rows, n - 1);
    }
  }

  lemma LastExtends(cfg: Settings, rows: seq<SnapshotRow>, n: nat, s: Summary)
    requires n < |rows| && Follows(rows, n) && Produced(cfg, DraftOf(rows[n])) && Basis(BlobAt(rows, n), s)
    ensures Basis(BlobAt(rows, n + 1), Extend(s, rows[n].blob.synthesis, rows[n].record))
  {
    ProducedExtends(cfg, rows[n], s);
  }

  lemma AccountSnoc(rows: seq<SnapshotRow>, n: nat)
    requires n < |rows|
    ensures Account(rows[..n + 1]) == Extend(Account(rows[..n]), rows[n].blob.synthesis, rows[n].record)
  {
    assert rows[..n + 1][..n] == rows[..n];
  }

  lemma WholeChain(cfg: Settings, rows: seq<SnapshotRow>)
    requires Chained(rows) && RowsGenuine(cfg, rows)
    ensures Basis(LatestBlob(rows), Account(rows))
  {
    LatestIsLast(rows);
    ChainIsAccount(cfg, rows, |rows|);
    assert rows[..|rows|] == rows;
  }

  /** In every lock-respecting run of any number of calls, failures and stops included, the latest
      snapshot shows exactly the account of the turns whose snapshot was saved. Turns that only ask
      for clarification, or fail before their save, leave no trace in it. */
  lemma SessionIsAccount(cfg: Settings, owner: string, events: seq<Event>)
    requires RespectsRun(Created(cfg, owner), events)
    ensures var snaps := Exec(Created(cfg, owner), events).store.snapshots;
            Basis(LatestBlob(snaps), Account(snaps))
  {
    var y := Exec(Created(cfg, owner), events);
    RunKeepsLockInv(Created(cfg, owner), events);
    RunKeepsGenuine(Created(cfg, owner), events);
    ExecKeepsConfig(Created(cfg, owner), events);
    WholeChain(cfg, y.store.snapshots);
  }

  lemma {:induction false} ExecKeepsConfig(y: System, events: seq<Event>)
    ensures Exec(y, events).cfg == y.cfg
    decreases |events|
  {
    if events == [] {
    } else {
      ExecKeepsConfig(Step(y, events[0]), events[1..]);
    }
  }

  // ---- What the account says -------------------------------------------------------------------

  /** The non-empty syntheses of the saved turns, in order. */
  function Syntheses(rows: seq<SnapshotRow>): seq<string> {
    if rows == [] then []
    else Syntheses(rows[..|rows| - 1]) + NonEmpty(rows[|rows| - 1].blob.synthesis)
  }

  /** The last saved turn that set the key, if any. */
  function LastSetter(rows: seq<SnapshotRow>, key: string): Option<Json> {
    if rows == [] then None
    else
      var patch := rows[|rows| - 1].record.classification.patch;
      if key in patch then Some(patch[key]) else LastSetter(rows[..|rows| - 1], key)
  }

  lemma {:induction false} AccountHistory(rows: seq<SnapshotRow>)
    ensures Account(rows).history == Syntheses(rows)
  {
    if rows == [] {
    } else {
      AccountHistory(rows[..|rows| - 1]);
    }
  }

  lemma {:induction false} AccountConstraints(rows: seq<SnapshotRow>, key: string)
    ensures key in Account(rows).constraints <==> LastSetter(rows, key).Some?
    ensures key in Account(rows).constraints ==> Account(rows).constraints[key] == LastSetter(rows, key).value
  {
    if rows == [] {
    } else {
      AccountConstraints(rows[..|rows| - 1], key);
    }
  }

  /** The rows since the last new query, that one included; all rows when there is none. */
  function SinceNewQuery(rows: seq<SnapshotRow>): seq<SnapshotRow> {
    if rows == [] then []
    else
      var last := rows[|rows| - 1];
      (if last.record.classification.intent == NewQuery then [] else SinceNewQuery(rows[..|rows| - 1])) + [last]
  }

  function FindingsOf(rows: seq<SnapshotRow>): seq<Finding> {
    if rows == [] then [] else FindingsOf(rows[..|rows| - 1]) + NewFindings(rows[|rows| - 1].record.visits)
  }

  function FoundBy(rows: seq<SnapshotRow>): seq<Source> {
    if rows == [] then [] else FoundBy(rows[..|rows| - 1]) + NewSources(rows[|rows| - 1].record.visits)
  }

  /** The research of an account is that of the turns since the last new query. */
  lemma {:induction false} AccountResearch(rows: seq<SnapshotRow>)
    ensures Account(rows).findings == FindingsOf(SinceNewQuery(rows))
    ensures Account(rows).found == FoundBy(SinceNewQuery(rows))
  {
    if rows == [] {
    } else {
      var front, last := rows[..|rows| - 1], rows[|rows| - 1];
      AccountResearch(front);
      var before := if last.record.classification.intent == NewQuery then [] else SinceNewQuery(front);
      assert SinceNewQuery(rows) == before + [last];
      assert (before + [last])[..|before|] == before;
    }
  }

  /** The history, the constraints and the research of a session in terms of its saved turns. */
  lemma SessionContents(cfg: Settings, owner: string, events: seq<Event>, key: string)
    requires RespectsRun(Created(cfg, owner), events)
    requires Exec(Created(cfg, owner), events).store.snapshots != []
    ensures var rows := Exec(Created(cfg, owner), events).store.snapshots;
      var blob := LatestBlob(rows).value; var research := SinceNewQuery(rows);
      && blob.accumulatedContext + NonEmpty(blob.synthesis) == Syntheses(rows)
      && (key in blob.constraints <==> LastSetter(rows, key).Some?)
      && (key in blob.constraints ==> blob.constraints[key] == LastSetter(rows, key).value)
      && blob.rawFindings == FindingsOf(research)
      && blob.sources == DedupeSources([], FoundBy(research)) && DistinctUrls(blob.sources)
  {
    var rows := Exec(Created(cfg, owner), events).store.snapshots;
    SessionIsAccount(cfg, owner, events);
    AccountHistory(rows);
    AccountConstraints(rows, key);
    AccountResearch(rows);
    DedupeDistinct([], FoundBy(SinceNewQuery(rows)));
  }

  /** A turn that is not a new query only adds: its snapshot has the previous snapshot's findings,
      sources and messages as prefixes. */
  lemma ResearchGrows(cfg: Settings, row: SnapshotRow, s: Summary)
    requires Produced(cfg, DraftOf(row)) && row.record.basis.Some? && Shows(row.record.basis.value, s)
    ensures var before := row.record.basis.value;
      && RestoredAll(before.messagesSerial) + [Human(row.record.message)] <= RestoredAll(row.blob.messagesSerial)
      && (row.record.classification.intent != NewQuery ==>
            before.rawFindings <= row.blob.rawFindings && before.sources <= row.blob.sources)
  {
    ProducedExtends(cfg, row, s);
    DedupeConcat([], s.found, NewSources(row.record.visits));
    DedupeKeepsFirstSeen(DedupeSources([], s.found), NewSources(row.record.visits));
  }

  /** Along a lock-respecting session every snapshot keeps the messages of the one before it, and
      its findings and sources too unless it starts a new query. */
  lemma SnapshotsGrow(cfg: Settings, owner: string, events: seq<Event>, j: nat)
    requires RespectsRun(Created(cfg, owner), events)
    requires 0 < j < |Exec(Created(cfg, owner), events).store.snapshots|
    ensures var rows := Exec(Created(cfg, owner), events).store.snapshots; var before, row := rows[j - 1].blob, rows[j];
      && RestoredAll(before.messagesSerial) + [Human(row.record.message)] <= RestoredAll(row.blob.messagesSerial)
      && (row.record.classification.intent != NewQuery ==>
            before.rawFindings <= row.blob.rawFindings && before.sources <= row.blob.sources)
  {
    var rows := Exec(Created(cfg, owner), events).store.snapshots;
    RunKeepsLockInv(Created(cfg, owner), events);
    RunKeepsGenuine(Created(cfg, owner), events);
    ExecKeepsConfig(Created(cfg, owner), events);
    GrowsAt(cfg, rows, j);
  }

  lemma GrowsAt(cfg: Settings, rows: seq<SnapshotRow>, j: nat)
    requires Chained(rows) && 0 < j < |rows|
    requires RowsGenuine(cfg, rows)
    ensures var before, row := rows[j - 1].blob, rows[j];
      && RestoredAll(before.messagesSerial) + [Human(row.record.message)] <= RestoredAll(row.blob.messagesSerial)
      && (row.record.classification.intent != NewQuery ==>
            before.rawFindings <= row.blob.rawFindings && before.sources <= row.blob.sources)
  {
    ChainIsAccount(cfg, rows, j);
    assert Follows(rows, j);
    ResearchGrows(cfg, rows[j], Account(rows[..j]));
  }
}
