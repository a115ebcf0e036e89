/** What every snapshot of a session says, in every run, also when lock keys expire under their holders. */
module SnapshotLineage {
  import opened Wrappers
  import opened ConversationMerge
  import opened TurnEngine
  import opened SessionStores
  import opened TurnProtocol
  import opened LockSafety
  import opened SessionFold

  // ---- Snapshots are computed from stored snapshots ------------------------------------------------

  /** There is no blob, or it is that of one of the first n rows. */
  ghost predicate Stored(rows: seq<SnapshotRow>, n: nat, blob: Option<StateBlob>)
    requires n <= |rows|
  {
    blob.Some? ==> exists k :: 0 <= k < n && rows[k].blob == blob.value
  }

  /** The blob a call works from, once it has loaded it. */
  function Held(pc: Pc): Option<Option<StateBlob>> {
    match pc
    case GetDoc(snap) => Some(snap)
    case ReloadDoc(snap) => Some(snap)
    case NextIndex(snap) => Some(snap)
    case AppendUser(snap, _) => Some(snap)
    case Classify(snap, _) => Some(snap)
    case AppendClarify(snap, _) => Some(snap)
    case CacheClarify(snap, _) => Some(snap)
    case RunEngine(snap, _, _) => Some(snap)
    case AppendAssistant(_, _, d) => Some(d.record.basis)
    case SaveSnapshot(_, d) => Some(d.record.basis)
    case CacheDoc(_, d) => Some(d.record.basis)
    case _ => None
  }

  ghost predicate Knows(rows: seq<SnapshotRow>, pc: Pc) {
    Held(pc).Some? ==> Stored(rows, |rows|, Held(pc).value)
  }

  /** Each row was computed from nothing or from an earlier row. */
  ghost predicate Descends(rows: seq<SnapshotRow>) {
    forall j | 0 <= j < |rows| :: Stored(rows, j, rows[j].record.basis)
  }

  ghost predicate Informed(y: System) {
    && Descends(y.store.snapshots)
    && forall id | id in y.workers :: Knows(y.store.snapshots, y.workers[id].pc)
  }

  lemma LatestIsStored(rows: seq<SnapshotRow>)
    ensures Stored(rows, |rows|, LatestBlob(rows))
  {
  }

  lemma RespondHolds(cfg: Settings, s: Store, id: WorkerId, w: Worker, env: TurnEnv)
    requires w.pc.RunEngine? || w.pc.AppendAssistant?
    ensures var next := Held(Respond(cfg, s, id, w, env).worker.pc); next == None || next == Held(w.pc)
  {
    if w.pc.RunEngine? { EngineBasis(cfg, w.pc.snap, w.req.message, w.pc.c, env.engine); }
  }

  /** A move drops its blob, keeps it, or loads the latest; what it saves was computed from it. */
  ghost predicate HoldsOn(s: Store, w: Worker, m: Move) {
    var next := Held(m.worker.pc);
    && (next == None || next == Held(w.pc) || next == Some(LatestBlob(s.snapshots)))
    && (m.effect.AddSnapshot? ==> Held(w.pc) == Some(m.effect.snapshot.record.basis))
  }

  lemma AttemptHolds(cfg: Settings, owner: string, s: Store, id: WorkerId, w: Worker, env: TurnEnv)
    ensures HoldsOn(s, w, Attempt(cfg, owner, s, id, w, env))
  {
    if w.pc.RunEngine? || w.pc.AppendAssistant? {
      RespondHolds(cfg, s, id, w, env);
    } else if Preparing(w.pc) {
      PrepareHolds(s, w);
    }
  }

  lemma MoveHolds(cfg: Settings, owner: string, s: Store, id: WorkerId, w: Worker, env: TurnEnv, fault: Fault)
    ensures HoldsOn(s, w, MoveOf(cfg, owner, s, id, w, env, fault))
  {
    AttemptHolds(cfg, owner, s, id, w, env);
    assert Held(Abort(w, StoreFailure).pc) == None && Held(Abort(w, StorageDegraded).pc) == None;
  }

  lemma PrepareHolds(s: Store, w: Worker)
    requires Preparing(w.pc)
    ensures HoldsOn(s, w, Prepare(s, w)) && !Prepare(s, w).effect.AddSnapshot?
  {
  }

  /** Rows that are added later change nothing for what is known. */
  lemma KnowsStable(rows: seq<SnapshotRow>, row: SnapshotRow, pc: Pc)
    requires Knows(rows, pc)
    ensures Knows(rows + [row], pc)
  {
    var more := rows + [row];
    if Held(pc).Some? && Held(pc).value.Some? {
      var k :| 0 <= k < |rows| && rows[k].blob == Held(pc).value.value;
      assert more[k].blob == Held(pc).value.value;
    }
  }

  lemma DescendsStable(rows: seq<SnapshotRow>, row: SnapshotRow)
    requires Descends(rows) && Stored(rows, |rows|, row.record.basis)
    ensures Descends(rows + [row])
  {
    var more := rows + [row];
    forall j | 0 <= j < |more| ensures Stored(more, j, more[j].record.basis) {
      var basis := more[j].record.basis;
      assert Stored(rows, j, basis);
      if basis.Some? {
        var k :| 0 <= k < j && rows[k].blob == basis.value;
        assert more[k] == rows[k];
      }
    }
  }

  lemma MoveKeepsInformed(y: System, id: WorkerId, m: Move)
    requires Informed(y) && id in y.workers && HoldsOn(y.store, y.workers[id], m)
    ensures Informed(y.(store := Perform(y.store, m.effect), workers := y.workers[id := m.worker]))
  {
    var rows, workers := y.store.snapshots, y.workers[id := m.worker];
    LatestIsStored(rows);
    assert Knows(rows, y.workers[id].pc);
    assert Knows(rows, m.worker.pc);
    if m.effect.AddSnapshot? {
      DescendsStable(rows, m.effect.snapshot);
      forall other | other in workers ensures Knows(rows + [m.effect.snapshot], workers[other].pc) {
        KnowsStable(rows, m.effect.snapshot, workers[other].pc);
      }
    }
  }

  lemma StepKeepsInformed(y: System, e: Event)
    requires Informed(y)
    ensures Informed(Step(y, e))
  {
    if e.Advance? && e.id in y.workers {
      MoveHolds(y.cfg, y.owner, y.store, e.id, y.workers[e.id], e.env, e.fault);
      MoveKeepsInformed(y, e.id, MoveOf(y.cfg, y.owner, y.store, e.id, y.workers[e.id], e.env, e.fault));
    }
  }

  lemma {:induction false} RunKeepsInformed(y: System, events: seq<Event>)
    requires Informed(y)
    ensures Informed(Exec(y, events))
    decreases |events|
  {
    if events == [] {
    } else {
      StepKeepsInformed(y, events[0]);
      RunKeepsInformed(Step(y, events[0]), events[1..]);
    }
  }

  // ---- The account of a line of snapshots ------------------------------------------------------------

  ghost predicate Within(rows: seq<SnapshotRow>, line: seq<nat>) {
    forall k | 0 <= k < |line| :: line[k] < |rows|
  }

  /** Rows in the order of saving, the first computed from nothing, each other from the one before it. */
  ghost predicate Line(rows: seq<SnapshotRow>, line: seq<nat>) {
    line != [] && Within(rows, line) &&
    var front, last := line[..|line| - 1], line[|line| - 1];
    if front == [] then rows[last].record.basis == None
    else
      var parent := front[|front| - 1];
      parent < last && rows[last].record.basis == Some(rows[parent].blob) && Line(rows, front)
  }

  ghost function Along(rows: seq<SnapshotRow>, line: seq<nat>): seq<SnapshotRow>
    requires Within(rows, line)
  {
    if line == [] then [] else Along(rows, line[..|line| - 1]) + [rows[line[|line| - 1]]]
  }

  lemma LineSnoc(rows: seq<SnapshotRow>, front: seq<nat>, j: nat)
    requires Line(rows, front) && front[|front| - 1] < j < |rows|
    requires rows[j].record.basis == Some(rows[front[|front| - 1]].blob)
    ensures Line(rows, front + [j])
  {
    assert (front + [j])[..|front|] == front;
  }

  lemma AccountAlong(rows: seq<SnapshotRow>, front: seq<nat>, j: nat)
    requires Within(rows, front) && j < |rows|
    ensures Within(rows, front + [j])
    ensures Account(Along(rows, front + [j])) ==
            Extend(Account(Along(rows, front)), rows[j].blob.synthesis, rows[j].record)
  {
    var line := front + [j];
    assert line[..|front|] == front;
    var along := Along(rows, front);
    assert (along + [rows[j]])[..|along|] == along;
  }

  /** Every stored snapshot ends a line of snapshots and shows the account of it. */
  lemma {:induction false} BlobShowsLine(cfg: Settings, rows: seq<SnapshotRow>, j: nat) returns (line: seq<nat>)
    requires RowsGenuine(cfg, rows) && Descends(rows) && j < |rows|
    ensures Line(rows, line) && line[|line| - 1] == j
    ensures Shows(rows[j].blob, Account(Along(rows, line)))
  {
    assert Stored(rows, j, rows[j].record.basis);
    assert Produced(cfg, DraftOf(rows[j]));
    if rows[j].record.basis == None {
      line := [j];
      AccountAlong(rows, [], j);
      ProducedExtends(cfg, rows[j], NO_TURNS);
      assert [] + [j] == [j];
    } else {
      var k :| 0 <= k < j && rows[k].blob == rows[j].record.basis.value;
      var front := BlobShowsLine(cfg, rows, k);
      line := front + [j];
      LineSnoc(rows, front, j);
      AccountAlong(rows, front, j);
      ProducedExtends(cfg, rows[j], Account(Along(rows, front)));
    }
  }

  /** In every run, with any failures and expiries, each snapshot shows exactly the account of a line
      of saved turns that leads to it: an expiry may split a session into several lines, but no
      snapshot ever mixes two of them or contains anything that was not saved. */
  lemma EverySnapshotIsAccount(cfg: Settings, owner: string, events: seq<Event>, j: nat) returns (line: seq<nat>)
    requires j < |Exec(Created(cfg, owner), events).store.snapshots|
    ensures var rows := Exec(Created(cfg, owner), events).store.snapshots;
      Line(rows, line) && line[|line| - 1] == j && Shows(rows[j].blob, Account(Along(rows, line)))
  {
    RunKeepsInformed(Created(cfg, owner), events);
    RunKeepsGenuine(Created(cfg, owner), events);
    ExecKeepsConfig(Created(cfg, owner), events);
    line := BlobShowsLine(cfg, Exec(Created(cfg, owner), events).store.snapshots, j);
  }
}
