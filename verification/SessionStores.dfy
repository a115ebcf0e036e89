/** The durable tables and the volatile keys of one session. */
module SessionStores {
  import opened Wrappers
  import opened Routing
  import opened ConversationMerge
  import opened TurnEngine

  /** One call of `run_turn`, and one value of the lock key. */
  type WorkerId = nat
  type Token = nat

  datatype Role = User | Assistant

  /** A row of the turn table. `writer` is not stored: it records which call inserted the row. */
  datatype TurnRow = TurnRow(
    index: nat,
    role: Role,
    text: string,
    bodyHash: Option<string>,
    intent: Option<Intent>,
    trace: string,
    key: Option<string>,
    writer: WorkerId)

  /** A row of the snapshot table. `record` and `writer` are not stored: they record its origin. */
  datatype SnapshotRow = SnapshotRow(afterTurn: nat, blob: StateBlob, record: TurnRecord, writer: WorkerId)

  /** The working document; no blob is the empty dictionary. `covers` is not stored: it records
      how many snapshots existed when the document was written. */
  datatype Doc = Doc(blob: Option<StateBlob>, lastTurn: Option<int>, covers: nat)

  /** `coalesce(max(turn_index), -1) + 1`. */
  function NextTurnIndex(turns: seq<TurnRow>): (next: nat)
    ensures forall i | 0 <= i < |turns| :: turns[i].index < next
    ensures next == 0 || exists i | 0 <= i < |turns| :: turns[i].index == next - 1
  {
    if turns == [] then 0
    else
      var rest := NextTurnIndex(turns[..|turns| - 1]);
      var last := turns[|turns| - 1];
      assert last.index == turns[|turns| - 1].index;
      if last.index < rest then rest else last.index + 1
  }

  /** Inserting the row would break one of the two unique constraints; NULL keys never collide. */
  predicate Violates(turns: seq<TurnRow>, row: TurnRow) {
    exists i | 0 <= i < |turns| ::
      turns[i].index == row.index || (row.key.Some? && turns[i].key == row.key)
  }

  function FindByKey(turns: seq<TurnRow>, key: string): (found: Option<TurnRow>)
    ensures found.Some? ==> found.value in turns && found.value.key == Some(key)
    ensures found.None? ==> forall i | 0 <= i < |turns| :: turns[i].key != Some(key)
  {
    if turns == [] then None
    else if turns[0].key == Some(key) then Some(turns[0])
    else FindByKey(turns[1..], key)
  }

  function GetTurn(turns: seq<TurnRow>, index: nat): (found: Option<TurnRow>)
    ensures found.Some? ==> found.value in turns && found.value.index == index
    ensures found.None? ==> forall i | 0 <= i < |turns| :: turns[i].index != index
  {
    if turns == [] then None
    else if turns[0].index == index then Some(turns[0])
    else GetTurn(turns[1..], index)
  }

  /** The snapshot with the greatest `after_turn_index`. */
  function LatestSnapshot(rows: seq<SnapshotRow>): (latest: Option<SnapshotRow>)
    ensures latest.None? <==> rows == []
    ensures latest.Some? ==> latest.value in rows
    ensures latest.Some? ==> forall i | 0 <= i < |rows| :: rows[i].afterTurn <= latest.value.afterTurn
  {
    if rows == [] then None
    else
      var last := rows[|rows| - 1];
      match LatestSnapshot(rows[..|rows| - 1])
      case None => Some(last)
      case Some(best) => if best.afterTurn <= last.afterTurn then Some(last) else Some(best)
  }

  function LatestBlob(rows: seq<SnapshotRow>): Option<StateBlob> {
    match LatestSnapshot(rows)
    case None => None
    case Some(row) => Some(row.blob)
  }

  /** The reply of a store operation that writes. A failed one may have been applied. */
  datatype Reply = Applied | Rejected | Failed

  /** The reply of a store operation that reads. */
  datatype Answer<+T> = Got(value: T) | ReadFailed

  /** Whether a call to a service fails; calls to one that is reliable never do. */
  method Trouble(reliable: bool) returns (failed: bool)
    ensures reliable ==> !failed
  {
    failed := *;
    if reliable { failed := false; }
  }

  class MysqlSessionStore {
    const reliable: bool
    var turns: seq<TurnRow>
    var snapshots: seq<SnapshotRow>

    constructor (reliable: bool)
      ensures turns == [] && snapshots == [] && this.reliable == reliable
    {
      turns, snapshots, this.reliable := [], [], reliable;
    }

    method ReadNextTurnIndex() returns (a: Answer<nat>)
      ensures reliable ==> a.Got?
      ensures a.Got? ==> a.value == NextTurnIndex(turns)
    {
      var failed := Trouble(reliable);
      if failed { return ReadFailed; }
      a := Got(NextTurnIndex(turns));
    }

    method FindTurnByIdempotency(key: string) returns (a: Answer<Option<TurnRow>>)
      ensures reliable ==> a.Got?
      ensures a.Got? ==> a.value == FindByKey(turns, key)
    {
      var failed := Trouble(reliable);
      if failed { return ReadFailed; }
      a := Got(FindByKey(turns, key));
    }

    method ReadTurn(index: nat) returns (a: Answer<Option<TurnRow>>)
      ensures reliable ==> a.Got?
      ensures a.Got? ==> a.value == GetTurn(turns, index)
    {
      var failed := Trouble(reliable);
      if failed { return ReadFailed; }
      a := Got(GetTurn(turns, index));
    }

    method ReadLatestSnapshot() returns (a: Answer<Option<SnapshotRow>>)
      ensures reliable ==> a.Got?
      ensures a.Got? ==> a.value == LatestSnapshot(snapshots)
    {
      var failed := Trouble(reliable);
      if failed { return ReadFailed; }
      a := Got(LatestSnapshot(snapshots));
    }

    /** The commit may raise, and so may the refresh after a commit that went through. */
    method AppendTurn(row: TurnRow) returns (r: Reply)
      modifies `turns
      ensures r == Applied ==> !Violates(old(turns), row) && turns == old(turns) + [row]
      ensures r == Rejected ==> Violates(old(turns), row) && turns == old(turns)
      ensures r == Failed ==> turns == old(turns) || (!Violates(old(turns), row) && turns == old(turns) + [row])
      ensures reliable ==> r != Failed
    {
      var failed := Trouble(reliable);
      if failed { return Failed; }
      if Violates(turns, row) { return Rejected; }
      turns := turns + [row];
      failed := Trouble(reliable);
      if failed { return Failed; }
      r := Applied;
    }

    method SaveSnapshot(row: SnapshotRow) returns (r: Reply)
      modifies `snapshots
      ensures r == Applied ==> snapshots == old(snapshots) + [row]
      ensures r == Failed ==> snapshots == old(snapshots) || snapshots == old(snapshots) + [row]
      ensures r != Rejected && (reliable ==> r == Applied)
    {
      var failed := Trouble(reliable);
      if failed { return Failed; }
      snapshots := snapshots + [row];
      failed := Trouble(reliable);
      if failed { return Failed; }
      r := Applied;
    }
  }

  class RedisSessionStore {
    const reliable: bool
    var lock: Option<Token>
    var doc: Option<Doc>
    var minted: nat  // tokens stored so far; each stored token is new

    constructor (reliable: bool)
      ensures lock == None && doc == None && minted == 0 && this.reliable == reliable
    {
      lock, doc, minted, this.reliable := None, None, 0, reliable;
    }

    method ReadPing() returns (ok: bool)
      ensures reliable ==> ok
    {
      var failed := Trouble(reliable);
      ok := !failed;
    }

    /** `SET key token NX PX ttl`: Got(None) when the key exists. */
    method AcquireTurnLock() returns (a: Answer<Option<Token>>)
      modifies `lock, `minted
      ensures a.Got? && a.value.Some? ==>
        old(lock) == None && a.value.value == old(minted) && lock == a.value && minted == old(minted) + 1
      ensures a.Got? && a.value.None? ==> old(lock) != None && lock == old(lock) && minted == old(minted)
      ensures a.ReadFailed? ==>
        || (lock == old(lock) && minted == old(minted))
        || (old(lock) == None && lock == Some(old(minted)) && minted == old(minted) + 1)
      ensures reliable ==> a.Got?
    {
      var failed := Trouble(reliable);
      if failed { return ReadFailed; }
      if lock != None { return Got(None); }
      lock, minted := Some(minted), minted + 1;
      failed := Trouble(reliable);
      if failed { return ReadFailed; }
      a := Got(lock);
    }

    method ReadLock() returns (a: Answer<Option<Token>>)
      ensures reliable ==> a.Got?
      ensures a.Got? ==> a.value == lock
    {
      var failed := Trouble(reliable);
      if failed { return ReadFailed; }
      a := Got(lock);
    }

    method DeleteLock() returns (r: Reply)
      modifies `lock
      ensures r == Applied ==> lock == None
      ensures r == Failed ==> lock == old(lock) || lock == None
      ensures r != Rejected && (reliable ==> r == Applied)
    {
      var failed := Trouble(reliable);
      if failed { return Failed; }
      lock := None;
      failed := Trouble(reliable);
      if failed { return Failed; }
      r := Applied;
    }

    method GetWorkingDoc() returns (a: Answer<Option<Doc>>)
      ensures reliable ==> a.Got?
      ensures a.Got? ==> a.value == doc
    {
      var failed := Trouble(reliable);
      if failed { return ReadFailed; }
      a := Got(doc);
    }

    method SetWorkingDoc(d: Doc) returns (r: Reply)
      modifies `doc
      ensures r == Applied ==> doc == Some(d)
      ensures r == Failed ==> doc == old(doc) || doc == Some(d)
      ensures r != Rejected && (reliable ==> r == Applied)
    {
      var failed := Trouble(reliable);
      if failed { return Failed; }
      doc := Some(d);
      failed := Trouble(reliable);
      if failed { return Failed; }
      r := Applied;
    }
  }
}
