/** Seeding the tool registry: insert what is missing, then bring every seeded row in line. */
module SeedSync {
  import opened Wrappers
  import opened Json
  import opened Picking

  datatype ToolDef = ToolDef(
    toolId: string, name: string, description: string, version: string, endpoint: string, verb: Option<string>,
    inputSchema: Json, outputSchema: Json, healthCheck: Option<string>, status: Option<string>,
    capabilities: seq<string>)

  /** A row of the table `tools` with its capabilities; `usage` stands for latency and cost, which seeding leaves
      alone. */
  datatype ToolRow = ToolRow(
    name: string, description: string, version: string, endpoint: string, verb: string,
    inputSchema: Json, outputSchema: Json, healthCheck: Option<string>, status: string, capabilities: seq<string>,
    createdAt: int, updatedAt: int, usage: (real, real))

  type Table = map<string, ToolRow>

  function VerbOf(d: ToolDef): string { d.verb.GetOr("POST") }

  function NewRow(d: ToolDef, now: int): ToolRow {
    ToolRow(d.name, d.description, d.version, d.endpoint, VerbOf(d), d.inputSchema, d.outputSchema, d.healthCheck,
            "active", d.capabilities, now, now, (0.0, 0.0))
  }

  /** A definition without a status revives an inactive tool and leaves any other status alone. */
  function StatusUnder(d: ToolDef, status: string): string {
    match d.status
    case Some(s) => s
    case None => if status == "inactive" then "active" else status
  }

  function Aligned(r: ToolRow, d: ToolDef, status: string, now: int): ToolRow {
    r.(name := d.name, description := d.description, endpoint := d.endpoint, verb := VerbOf(d),
       inputSchema := d.inputSchema, outputSchema := d.outputSchema, healthCheck := d.healthCheck,
       status := status, updatedAt := now)
  }

  // ---- What the two loops compute -----------------------------------------------------------------

  /** `clock(i)` is the time at which the i-th definition is looked at. */
  function InsertMissing(t: Table, defs: seq<ToolDef>, clock: nat -> int): Table {
    if defs == [] then t
    else
      var n := |defs| - 1;
      var before := InsertMissing(t, defs[..n], clock);
      if defs[n].toolId in before then before else before[defs[n].toolId := NewRow(defs[n], clock(n))]
  }

  function SyncAll(t: Table, defs: seq<ToolDef>, now: int): Table {
    if defs == [] then t
    else
      var d := defs[|defs| - 1];
      var before := SyncAll(t, defs[..|defs| - 1], now);
      if d.toolId in before then
        var r := before[d.toolId];
        before[d.toolId := Aligned(r, d, StatusUnder(d, r.status), now)]
      else before
  }

  function Seeded(t: Table, defs: seq<ToolDef>, clock: nat -> int, now: int): Table {
    SyncAll(InsertMissing(t, defs, clock), defs, now)
  }

  /** The unique index on (tool_id, capability) admits every row that seeding would insert. */
  predicate Admits(t: Table, defs: seq<ToolDef>) {
    forall i | 0 <= i < |defs| && defs[i].toolId !in t && !Defines(defs[..i], defs[i].toolId) ::
      Distinct(defs[i].capabilities)
  }

  predicate Defines(defs: seq<ToolDef>, id: string) {
    exists i :: 0 <= i < |defs| && defs[i].toolId == id
  }

  /** A database session: what is committed, and what this session sees. */
  class Session {
    const reliable: bool
    var committed: Table
    var pending: Table

    constructor (t: Table, reliable: bool)
      ensures committed == pending == t && this.reliable == reliable
    {
      committed, pending, this.reliable := t, t, reliable;
    }

    /** Whether a statement fails for a reason of the database. */
    method Trouble() returns (failed: bool)
      ensures reliable ==> !failed
    {
      failed := *;
      if reliable { failed := false; }
    }

    method Rollback()
      modifies this`pending
      ensures pending == committed
    {
      pending := committed;
    }

    /** A statement may fail; then the caller rolls back. */
    method SyncExistingTools(defs: seq<ToolDef>, now: int) returns (ok: bool)
      modifies this`pending
      ensures ok ==> pending == SyncAll(old(pending), defs, now)
      ensures reliable ==> ok
    {
      for i := 0 to |defs|
        invariant pending == SyncAll(old(pending), defs[..i], now)
      {
        assert defs[..i + 1][..i] == defs[..i];
        var failed := Trouble();
        if failed { return false; }
        var d := defs[i];
        if d.toolId !in pending { continue; }
        var row := pending[d.toolId];
        var status := row.status;
        if d.status.Some? {
          status := d.status.value;
        } else if row.status == "inactive" {
          status := "active";
        }
        pending := pending[d.toolId := Aligned(row, d, status, now)];
      }
      assert defs[..|defs|] == defs;
      return true;
    }

    /** Inserts what is missing, aligns the rest, commits; any failure rolls back. A commit may take
        effect although its acknowledgement is lost, so a failed run leaves all of its work or none. */
    method Seed(defs: seq<ToolDef>, clock: nat -> int, now: int) returns (inserted: Option<nat>)
      modifies this
      ensures pending == committed
      ensures inserted.Some? ==>
        && committed == Seeded(old(pending), defs, clock, now)
        && inserted.value == |committed| - |old(pending)|
        && Admits(old(pending), defs)
      ensures inserted.None? ==> committed == old(committed) || committed == Seeded(old(pending), defs, clock, now)
      ensures reliable ==> (inserted.Some? <==> Admits(old(pending), defs))
    {
      var count := 0;
      for i := 0 to |defs|
        invariant committed == old(committed)
        invariant pending == InsertMissing(old(pending), defs[..i], clock)
        invariant count == |pending| - |old(pending)|
        invariant Admits(old(pending), defs[..i])
      {
        assert defs[..i + 1][..i] == defs[..i];
        InsertedKeys(old(pending), defs[..i], clock);
        var failed := Trouble();
        if failed { Rollback(); return None; }
        if defs[i].toolId !in pending {
          if !Distinct(defs[i].capabilities) { Rollback(); return None; }
          pending := pending[defs[i].toolId := NewRow(defs[i], clock(i))];
          count := count + 1;
        }
        AdmitsNext(old(pending), defs, i);
      }
      assert defs[..|defs|] == defs;
      var ok := SyncExistingTools(defs, now);
      if !ok { Rollback(); return None; }
      SyncedKeys(InsertMissing(old(pending), defs, clock), defs, now);
      var failed := Trouble();
      if failed { Rollback(); return None; }
      committed := pending;
      failed := Trouble();
      if failed { Rollback(); return None; }
      return Some(count);
    }
  }

  lemma AdmitsNext(t: Table, defs: seq<ToolDef>, i: nat)
    requires i < |defs| && Admits(t, defs[..i])
    requires (defs[i].toolId in t || Defines(defs[..i], defs[i].toolId)) || Distinct(defs[i].capabilities)
    ensures Admits(t, defs[..i + 1])
  {
    var next := defs[..i + 1];
    forall k | 0 <= k < i + 1 && next[k].toolId !in t && !Defines(next[..k], next[k].toolId)
      ensures Distinct(next[k].capabilities)
    {
      assert next[..k] == defs[..k] && next[k] == defs[k];
      if k < i {
        assert defs[..i][..k] == defs[..k] && defs[..i][k] == defs[k];
      }
    }
  }

  // ---- Rows that exist afterwards ------------------------------------------------------------------

  lemma DefinesSplit(defs: seq<ToolDef>, id: string)
    requires defs != []
    ensures Defines(defs, id) <==> Defines(defs[..|defs| - 1], id) || defs[|defs| - 1].toolId == id
  {
    var front := defs[..|defs| - 1];
    if Defines(front, id) {
      var i :| 0 <= i < |front| && front[i].toolId == id;
      assert defs[i].toolId == id;
    }
    if Defines(defs, id) {
      var i :| 0 <= i < |defs| && defs[i].toolId == id;
      assert i < |front| ==> front[i].toolId == id;
    }
  }

  lemma {:induction false} InsertedKeys(t: Table, defs: seq<ToolDef>, clock: nat -> int)
    ensures forall id :: id in InsertMissing(t, defs, clock) <==> id in t || Defines(defs, id)
    ensures forall id | id in t :: InsertMissing(t, defs, clock)[id] == t[id]
  {
    if defs == [] {
    } else {
      InsertedKeys(t, defs[..|defs| - 1], clock);
      forall id {
        DefinesSplit(defs, id);
      }
    }
  }

  lemma {:induction false} SyncedKeys(t: Table, defs: seq<ToolDef>, now: int)
    ensures SyncAll(t, defs, now).Keys == t.Keys
    ensures |SyncAll(t, defs, now)| == |t|
  {
    if defs == [] {
    } else {
      SyncedKeys(t, defs[..|defs| - 1], now);
    }
    assert |SyncAll(t, defs, now).Keys| == |t.Keys|;
  }

  /** No row is ever removed, every seed id exists afterwards, and no other row appears. */
  lemma SeededKeys(t: Table, defs: seq<ToolDef>, clock: nat -> int, now: int)
    ensures forall id :: id in Seeded(t, defs, clock, now) <==> id in t || Defines(defs, id)
  {
    InsertedKeys(t, defs, clock);
    SyncedKeys(InsertMissing(t, defs, clock), defs, now);
  }

  // ---- What each row becomes -----------------------------------------------------------------------

  function FirstOf(defs: seq<ToolDef>, id: string): (i: nat)
    requires Defines(defs, id)
    ensures i < |defs| && defs[i].toolId == id && !Defines(defs[..i], id)
  {
    var n := |defs| - 1;
    DefinesSplit(defs, id);
    if Defines(defs[..n], id) then
      assert forall i | 0 <= i < n :: defs[..n][..i] == defs[..i];
      FirstOf(defs[..n], id)
    else n
  }

  function LastOf(defs: seq<ToolDef>, id: string): (d: ToolDef)
    requires Defines(defs, id)
    ensures d.toolId == id && d in defs
  {
    DefinesSplit(defs, id);
    if defs[|defs| - 1].toolId == id then defs[|defs| - 1] else LastOf(defs[..|defs| - 1], id)
  }

  /** The status after the definitions of `id` have been applied in order. */
  function StatusAfter(defs: seq<ToolDef>, id: string, status: string): string {
    if defs == [] then status
    else
      var d := defs[|defs| - 1];
      var before := StatusAfter(defs[..|defs| - 1], id, status);
      if d.toolId == id then StatusUnder(d, before) else before
  }

  lemma {:induction false} InsertedRow(t: Table, defs: seq<ToolDef>, clock: nat -> int, id: string)
    requires id !in t && Defines(defs, id)
    ensures id in InsertMissing(t, defs, clock)
    ensures var i := FirstOf(defs, id); InsertMissing(t, defs, clock)[id] == NewRow(defs[i], clock(i))
  {
    var n := |defs| - 1;
    InsertedKeys(t, defs[..n], clock);
    DefinesSplit(defs, id);
    if Defines(defs[..n], id) { InsertedRow(t, defs[..n], clock, id); }
  }

  lemma {:induction false} SyncedRow(t: Table, defs: seq<ToolDef>, now: int, id: string)
    requires id in t
    ensures id in SyncAll(t, defs, now)
    ensures Defines(defs, id) ==>
      SyncAll(t, defs, now)[id] == Aligned(t[id], LastOf(defs, id), StatusAfter(defs, id, t[id].status), now)
    ensures !Defines(defs, id) ==> SyncAll(t, defs, now)[id] == t[id]
  {
    if defs == [] {
    } else {
      var front := defs[..|defs| - 1];
      SyncedRow(t, front, now, id);
      DefinesSplit(defs, id);
      StatusUntouched(front, id, t[id].status);
    }
  }

  lemma {:induction false} StatusUntouched(defs: seq<ToolDef>, id: string, status: string)
    ensures !Defines(defs, id) ==> StatusAfter(defs, id, status) == status
  {
    if defs == [] {
    } else {
      StatusUntouched(defs[..|defs| - 1], id, status);
      DefinesSplit(defs, id);
    }
  }

  /** The row an id has before alignment: its own, or a new one from the first definition. */
  function BaseRow(t: Table, defs: seq<ToolDef>, clock: nat -> int, id: string): ToolRow
    requires id in t || Defines(defs, id)
  {
    if id in t then t[id] else NewRow(defs[FirstOf(defs, id)], clock(FirstOf(defs, id)))
  }

  /** Rows that no definition names are untouched. A named row takes what its last definition says,
      its status folds over all of its definitions, and version, capabilities, creation time and
      usage stay those of the existing row, or come from the first definition if there was none. */
  lemma SeededRow(t: Table, defs: seq<ToolDef>, clock: nat -> int, now: int, id: string)
    requires id in t || Defines(defs, id)
    ensures id in Seeded(t, defs, clock, now)
    ensures !Defines(defs, id) ==> Seeded(t, defs, clock, now)[id] == t[id]
    ensures Defines(defs, id) ==>
      var base := BaseRow(t, defs, clock, id);
      Seeded(t, defs, clock, now)[id] == Aligned(base, LastOf(defs, id), StatusAfter(defs, id, base.status), now)
  {
    InsertedKeys(t, defs, clock);
    if id !in t { InsertedRow(t, defs, clock, id); }
    SyncedRow(InsertMissing(t, defs, clock), defs, now, id);
  }

  // ---- Status --------------------------------------------------------------------------------------

  /** Some definition of `id` carries a status. */
  predicate Fixes(defs: seq<ToolDef>, id: string) {
    exists i :: 0 <= i < |defs| && defs[i].toolId == id && defs[i].status.Some?
  }

  lemma {:induction false} StatusShape(defs: seq<ToolDef>, id: string, s: string, s': string)
    ensures Fixes(defs, id) ==> StatusAfter(defs, id, s) == StatusAfter(defs, id, s')
    ensures !Fixes(defs, id) ==>
        StatusAfter(defs, id, s) == if Defines(defs, id) && s == "inactive" then "active" else s
  {
    if defs == [] {
    } else {
      var front, d := defs[..|defs| - 1], defs[|defs| - 1];
      StatusShape(front, id, s, s');
      DefinesSplit(defs, id);
      if Fixes(front, id) {
        var i :| 0 <= i < |front| && front[i].toolId == id && front[i].status.Some?;
        assert defs[i] == front[i];
      }
      if Fixes(defs, id) {
        var i :| 0 <= i < |defs| && defs[i].toolId == id && defs[i].status.Some?;
        assert i < |front| ==> front[i] == defs[i];
      }
    }
  }

  /** Where the seed fixes no status, operators' choices survive except `inactive`; where it does,
      the outcome does not depend on the row. */
  lemma StatusOfSeeded(t: Table, defs: seq<ToolDef>, clock: nat -> int, now: int, id: string)
    requires Defines(defs, id)
    ensures id in Seeded(t, defs, clock, now)
    ensures var s := Seeded(t, defs, clock, now)[id].status;
      && (!Fixes(defs, id) ==> s == if id in t && t[id].status != "inactive" then t[id].status else "active")
      && (Fixes(defs, id) ==> s == StatusAfter(defs, id, "active"))
  {
    SeededRow(t, defs, clock, now, id);
    StatusShape(defs, id, BaseRow(t, defs, clock, id).status, "active");
  }

  /** The last definition of an id, by position. */
  predicate LastAt(defs: seq<ToolDef>, id: string, j: nat) {
    j < |defs| && defs[j].toolId == id && forall i | j < i < |defs| :: defs[i].toolId != id
  }

  predicate FirstAt(defs: seq<ToolDef>, id: string, j: nat) {
    j < |defs| && defs[j].toolId == id && forall i | 0 <= i < j :: defs[i].toolId != id
  }

  lemma {:induction false} LastOfIs(defs: seq<ToolDef>, id: string, j: nat)
    requires LastAt(defs, id, j)
    ensures Defines(defs, id) && LastOf(defs, id) == defs[j]
  {
    assert Defines(defs, id);
    var n := |defs| - 1;
    DefinesSplit(defs, id);
    if j < n {
      assert LastAt(defs[..n], id, j);
      LastOfIs(defs[..n], id, j);
    }
  }

  lemma FirstOfIs(defs: seq<ToolDef>, id: string, j: nat)
    requires FirstAt(defs, id, j)
    ensures Defines(defs, id) && FirstOf(defs, id) == j
  {
    assert Defines(defs, id);
    assert FirstOf(defs, id) <= j;
  }

  /** What the seeded row of a defined id says, field by field: the last definition gives name, texts,
      schemas, endpoint, health check and verb, `POST` if it names none. */
  lemma SeededFields(t: Table, defs: seq<ToolDef>, clock: nat -> int, now: int, id: string, last: nat)
    requires LastAt(defs, id, last)
    ensures id in Seeded(t, defs, clock, now)
    ensures var r, d := Seeded(t, defs, clock, now)[id], defs[last];
      && r.name == d.name && r.description == d.description && r.endpoint == d.endpoint
      && r.inputSchema == d.inputSchema && r.outputSchema == d.outputSchema && r.healthCheck == d.healthCheck
      && r.verb == (if d.verb.Some? then d.verb.value else "POST") && r.updatedAt == now
  {
    LastOfIs(defs, id, last);
    SeededRow(t, defs, clock, now, id);
  }

  /** Version, capabilities, creation time and usage of an existing row stay; those of a new row are the
      first definition's, with no usage yet. */
  lemma SeededOrigin(t: Table, defs: seq<ToolDef>, clock: nat -> int, now: int, id: string, first: nat)
    requires FirstAt(defs, id, first)
    ensures id in Seeded(t, defs, clock, now)
    ensures var r := Seeded(t, defs, clock, now)[id];
      if id in t then
        && r.version == t[id].version && r.capabilities == t[id].capabilities
        && r.createdAt == t[id].createdAt && r.usage == t[id].usage
      else
        && r.version == defs[first].version && r.capabilities == defs[first].capabilities
        && r.createdAt == clock(first) && r.usage == (0.0, 0.0)
  {
    FirstOfIs(defs, id, first);
    SeededRow(t, defs, clock, now, id);
  }

  /** The last definition of the id that carries a status. */
  predicate FixedAt(defs: seq<ToolDef>, id: string, j: nat) {
    && j < |defs| && defs[j].toolId == id && defs[j].status.Some?
    && forall i | j < i < |defs| && defs[i].toolId == id :: defs[i].status == None
  }

  lemma {:induction false} StatusFixedAt(defs: seq<ToolDef>, id: string, j: nat, status: string)
    requires FixedAt(defs, id, j)
    ensures StatusAfter(defs, id, status) ==
      if defs[j].status == Some("inactive") && Defines(defs[j + 1..], id) then "active" else defs[j].status.value
  {
    var n := |defs| - 1;
    if j == n {
      assert defs[j + 1..] == [];
    } else {
      assert FixedAt(defs[..n], id, j);
      StatusFixedAt(defs[..n], id, j, status);
      assert defs[j + 1..][..|defs[j + 1..]| - 1] == defs[..n][j + 1..];
      DefinesSplit(defs[j + 1..], id);
    }
  }

  /** The status of a seeded row is that of the last definition of its id that carries one, whatever the
      row said before, except that a later definition without a status revives it from `inactive`. */
  lemma SeededStatus(t: Table, defs: seq<ToolDef>, clock: nat -> int, now: int, id: string, j: nat)
    requires FixedAt(defs, id, j)
    ensures id in Seeded(t, defs, clock, now)
    ensures Seeded(t, defs, clock, now)[id].status ==
      if defs[j].status == Some("inactive") && Defines(defs[j + 1..], id) then "active" else defs[j].status.value
  {
    assert Defines(defs, id);
    SeededRow(t, defs, clock, now, id);
    StatusFixedAt(defs, id, j, BaseRow(t, defs, clock, id).status);
  }

  // ---- Running it again ----------------------------------------------------------------------------

  /** Seeding what is already seeded inserts nothing and changes nothing but `updated_at` of the
      seeded rows, at any later times. */
  lemma SeedingAgain(t: Table, defs: seq<ToolDef>, clock: nat -> int, now: int, clock': nat -> int, now': int)
    ensures var once := Seeded(t, defs, clock, now); var twice := Seeded(once, defs, clock', now');
      && twice.Keys == once.Keys
      && (forall id | id in once :: twice[id] == if Defines(defs, id) then once[id].(updatedAt := now') else once[id])
  {
    var once := Seeded(t, defs, clock, now);
    var twice := Seeded(once, defs, clock', now');
    SeededKeys(t, defs, clock, now);
    SeededKeys(once, defs, clock', now');
    forall id | id in once ensures twice[id] == if Defines(defs, id) then once[id].(updatedAt := now') else once[id] {
      SeededRow(t, defs, clock, now, id);
      SeededRow(once, defs, clock', now', id);
      if Defines(defs, id) {
        var s := BaseRow(t, defs, clock, id).status;
        StatusShape(defs, id, s, once[id].status);
        StatusShape(defs, id, once[id].status, s);
      }
    }
  }

  /** After a run that failed, running again until one succeeds gives what the first would have
      given, except for the times. */
  predicate SameButTimes(a: Table, b: Table) {
    && a.Keys == b.Keys
    && forall id | id in a :: a[id].(createdAt := 0, updatedAt := 0) == b[id].(createdAt := 0, updatedAt := 0)
  }

  lemma RetryConverges(t: Table, after: Table, defs: seq<ToolDef>, clock: nat -> int, now: int, clock': nat -> int,
          now': int)
    requires after == t || after == Seeded(t, defs, clock, now)
    ensures SameButTimes(Seeded(after, defs, clock', now'), Seeded(t, defs, clock, now))
  {
    if after == t {
      SeededKeys(t, defs, clock, now);
      SeededKeys(t, defs, clock', now');
      forall id | id in t || Defines(defs, id)
        ensures Seeded(t, defs, clock', now')[id].(createdAt := 0, updatedAt := 0)
             == Seeded(t, defs, clock, now)[id].(createdAt := 0, updatedAt := 0)
      {
        SeededRow(t, defs, clock, now, id);
        SeededRow(t, defs, clock', now', id);
      }
    } else {
      SeedingAgain(t, defs, clock, now, clock', now');
    }
  }
}
