/** Percentiles by linear interpolation, and the statistics the registry builds from usage logs. */
module Percentiles {

  predicate Sorted(vals: seq<real>) {
    forall i, j | 0 <= i <= j < |vals| :: vals[i] <= vals[j]
  }

  function Ceiling(x: real): int {
    if x.Floor as real == x then x.Floor else x.Floor + 1
  }

  /** Where the percentile falls among the positions of the series. */
  function Rank(n: nat, p: real): real {
    (n - 1) as real * p
  }

  lemma ProductNotNegative(x: real, y: real)
    requires x >= 0.0 && y >= 0.0
    ensures x * y >= 0.0
  {
  }

  lemma RankInRange(n: nat, p: real)
    requires n > 0 && 0.0 <= p <= 1.0
    ensures 0.0 <= Rank(n, p) <= (n - 1) as real
    ensures 0 <= Rank(n, p).Floor <= Ceiling(Rank(n, p)) < n
  {
    var m := (n - 1) as real;
    ProductNotNegative(m, p);
    ProductNotNegative(m, 1.0 - p);
    assert m * (1.0 - p) == m - m * p;
    var x := Rank(n, p);
    assert x.Floor as real <= x < x.Floor as real + 1.0;
  }

  /** The straight line from `a` at 0 to `b` at 1. */
  function Line(a: real, b: real, frac: real): real {
    a * (1.0 - frac) + b * frac
  }

  /** An empty series has percentile 0; beyond one value, `p` must lie in [0, 1]. */
  function Percentile(vals: seq<real>, p: real): real
    requires |vals| > 1 ==> 0.0 <= p <= 1.0
  {
    var n := |vals|;
    if n == 0 then 0.0
    else if n == 1 then vals[0]
    else
      RankInRange(n, p);
      var rank := Rank(n, p);
      var lo, hi := rank.Floor, Ceiling(rank);
      if lo == hi then vals[lo] else Line(vals[lo], vals[hi], rank - lo as real)
  }

  // ---- Lines -----------------------------------------------------------------------------------

  lemma LineBetween(a: real, b: real, f: real)
    requires a <= b && 0.0 <= f <= 1.0
    ensures a <= Line(a, b, f) <= b
  {
    assert Line(a, b, f) == a + (b - a) * f == b - (b - a) * (1.0 - f);
    ProductNotNegative(b - a, f);
    ProductNotNegative(b - a, 1.0 - f);
  }

  lemma LineRises(a: real, b: real, f: real, g: real)
    requires a <= b && f <= g
    ensures Line(a, b, f) <= Line(a, b, g)
  {
    assert Line(a, b, g) - Line(a, b, f) == (b - a) * (g - f);
    ProductNotNegative(b - a, g - f);
  }

  lemma LineOfLarger(a: real, b: real, c: real, d: real, f: real)
    requires a <= c && b <= d && 0.0 <= f <= 1.0
    ensures Line(a, b, f) <= Line(c, d, f)
  {
    assert Line(c, d, f) - Line(a, b, f) == (c - a) * (1.0 - f) + (d - b) * f;
    ProductNotNegative(c - a, 1.0 - f);
    ProductNotNegative(d - b, f);
  }

  lemma LineCommutes(a: real, b: real, f: real, k: real, c: real)
    ensures Line(k * a + c, k * b + c, f) == k * Line(a, b, f) + c
  {
    assert k * (a * (1.0 - f)) == k * a * (1.0 - f);
    assert k * (b * f) == k * b * f;
  }

  // ---- What a percentile means -------------------------------------------------------------------

  /** The percentile separates the series at its rank: no value at or below the rank exceeds it, and
      none at or above the rank is less. */
  lemma PercentileSplitsSeries(vals: seq<real>, p: real)
    requires Sorted(vals) && vals != [] && 0.0 <= p <= 1.0
    ensures forall k | 0 <= k < |vals| && k as real <= Rank(|vals|, p) :: vals[k] <= Percentile(vals, p)
    ensures forall k | 0 <= k < |vals| && k as real >= Rank(|vals|, p) :: Percentile(vals, p) <= vals[k]
  {
    var n := |vals|;
    RankInRange(n, p);
    var rank := Rank(n, p);
    var lo, hi := rank.Floor, Ceiling(rank);
    if n > 1 && lo != hi { LineBetween(vals[lo], vals[hi], rank - lo as real); }
    assert vals[lo] <= Percentile(vals, p) <= vals[hi];
    forall k | 0 <= k < n && k as real <= rank ensures vals[k] <= Percentile(vals, p) {
      assert k <= lo;
    }
    forall k | 0 <= k < n && k as real >= rank ensures Percentile(vals, p) <= vals[k] {
      assert k >= hi;
    }
  }

  /** Between two neighbouring ranks it runs along the straight line through their values. */
  lemma PercentileIsPiecewiseLinear(vals: seq<real>, p: real, k: nat)
    requires 0.0 <= p <= 1.0 && k + 1 < |vals| && k as real <= Rank(|vals|, p) <= (k + 1) as real
    ensures Percentile(vals, p) == vals[k] + (vals[k + 1] - vals[k]) * ((|vals| - 1) as real * p - k as real)
  {
    RankInRange(|vals|, p);
    var rank := Rank(|vals|, p);
    PercentileAtRank(vals, p, k, rank);
    LineThrough(vals[k], vals[k + 1], rank - k as real);
  }

  lemma PercentileAtRank(vals: seq<real>, p: real, k: nat, rank: real)
    requires 0.0 <= p <= 1.0 && k + 1 < |vals| && rank == Rank(|vals|, p) && k as real <= rank <= k as real + 1.0
    ensures Percentile(vals, p) ==
      if rank == k as real then vals[k]
      else if rank == k as real + 1.0 then vals[k + 1]
      else Line(vals[k], vals[k + 1], rank - k as real)
  {
    RankInRange(|vals|, p);
    RankBetween(rank, k);
  }

  lemma RankBetween(rank: real, k: nat)
    requires k as real <= rank <= k as real + 1.0
    ensures rank == k as real ==> rank.Floor == Ceiling(rank) == k
    ensures rank == k as real + 1.0 ==> rank.Floor == Ceiling(rank) == k + 1
    ensures k as real < rank < k as real + 1.0 ==> rank.Floor == k && Ceiling(rank) == k + 1
  {
    assert (k + 1) as real == k as real + 1.0;
  }

  lemma LineThrough(a: real, b: real, f: real)
    ensures Line(a, b, f) == a + (b - a) * f
    ensures Line(a, b, 0.0) == a && Line(a, b, 1.0) == b
  {
  }

  /** It lies between the least and the greatest value of the series and reaches both. */
  lemma PercentileWithinSeries(vals: seq<real>, p: real)
    requires Sorted(vals) && vals != [] && 0.0 <= p <= 1.0
    ensures vals[0] <= Percentile(vals, p) <= vals[|vals| - 1]
    ensures Percentile(vals, 0.0) == vals[0] && Percentile(vals, 1.0) == vals[|vals| - 1]
  {
    RankInRange(|vals|, p);
    PercentileSplitsSeries(vals, p);
    assert (0 as real) <= Rank(|vals|, p) && (|vals| - 1) as real >= Rank(|vals|, p);
  }

  lemma PercentileRises(vals: seq<real>, p: real, q: real)
    requires Sorted(vals) && 0.0 <= p <= q <= 1.0
    ensures Percentile(vals, p) <= Percentile(vals, q)
  {
    var n := |vals|;
    if n > 1 {
      RankInRange(n, p);
      RankInRange(n, q);
      var x, y := Rank(n, p), Rank(n, q);
      assert x <= y by {
        var m := (n - 1) as real;
        ProductNotNegative(m, q - p);
        assert m * (q - p) == m * q - m * p;
      }
      PercentileSplitsSeries(vals, p);
      PercentileSplitsSeries(vals, q);
      if x.Floor == y.Floor {
        var lo := x.Floor;
        if Ceiling(x) != lo {
          LineRises(vals[lo], vals[lo + 1], x - lo as real, y - lo as real);
        }
      } else {
        assert Percentile(vals, p) <= vals[Ceiling(x)] <= vals[y.Floor] <= Percentile(vals, q);
      }
    }
  }

  /** Raising any of the values never lowers the percentile. */
  lemma PercentileOfLarger(u: seq<real>, v: seq<real>, p: real)
    requires |u| == |v| && forall k | 0 <= k < |u| :: u[k] <= v[k]
    requires 0.0 <= p <= 1.0
    ensures Percentile(u, p) <= Percentile(v, p)
  {
    var n := |u|;
    if n > 1 {
      RankInRange(n, p);
      var rank := Rank(n, p);
      var lo, hi := rank.Floor, Ceiling(rank);
      if lo != hi { LineOfLarger(u[lo], u[hi], v[lo], v[hi], rank - lo as real); }
    }
  }

  function Scaled(vals: seq<real>, k: real, c: real): (r: seq<real>)
    ensures |r| == |vals|
  {
    seq(|vals|, i requires 0 <= i < |vals| => k * vals[i] + c)
  }

  /** An increasing change of unit keeps a series sorted. */
  lemma ScaledSorted(vals: seq<real>, k: real, c: real)
    requires Sorted(vals) && k >= 0.0
    ensures Sorted(Scaled(vals, k, c))
  {
    var scaled := Scaled(vals, k, c);
    forall i, j | 0 <= i <= j < |vals| ensures scaled[i] <= scaled[j] {
      var x, y := vals[i], vals[j];
      ProductNotNegative(k, y - x);
      assert k * (y - x) == k * y - k * x;
    }
  }

  /** A change of unit and origin commutes with the percentile, except that the percentile of the
      empty series stays 0 and so loses the new origin. An increasing change keeps the series sorted. */
  lemma PercentileScales(vals: seq<real>, p: real, k: real, c: real)
    requires 0.0 <= p <= 1.0
    ensures Percentile(Scaled(vals, k, c), p) == k * Percentile(vals, p) + c <==> (vals != [] || c == 0.0)
    ensures Sorted(vals) && k >= 0.0 ==> Sorted(Scaled(vals, k, c))
  {
    if Sorted(vals) && k >= 0.0 { ScaledSorted(vals, k, c); }
    var n := |vals|;
    if n > 1 {
      RankInRange(n, p);
      var rank := Rank(n, p);
      var lo, hi := rank.Floor, Ceiling(rank);
      var scaled := Scaled(vals, k, c);
      assert scaled[lo] == k * vals[lo] + c && scaled[hi] == k * vals[hi] + c;
      LineCommutes(vals[lo], vals[hi], rank - lo as real, k, c);
    } else if n == 1 {
      assert Percentile(vals, p) == vals[0];
    } else {
      assert k * 0.0 == 0.0;
    }
  }
}

/** Statistics of tool usage, on databases without ordered-set aggregates. */
module UsageStats {
  import opened Wrappers
  import opened Percentiles
  import opened Picking

  datatype Usage = Usage(toolId: string, latencyMs: real, success: bool, invokedAt: int)

  /** The registered tool and its status; ids are the primary key. */
  datatype Registered = Registered(toolId: string, name: string, status: string)

  predicate DistinctIds(tools: seq<Registered>) {
    forall i, j | 0 <= i < j < |tools| :: tools[i].toolId != tools[j].toolId
  }

  /** An absent or empty `tool_id` filters nothing. */
  predicate Wanted(toolId: string, filter: Option<string>) {
    filter == None || filter.value == "" || toolId == filter.value
  }

  predicate Recent(u: Usage, since: Option<int>) {
    since == None || since.value <= u.invokedAt
  }

  /** The usage rows a query selects. */
  function Selected(log: seq<Usage>, filter: Option<string>, since: Option<int>): (out: seq<Usage>)
    ensures forall u | u in out :: u in log && Wanted(u.toolId, filter)
  {
    if log == [] then []
    else
      var n := |log| - 1;
      var before := Selected(log[..n], filter, since);
      if Wanted(log[n].toolId, filter) && Recent(log[n], since) then before + [log[n]] else before
  }

  /** Which rows a query wants: those of the tool, if one is named, and not older than the bound, if
      there is one. */
  function Chosen(log: seq<Usage>, filter: Option<string>, since: Option<int>): seq<bool> {
    seq(|log|, i requires 0 <= i < |log| =>
      (filter == None || filter == Some("") || filter == Some(log[i].toolId)) &&
      (since == None || log[i].invokedAt >= since.value))
  }

  /** The selected rows are exactly those, each as often as it was logged and in order. */
  lemma {:induction false} SelectedExactly(log: seq<Usage>, filter: Option<string>, since: Option<int>)
    returns (at: seq<nat>)
    ensures Picks(log, Chosen(log, filter, since), Selected(log, filter, since), at)
    decreases |log|
  {
    if log == [] {
      at := [];
    } else {
      var n := |log| - 1;
      var front, keep := log[..n], Wanted(log[n].toolId, filter) && Recent(log[n], since);
      at := SelectedExactly(front, filter, since);
      at := PicksSnoc(front, Chosen(front, filter, since), Selected(front, filter, since), at, log[n], keep);
      FrontAndLast(log);
      SelectedSnoc(log, filter, since, n);
    }
  }

  lemma SelectedSnoc(log: seq<Usage>, filter: Option<string>, since: Option<int>, n: nat)
    requires |log| == n + 1
    ensures var keep := Wanted(log[n].toolId, filter) && Recent(log[n], since);
      && Chosen(log, filter, since) == Chosen(log[..n], filter, since) + [keep]
      && Selected(log, filter, since) ==
           if keep then Selected(log[..n], filter, since) + [log[n]] else Selected(log[..n], filter, since)
  {
  }

  function CountOf(rows: seq<Usage>, toolId: string, ok: bool): nat {
    if rows == [] then 0
    else (if rows[0].toolId == toolId && rows[0].success == ok then 1 else 0) + CountOf(rows[1..], toolId, ok)
  }

  /** It is the number of rows of the tool with this outcome. */
  lemma {:induction false} CountIsCardinality(rows: seq<Usage>, toolId: string, ok: bool)
    ensures CountOf(rows, toolId, ok) == |Positions(rows, toolId, ok)|
    decreases |rows|
  {
    if rows == [] {
    } else {
      var n := |rows| - 1;
      var u := rows[n];
      CountIsCardinality(rows[..n], toolId, ok);
      assert rows == rows[..n] + [u];
      CountSplits(rows[..n], [u], toolId, ok);
      PositionsSnoc(rows, toolId, ok, n);
    }
  }

  lemma PositionsSnoc(rows: seq<Usage>, toolId: string, ok: bool, n: nat)
    requires |rows| == n + 1
    ensures Positions(rows, toolId, ok) ==
      Positions(rows[..n], toolId, ok) + (if rows[n].toolId == toolId && rows[n].success == ok then {n} else {})
    ensures n !in Positions(rows[..n], toolId, ok)
  {
  }

  function Positions(rows: seq<Usage>, toolId: string, ok: bool): set<nat> {
    set i: nat | i < |rows| && rows[i].toolId == toolId && rows[i].success == ok
  }

  function Invocations(rows: seq<Usage>, toolId: string): nat {
    CountOf(rows, toolId, true) + CountOf(rows, toolId, false)
  }

  // ---- Latency series ----------------------------------------------------------------------------

  /** Rows as `ORDER BY tool_id, latency_ms` returns them: the selected rows, latencies of one tool ascending. */
  predicate Ordering(rows: seq<Usage>, selected: seq<Usage>) {
    && multiset(rows) == multiset(selected)
    && forall i, j | 0 <= i < j < |rows| && rows[i].toolId == rows[j].toolId :: rows[i].latencyMs <= rows[j].latencyMs
  }

  function SeriesOf(rows: seq<Usage>, toolId: string): seq<real> {
    if rows == [] then []
    else
      var u := rows[|rows| - 1];
      SeriesOf(rows[..|rows| - 1], toolId) + (if u.toolId == toolId then [u.latencyMs] else [])
  }

  function SeriesIn(byTool: map<string, seq<real>>, toolId: string): seq<real> {
    if toolId in byTool then byTool[toolId] else []
  }

  /** Groups the rows by tool; each group lists the tool's latencies in the order of the rows. */
  method LatencyMsByTool(rows: seq<Usage>) returns (byTool: map<string, seq<real>>)
    ensures forall t :: SeriesIn(byTool, t) == SeriesOf(rows, t)
    ensures forall t :: t in byTool <==> SeriesOf(rows, t) != []
  {
    byTool := map[];
    for i := 0 to |rows|
      invariant Grouped(byTool, rows[..i])
    {
      var t := rows[i].toolId;
      GroupedSnoc(byTool, rows[..i], rows[i]);
      assert rows[..i + 1] == rows[..i] + [rows[i]];
      byTool := byTool[t := SeriesIn(byTool, t) + [rows[i].latencyMs]];
    }
    assert rows[..|rows|] == rows;
  }

  ghost predicate Grouped(byTool: map<string, seq<real>>, rows: seq<Usage>) {
    && (forall t :: SeriesIn(byTool, t) == SeriesOf(rows, t))
    && (forall t :: t in byTool <==> SeriesOf(rows, t) != [])
  }

  lemma GroupedSnoc(byTool: map<string, seq<real>>, rows: seq<Usage>, u: Usage)
    requires Grouped(byTool, rows)
    ensures Grouped(byTool[u.toolId := SeriesIn(byTool, u.toolId) + [u.latencyMs]], rows + [u])
  {
    var next := byTool[u.toolId := SeriesIn(byTool, u.toolId) + [u.latencyMs]];
    forall t ensures SeriesIn(next, t) == SeriesOf(rows + [u], t) { SeriesSnoc(rows, u, t); }
    forall t ensures t in next <==> SeriesOf(rows + [u], t) != [] {
      SeriesSnoc(rows, u, t);
      assert t in byTool <==> SeriesOf(rows, t) != [];
    }
  }

  lemma {:induction false} SeriesSnoc(rows: seq<Usage>, u: Usage, t: string)
    ensures SeriesOf(rows + [u], t) == if u.toolId == t then SeriesOf(rows, t) + [u.latencyMs] else SeriesOf(rows, t)
  {
    assert (rows + [u])[..|rows|] == rows;
  }

  lemma {:induction false} SeriesFromRows(rows: seq<Usage>, toolId: string, x: real)
    requires x in SeriesOf(rows, toolId)
    ensures exists k :: 0 <= k < |rows| && rows[k].toolId == toolId && rows[k].latencyMs == x
  {
    var front, u := rows[..|rows| - 1], rows[|rows| - 1];
    if x in SeriesOf(front, toolId) {
      SeriesFromRows(front, toolId, x);
      var k :| 0 <= k < |front| && front[k].toolId == toolId && front[k].latencyMs == x;
      assert rows[k] == front[k];
    } else {
      assert u.toolId == toolId && u.latencyMs == x;
    }
  }

  /** The series the percentiles are taken of are sorted. */
  lemma {:induction false} SeriesSorted(rows: seq<Usage>, toolId: string)
    requires forall i, j | 0 <= i < j < |rows| && rows[i].toolId == rows[j].toolId ::
        rows[i].latencyMs <= rows[j].latencyMs
    ensures Sorted(SeriesOf(rows, toolId))
  {
    if rows == [] {
    } else {
      var front, u := rows[..|rows| - 1], rows[|rows| - 1];
      SeriesSorted(front, toolId);
      var series := SeriesOf(front, toolId);
      if u.toolId == toolId {
        forall k | 0 <= k < |series| ensures series[k] <= u.latencyMs {
          SeriesFromRows(front, toolId, series[k]);
        }
      }
    }
  }

  lemma {:induction false} CountSplits(a: seq<Usage>, b: seq<Usage>, toolId: string, ok: bool)
    ensures CountOf(a + b, toolId, ok) == CountOf(a, toolId, ok) + CountOf(b, toolId, ok)
  {
    if a == [] {
      assert a + b == b;
    } else {
      assert (a + b)[1..] == a[1..] + b;
      CountSplits(a[1..], b, toolId, ok);
    }
  }

  lemma {:induction false} SeriesLength(rows: seq<Usage>, toolId: string)
    ensures |SeriesOf(rows, toolId)| == Invocations(rows, toolId)
  {
    if rows == [] {
    } else {
      var front, u := rows[..|rows| - 1], rows[|rows| - 1];
      SeriesLength(front, toolId);
      assert rows == front + [u];
      CountSplits(front, [u], toolId, true);
      CountSplits(front, [u], toolId, false);
    }
  }

  lemma {:induction false} CountIgnoresOrder(a: seq<Usage>, b: seq<Usage>, toolId: string, ok: bool)
    requires multiset(a) == multiset(b)
    ensures CountOf(a, toolId, ok) == CountOf(b, toolId, ok)
  {
    if a == [] {
      assert |multiset(b)| == 0;
    } else {
      var u := a[0];
      assert a == [u] + a[1..];
      assert u in multiset(b);
      var k :| 0 <= k < |b| && b[k] == u;
      var rest := b[..k] + b[k + 1..];
      assert b == b[..k] + ([u] + b[k + 1..]);
      assert multiset(a) == multiset{u} + multiset(a[1..]);
      assert multiset(b) == multiset(b[..k]) + (multiset{u} + multiset(b[k + 1..]));
      assert multiset(rest) == multiset(b[..k]) + multiset(b[k + 1..]);
      assert multiset(a) - multiset{u} == multiset(a[1..]);
      assert multiset(b) - multiset{u} == multiset(rest);
      CountIgnoresOrder(a[1..], rest, toolId, ok);
      CountSplits(b[..k], [u] + b[k + 1..], toolId, ok);
      CountSplits(b[..k], b[k + 1..], toolId, ok);
      CountSplits([u], b[k + 1..], toolId, ok);
      CountSplits([u], a[1..], toolId, ok);
    }
  }

  // ---- Groups and totals -------------------------------------------------------------------------

  /** `lastInvoked` is None for a tool without rows. */
  datatype Group = Group(
    tool: Registered, invocations: nat, successes: nat, errors: nat, average: real, lastInvoked: Option<int>)

  function SumOfLatencies(rows: seq<Usage>, toolId: string): real {
    if rows == [] then 0.0
    else (if rows[0].toolId == toolId then rows[0].latencyMs else 0.0) + SumOfLatencies(rows[1..], toolId)
  }

  /** The average latency of a tool's rows, 0 when it has none. */
  function Average(rows: seq<Usage>, toolId: string): real {
    var n := Invocations(rows, toolId);
    if n == 0 then 0.0 else SumOfLatencies(rows, toolId) / n as real
  }

  function LastInvoked(rows: seq<Usage>, toolId: string): (last: Option<int>)
    ensures last == None <==> forall u | u in rows :: u.toolId != toolId
    ensures last.Some? ==> exists u :: u in rows && u.toolId == toolId && u.invokedAt == last.value
    ensures last.Some? ==> forall u | u in rows && u.toolId == toolId :: u.invokedAt <= last.value
  {
    if rows == [] then None
    else
      var later := LastInvoked(rows[1..], toolId);
      if rows[0].toolId == toolId && (later == None || later.value < rows[0].invokedAt) then Some(rows[0].invokedAt)
      else later
  }

  function GroupOf(t: Registered, rows: seq<Usage>): Group {
    Group(t, Invocations(rows, t.toolId), CountOf(rows, t.toolId, true), CountOf(rows, t.toolId, false),
          Average(rows, t.toolId), LastInvoked(rows, t.toolId))
  }

  /** One group per wanted tool. A lower time bound drops the tools without a recent row, since the
      condition on the joined column also rejects the row that the outer join pads. */
  function Groups(tools: seq<Registered>, rows: seq<Usage>, filter: Option<string>, since: Option<int>): seq<Group> {
    if tools == [] then []
    else
      var n := |tools| - 1;
      var before := Groups(tools[..n], rows, filter, since);
      if Shown(tools[n], rows, filter, since) then before + [GroupOf(tools[n], rows)] else before
  }

  predicate Shown(t: Registered, rows: seq<Usage>, filter: Option<string>, since: Option<int>) {
    Wanted(t.toolId, filter) && (since == None || Invocations(rows, t.toolId) > 0)
  }

  /** Which tools the endpoint lists: those the filter wants, and with a time bound only those that have
      a selected row. */
  function Listed(tools: seq<Registered>, rows: seq<Usage>, filter: Option<string>, since: Option<int>): seq<bool> {
    seq(|tools|, i requires 0 <= i < |tools| =>
      (filter == None || filter == Some("") || filter == Some(tools[i].toolId)) &&
      (since == None || |SeriesOf(rows, tools[i].toolId)| > 0))
  }

  function ToolsOf(groups: seq<Group>): seq<Registered> {
    seq(|groups|, i requires 0 <= i < |groups| => groups[i].tool)
  }

  lemma {:induction false} GroupsExactly(tools: seq<Registered>, rows: seq<Usage>, filter: Option<string>,
          since: Option<int>)
    returns (at: seq<nat>)
    ensures Picks(tools, Listed(tools, rows, filter, since), ToolsOf(Groups(tools, rows, filter, since)), at)
    decreases |tools|
  {
    if tools == [] {
      at := [];
    } else {
      var n := |tools| - 1;
      var front, keep := tools[..n], Shown(tools[n], rows, filter, since);
      at := GroupsExactly(front, rows, filter, since);
      at := PicksSnoc(front, Listed(front, rows, filter, since), ToolsOf(Groups(front, rows, filter, since)), at,
        tools[n], keep);
      FrontAndLast(tools);
      ListedSnoc(tools, rows, filter, since, n);
      GroupsSnoc(tools, rows, filter, since, n);
    }
  }

  lemma ListedSnoc(tools: seq<Registered>, rows: seq<Usage>, filter: Option<string>, since: Option<int>, n: nat)
    requires |tools| == n + 1
    ensures Listed(tools, rows, filter, since) ==
        Listed(tools[..n], rows, filter, since) + [Shown(tools[n], rows, filter, since)]
  {
    SeriesLength(rows, tools[n].toolId);
  }

  lemma {:induction false} GroupsSnoc(tools: seq<Registered>, rows: seq<Usage>, filter: Option<string>,
          since: Option<int>, n: nat)
    requires |tools| == n + 1
    ensures ToolsOf(Groups(tools, rows, filter, since)) ==
      if Shown(tools[n], rows, filter, since) then ToolsOf(Groups(tools[..n], rows, filter, since)) + [tools[n]]
      else ToolsOf(Groups(tools[..n], rows, filter, since))
  {
  }

  function Total(groups: seq<Group>): nat {
    if groups == [] then 0 else Total(groups[..|groups| - 1]) + groups[|groups| - 1].invocations
  }

  function SumOver(tools: seq<Registered>, rows: seq<Usage>): nat {
    if tools == [] then 0 else Invocations(rows, tools[0].toolId) + SumOver(tools[1..], rows)
  }

  lemma {:induction false} UnwantedHaveNone(rows: seq<Usage>, toolId: string)
    requires forall u | u in rows :: u.toolId != toolId
    ensures Invocations(rows, toolId) == 0
  {
    if rows == [] {
    } else {
      UnwantedHaveNone(rows[1..], toolId);
    }
  }

  lemma {:induction false} SumOverSnoc(tools: seq<Registered>, rows: seq<Usage>, n: nat)
    requires |tools| == n + 1
    ensures SumOver(tools, rows) == SumOver(tools[..n], rows) + Invocations(rows, tools[n].toolId)
    decreases n
  {
    if n == 0 {
      assert tools[1..] == [] && tools[..0] == [];
    } else {
      SumOverSnoc(tools[1..], rows, n - 1);
      assert tools[1..][..n - 1] == tools[..n][1..];
    }
  }

  lemma TotalSnoc(groups: seq<Group>, g: Group)
    ensures Total(groups + [g]) == Total(groups) + g.invocations
  {
    assert (groups + [g])[..|groups|] == groups;
  }

  lemma {:induction false} TotalIsSum(tools: seq<Registered>, rows: seq<Usage>, filter: Option<string>,
          since: Option<int>)
    requires forall u | u in rows :: Wanted(u.toolId, filter)
    ensures Total(Groups(tools, rows, filter, since)) == SumOver(tools, rows)
    decreases |tools|
  {
    if tools == [] {
    } else {
      var n := |tools| - 1;
      TotalIsSum(tools[..n], rows, filter, since);
      SumOverSnoc(tools, rows, n);
      if !Wanted(tools[n].toolId, filter) { UnwantedHaveNone(rows, tools[n].toolId); }
      TotalSnoc(Groups(tools[..n], rows, filter, since), GroupOf(tools[n], rows));
    }
  }

  predicate Names(tools: seq<Registered>, toolId: string) {
    exists k :: 0 <= k < |tools| && tools[k].toolId == toolId
  }

  /** One more usage row raises the sum by one if its tool is registered. */
  lemma {:induction false} SumGrows(tools: seq<Registered>, u: Usage, rows: seq<Usage>)
    requires DistinctIds(tools)
    ensures SumOver(tools, [u] + rows) == SumOver(tools, rows) + (if Names(tools, u.toolId) then 1 else 0)
  {
    if tools == [] {
    } else {
      var t := tools[0];
      assert ([u] + rows)[1..] == rows;
      SumGrows(tools[1..], u, rows);
      assert t.toolId == u.toolId ==> !Names(tools[1..], u.toolId);
      if Names(tools, u.toolId) && t.toolId != u.toolId {
        var k :| 0 <= k < |tools| && tools[k].toolId == u.toolId;
        assert tools[1..][k - 1] == tools[k];
      }
      if Names(tools[1..], u.toolId) {
        var k :| 0 <= k < |tools| - 1 && tools[1..][k].toolId == u.toolId;
        assert tools[k + 1].toolId == u.toolId;
      }
    }
  }

  lemma {:induction false} SumOfNone(tools: seq<Registered>)
    ensures SumOver(tools, []) == 0
  {
    if tools == [] {
    } else {
      SumOfNone(tools[1..]);
    }
  }

  /** Summed over all registered tools, every usage row counts once. */
  lemma {:induction false} SumIsLength(tools: seq<Registered>, rows: seq<Usage>)
    requires DistinctIds(tools) && forall u | u in rows :: Names(tools, u.toolId)
    ensures SumOver(tools, rows) == |rows|
  {
    if rows == [] {
      SumOfNone(tools);
    } else {
      SumIsLength(tools, rows[1..]);
      assert rows == [rows[0]] + rows[1..];
      SumGrows(tools, rows[0], rows[1..]);
    }
  }

  /** The total the endpoint reports is the number of usage rows its filters select. */
  lemma TotalCountsEveryUsage(tools: seq<Registered>, log: seq<Usage>, filter: Option<string>, since: Option<int>)
    requires DistinctIds(tools) && forall u | u in log :: Names(tools, u.toolId)
    ensures Total(Groups(tools, Selected(log, filter, since), filter, since)) == |Selected(log, filter, since)|
  {
    TotalIsSum(tools, Selected(log, filter, since), filter, since);
    SumIsLength(tools, Selected(log, filter, since));
  }

  // ---- The endpoint ------------------------------------------------------------------------------

  datatype StatsItem = StatsItem(
    tool: Registered, invocations: nat, successes: nat, errors: nat, errorRate: real, average: real,
    p50: real, p95: real, lastInvoked: Option<int>)

  /** Some selected row of the tool took at most `ms`, or at least `ms`. */
  predicate SomeAtMost(rows: seq<Usage>, toolId: string, ms: real) {
    exists u :: u in rows && u.toolId == toolId && u.latencyMs <= ms
  }

  predicate SomeAtLeast(rows: seq<Usage>, toolId: string, ms: real) {
    exists u :: u in rows && u.toolId == toolId && u.latencyMs >= ms
  }

  /** The error rate is the share of the invocations that failed. */
  predicate IsShare(rate: real, errors: nat, invocations: nat) {
    0.0 <= rate <= 1.0 && rate * invocations as real == errors as real
  }

  /** Counts, share of errors, average and last use of an item are those of the tool's rows. */
  predicate Counts(item: StatsItem, rows: seq<Usage>) {
    var t := item.tool.toolId;
    && item.successes == CountOf(rows, t, true) && item.errors == CountOf(rows, t, false)
    && item.invocations == item.successes + item.errors
    && IsShare(item.errorRate, item.errors, item.invocations)
    && item.lastInvoked == LastInvoked(rows, t)
    && (item.invocations == 0 ==> item.average == 0.0)
    && (item.invocations > 0 ==> SomeAtMost(rows, t, item.average) && SomeAtLeast(rows, t, item.average))
  }

  /** Percentiles of an item are in order and within the latencies of the tool's rows. */
  predicate Ranks(item: StatsItem, rows: seq<Usage>) {
    var t := item.tool.toolId;
    && item.p50 <= item.p95
    && (item.invocations == 0 ==> item.p50 == 0.0 && item.p95 == 0.0)
    && (item.invocations > 0 ==> SomeAtMost(rows, t, item.p50) && SomeAtLeast(rows, t, item.p95))
  }

  /** What an item says is true of the selected rows of its tool. */
  predicate Describes(item: StatsItem, rows: seq<Usage>) {
    Counts(item, rows) && Ranks(item, rows)
  }

  function ErrorRate(errors: nat, invocations: nat): real
  {
    if invocations > 0 then errors as real / invocations as real else 0.0
  }

  lemma ErrorRateIsShare(errors: nat, invocations: nat)
    requires errors <= invocations
    ensures IsShare(ErrorRate(errors, invocations), errors, invocations)
  {
    if invocations > 0 {
      var e, n := errors as real, invocations as real;
      assert (e / n) * n == e;
      assert e / n <= n / n;
    }
  }

  /** Rows that are all slower than `ms` add up to more than as many times `ms`. */
  lemma {:induction false} SlowRowsAddUp(rows: seq<Usage>, toolId: string, ms: real)
    requires forall u | u in rows && u.toolId == toolId :: ms < u.latencyMs
    ensures var n := Invocations(rows, toolId);
      SumOfLatencies(rows, toolId) >= n as real * ms && (n > 0 ==> SumOfLatencies(rows, toolId) > n as real * ms)
  {
    if rows == [] {
    } else {
      SlowRowsAddUp(rows[1..], toolId, ms);
      OneMore(Invocations(rows[1..], toolId), ms);
    }
  }

  lemma {:induction false} FastRowsAddUp(rows: seq<Usage>, toolId: string, ms: real)
    requires forall u | u in rows && u.toolId == toolId :: u.latencyMs < ms
    ensures var n := Invocations(rows, toolId);
      SumOfLatencies(rows, toolId) <= n as real * ms && (n > 0 ==> SumOfLatencies(rows, toolId) < n as real * ms)
  {
    if rows == [] {
    } else {
      FastRowsAddUp(rows[1..], toolId, ms);
      OneMore(Invocations(rows[1..], toolId), ms);
    }
  }

  lemma OneMore(n: nat, ms: real)
    ensures (n + 1) as real * ms == n as real * ms + ms
  {
    var x := n as real;
    assert (n + 1) as real == x + 1.0;
    assert (x + 1.0) * ms == x * ms + ms;
  }

  function Sum(vals: seq<real>): real {
    if vals == [] then 0.0 else Sum(vals[..|vals| - 1]) + vals[|vals| - 1]
  }

  lemma SumSnoc(vals: seq<real>, x: real)
    ensures Sum(vals + [x]) == Sum(vals) + x
  {
    assert (vals + [x])[..|vals|] == vals;
  }

  lemma {:induction false} SumSplits(a: seq<Usage>, b: seq<Usage>, toolId: string)
    ensures SumOfLatencies(a + b, toolId) == SumOfLatencies(a, toolId) + SumOfLatencies(b, toolId)
  {
    if a == [] {
      assert a + b == b;
    } else {
      assert (a + b)[1..] == a[1..] + b;
      SumSplits(a[1..], b, toolId);
    }
  }

  lemma {:induction false} SumOfSeries(rows: seq<Usage>, toolId: string)
    ensures SumOfLatencies(rows, toolId) == Sum(SeriesOf(rows, toolId))
  {
    if rows == [] {
    } else {
      var n := |rows| - 1;
      SumOfSeries(rows[..n], toolId);
      assert rows == rows[..n] + [rows[n]];
      SumSplits(rows[..n], [rows[n]], toolId);
      assert [rows[n]][1..] == [] && SeriesOf(rows[..n], toolId) + [] == SeriesOf(rows[..n], toolId);
      SumSnoc(SeriesOf(rows[..n], toolId), rows[n].latencyMs);
    }
  }

  lemma QuotientTimes(x: real, n: real)
    requires n != 0.0
    ensures x / n * n == x
  {
  }

  /** The average times the number of rows is the sum of their latencies; without rows it is 0. */
  lemma AverageTimesCount(rows: seq<Usage>, toolId: string)
    ensures Average(rows, toolId) * |SeriesOf(rows, toolId)| as real == Sum(SeriesOf(rows, toolId))
    ensures SeriesOf(rows, toolId) == [] ==> Average(rows, toolId) == 0.0
  {
    SumOfSeries(rows, toolId);
    SeriesLength(rows, toolId);
    var sum, n := SumOfLatencies(rows, toolId), |SeriesOf(rows, toolId)|;
    if n == 0 {
      assert SeriesOf(rows, toolId) == [];
    } else {
      QuotientTimes(sum, n as real);
    }
  }

  /** The average lies within the latencies of the tool's rows. */
  lemma AverageWithinRows(rows: seq<Usage>, toolId: string)
    requires Invocations(rows, toolId) > 0
    ensures SomeAtMost(rows, toolId, Average(rows, toolId)) && SomeAtLeast(rows, toolId, Average(rows, toolId))
  {
    var ms, n := Average(rows, toolId), Invocations(rows, toolId) as real;
    assert n * ms == SumOfLatencies(rows, toolId);
    if !SomeAtMost(rows, toolId, ms) { SlowRowsAddUp(rows, toolId, ms); }
    if !SomeAtLeast(rows, toolId, ms) { FastRowsAddUp(rows, toolId, ms); }
  }

  function ItemOf(g: Group, series: seq<real>): StatsItem {
    StatsItem(g.tool, g.invocations, g.successes, g.errors, ErrorRate(g.errors, g.invocations), g.average,
              Percentile(series, 0.5), Percentile(series, 0.95), g.lastInvoked)
  }

  /** Percentiles of a tool's series lie within the latencies its selected rows report. */
  lemma PercentileWithinRows(rows: seq<Usage>, selected: seq<Usage>, toolId: string, p: real)
    requires Ordering(rows, selected) && SeriesOf(rows, toolId) != [] && 0.0 <= p <= 1.0
    ensures SomeAtMost(selected, toolId, Percentile(SeriesOf(rows, toolId), p))
    ensures SomeAtLeast(selected, toolId, Percentile(SeriesOf(rows, toolId), p))
  {
    var series := SeriesOf(rows, toolId);
    SeriesSorted(rows, toolId);
    PercentileWithinSeries(series, p);
    RowOfLatency(rows, selected, toolId, series[0]);
    RowOfLatency(rows, selected, toolId, series[|series| - 1]);
  }

  lemma RowOfLatency(rows: seq<Usage>, selected: seq<Usage>, toolId: string, x: real)
    requires multiset(rows) == multiset(selected) && x in SeriesOf(rows, toolId)
    ensures exists u :: u in selected && u.toolId == toolId && u.latencyMs == x
  {
    SeriesFromRows(rows, toolId, x);
    var k :| 0 <= k < |rows| && rows[k].toolId == toolId && rows[k].latencyMs == x;
    assert rows[k] in multiset(rows);
  }

  lemma SeriesCounts(rows: seq<Usage>, selected: seq<Usage>, toolId: string)
    requires Ordering(rows, selected)
    ensures |SeriesOf(rows, toolId)| == Invocations(selected, toolId)
  {
    SeriesLength(rows, toolId);
    CountIgnoresOrder(rows, selected, toolId, true);
    CountIgnoresOrder(rows, selected, toolId, false);
  }

  predicate Measures(g: Group, selected: seq<Usage>) {
    g == GroupOf(g.tool, selected)
  }

  lemma {:induction false} GroupsMeasure(tools: seq<Registered>, rows: seq<Usage>, filter: Option<string>,
          since: Option<int>)
    ensures forall g | g in Groups(tools, rows, filter, since) :: Measures(g, rows)
  {
    if tools == [] {
    } else {
      GroupsMeasure(tools[..|tools| - 1], rows, filter, since);
    }
  }

  lemma ItemCounts(g: Group, series: seq<real>, selected: seq<Usage>)
    requires Measures(g, selected)
    ensures Counts(ItemOf(g, series), selected)
  {
    ErrorRateIsShare(g.errors, g.invocations);
    if g.invocations > 0 { AverageWithinRows(selected, g.tool.toolId); }
  }

  lemma ItemRanks(g: Group, rows: seq<Usage>, selected: seq<Usage>)
    requires Ordering(rows, selected) && Measures(g, selected)
    ensures Ranks(ItemOf(g, SeriesOf(rows, g.tool.toolId)), selected)
  {
    var t := g.tool.toolId;
    var series := SeriesOf(rows, t);
    SeriesCounts(rows, selected, t);
    SeriesSorted(rows, t);
    PercentileRises(series, 0.5, 0.95);
    if series != [] {
      PercentileWithinRows(rows, selected, t, 0.5);
      PercentileWithinRows(rows, selected, t, 0.95);
    }
  }

  lemma ItemDescribes(g: Group, rows: seq<Usage>, selected: seq<Usage>)
    requires Ordering(rows, selected) && Measures(g, selected)
    ensures Describes(ItemOf(g, SeriesOf(rows, g.tool.toolId)), selected)
  {
    ItemCounts(g, SeriesOf(rows, g.tool.toolId), selected);
    ItemRanks(g, rows, selected);
  }

  /** The loop of the endpoint over the groups. */
  method Aggregate(groups: seq<Group>, latByTool: map<string, seq<real>>)
    returns (stats: seq<StatsItem>, totalInvocations: nat)
    ensures |stats| == |groups|
    ensures forall i | 0 <= i < |stats| :: stats[i] == ItemOf(groups[i], SeriesIn(latByTool, groups[i].tool.toolId))
    ensures totalInvocations == Total(groups)
  {
    stats, totalInvocations := [], 0;
    for i := 0 to |groups|
      invariant |stats| == i
      invariant forall k | 0 <= k < i :: stats[k] == ItemOf(groups[k], SeriesIn(latByTool, groups[k].tool.toolId))
      invariant totalInvocations == Total(groups[..i])
    {
      var g := groups[i];
      assert groups[..i + 1][..i] == groups[..i];
      totalInvocations := totalInvocations + g.invocations;
      stats := stats + [ItemOf(g, SeriesIn(latByTool, g.tool.toolId))];
    }
    assert groups[..|groups|] == groups;
  }

  /** `rows` are the selected usage rows in the order of the second query. */
  method GetStats(tools: seq<Registered>, log: seq<Usage>, rows: seq<Usage>, filter: Option<string>, since: Option<int>)
    returns (stats: seq<StatsItem>, totalInvocations: nat)
    requires DistinctIds(tools) && forall u | u in log :: Names(tools, u.toolId)
    requires Ordering(rows, Selected(log, filter, since))
    ensures |stats| == |Groups(tools, Selected(log, filter, since), filter, since)|
    ensures forall i | 0 <= i < |stats| ::
      && stats[i].tool == Groups(tools, Selected(log, filter, since), filter, since)[i].tool
      && Describes(stats[i], Selected(log, filter, since))
      && stats[i].p50 == Percentile(SeriesOf(rows, stats[i].tool.toolId), 0.5)
      && stats[i].p95 == Percentile(SeriesOf(rows, stats[i].tool.toolId), 0.95)
    ensures totalInvocations == |Selected(log, filter, since)|
  {
    var selected := Selected(log, filter, since);
    var groups := Groups(tools, selected, filter, since);
    var latByTool := LatencyMsByTool(rows);
    stats, totalInvocations := Aggregate(groups, latByTool);
    GroupsMeasure(tools, selected, filter, since);
    forall i | 0 <= i < |stats| ensures Describes(stats[i], selected) {
      ItemDescribes(groups[i], rows, selected);
    }
    TotalCountsEveryUsage(tools, log, filter, since);
  }
}
