/** The state of one research run and the reducers that combine node results into it. */
module ResearchState {
  import opened Wrappers
  import opened Json
  import Text

  datatype Source = Source(url: string, title: string, toolId: string)
  datatype Finding = Finding(toolId: string, data: Json, timestamp: string)
  datatype Message = Human(content: string) | Ai(content: string)

  type Constraints = map<string, Json>
  type Usage = map<string, int>

  datatype State = State(
    query: string,
    constraints: Constraints,
    accumulatedContext: seq<string>,
    messages: seq<Message>,
    maxIterations: int,
    rawFindings: seq<Finding>,
    sources: seq<Source>,
    analysis: string,
    critique: string,
    critiquePass: bool,
    gaps: seq<string>,
    synthesis: string,
    iterationCount: int,
    tokenUsage: Usage,
    errors: seq<string>)

  /** What a node returns; an absent key is None, or empty for a key with a reducer. */
  datatype Delta = Delta(
    messages: seq<Message>,
    rawFindings: seq<Finding>,
    sources: seq<Source>,
    tokenUsage: Usage,
    errors: seq<string>,
    analysis: Option<string>,
    critique: Option<string>,
    critiquePass: Option<bool>,
    gaps: Option<seq<string>>,
    synthesis: Option<string>,
    iterationCount: Option<int>)

  const NO_DELTA := Delta([], [], [], map[], [], None, None, None, None, None, None)

  function Urls(sources: seq<Source>): set<string> {
    set s | s in sources :: s.url
  }

  predicate DistinctUrls(sources: seq<Source>) {
    forall i, j | 0 <= i < j < |sources| :: sources[i].url != sources[j].url
  }

  /** The reducer of `sources`, one new source at a time. */
  function DedupeSources(existing: seq<Source>, added: seq<Source>): seq<Source>
    decreases |added|
  {
    if added == [] then existing
    else
      var merged := DedupeSources(existing, added[..|added| - 1]);
      var s := added[|added| - 1];
      if s.url in Urls(merged) then merged else merged + [s]
  }

  method MergeSources(existing: seq<Source>, added: seq<Source>) returns (merged: seq<Source>)
    ensures merged == DedupeSources(existing, added)
  {
    var seen := set s | s in existing :: s.url;
    merged := existing;
    for i := 0 to |added|
      invariant merged == DedupeSources(existing, added[..i])
      invariant seen == Urls(merged)
    {
      assert added[..i + 1][..i] == added[..i];
      var s := added[i];
      if s.url !in seen {
        UrlsAppend(merged, s);
        merged := merged + [s];
        seen := seen + {s.url};
      }
    }
    assert added[..|added|] == added;
  }

  lemma UrlsAppend(sources: seq<Source>, s: Source)
    ensures Urls(sources + [s]) == Urls(sources) + {s.url}
  {
    assert s in sources + [s];
    assert forall t | t in sources :: t in sources + [s];
  }

  /** The new sources that are the first with their URL, counting the existing ones. */
  function FirstSeen(existing: seq<Source>, added: seq<Source>): seq<Source>
    decreases |added|
  {
    if added == [] then []
    else
      var before, s := added[..|added| - 1], added[|added| - 1];
      FirstSeen(existing, before) +
        (if s.url in Urls(existing) || s.url in Urls(before) then [] else [s])
  }

  /** Existing sources stay in front, then each new URL at its first occurrence, in order. */
  lemma {:induction false} DedupeKeepsFirstSeen(existing: seq<Source>, added: seq<Source>)
    ensures DedupeSources(existing, added) == existing + FirstSeen(existing, added)
    ensures Urls(DedupeSources(existing, added)) == Urls(existing) + Urls(added)
    decreases |added|
  {
    if added == [] {
    } else {
      var before, s := added[..|added| - 1], added[|added| - 1];
      DedupeKeepsFirstSeen(existing, before);
      UrlsAppend(DedupeSources(existing, before), s);
      assert before + [s] == added;
      UrlsAppend(before, s);
    }
  }

  lemma {:induction false} DedupeDistinct(existing: seq<Source>, added: seq<Source>)
    requires DistinctUrls(existing)
    ensures DistinctUrls(DedupeSources(existing, added))
    decreases |added|
  {
    if added == [] {
    } else {
      DedupeDistinct(existing, added[..|added| - 1]);
    }
  }

  lemma {:induction false} DedupeAssociative(a: seq<Source>, b: seq<Source>, c: seq<Source>)
    ensures DedupeSources(DedupeSources(a, b), c) == DedupeSources(a, DedupeSources(b, c))
    decreases |c|
  {
    if c == [] {
    } else {
      var before, s := c[..|c| - 1], c[|c| - 1];
      DedupeAssociative(a, b, before);
      var bc := DedupeSources(b, before);
      DedupeKeepsFirstSeen(a, bc);
      if s.url !in Urls(bc) {
        assert (bc + [s])[..|bc|] == bc;
        assert DedupeSources(a, bc + [s]) ==
          if s.url in Urls(DedupeSources(a, bc)) then DedupeSources(a, bc) else DedupeSources(a, bc) + [s];
      }
    }
  }

  lemma {:induction false} DedupeNothingNew(existing: seq<Source>, added: seq<Source>)
    requires Urls(added) <= Urls(existing)
    ensures DedupeSources(existing, added) == existing
    decreases |added|
  {
    if added == [] {
    } else {
      var before, s := added[..|added| - 1], added[|added| - 1];
      assert before + [s] == added;
      UrlsAppend(before, s);
      DedupeNothingNew(existing, before);
    }
  }

  lemma DedupeIdempotent(a: seq<Source>, b: seq<Source>)
    ensures DedupeSources(a, a) == a
    ensures DedupeSources(DedupeSources(a, b), b) == DedupeSources(a, b)
  {
    DedupeNothingNew(a, a);
    DedupeKeepsFirstSeen(a, b);
    DedupeNothingNew(DedupeSources(a, b), b);
  }

  /** Starting from the empty channel keeps a list exactly when its URLs are distinct. */
  lemma {:induction false} DedupeFromEmpty(added: seq<Source>)
    ensures DedupeSources([], added) == added <==> DistinctUrls(added)
    decreases |added|
  {
    DedupeDistinct([], added);
    if DistinctUrls(added) && added != [] {
      var before, s := added[..|added| - 1], added[|added| - 1];
      DedupeFromEmpty(before);
      assert before + [s] == added;
    }
  }

  function Used(usage: Usage, agent: string): int {
    if agent in usage then usage[agent] else 0
  }

  /** The reducer of `token_usage`. */
  function MergeUsage(existing: Usage, added: Usage): Usage {
    map agent | agent in existing.Keys + added.Keys :: Used(existing, agent) + Used(added, agent)
  }

  method MergeTokenUsage(existing: Usage, added: Usage) returns (merged: Usage)
    ensures merged == MergeUsage(existing, added)
  {
    merged := existing;
    var todo := added.Keys;
    while todo != {}
      invariant todo <= added.Keys
      invariant merged.Keys == existing.Keys + (added.Keys - todo)
      invariant forall k | k in merged ::
        merged[k] == Used(existing, k) + (if k in todo then 0 else Used(added, k))
      decreases todo
    {
      var k :| k in todo;
      merged := merged[k := Used(merged, k) + added[k]];
      todo := todo - {k};
    }
  }

  /** Usage adds up per agent, so the order and the grouping of the additions do not matter. */
  lemma MergeUsageCommutes(a: Usage, b: Usage)
    ensures MergeUsage(a, b) == MergeUsage(b, a)
    ensures forall agent :: Used(MergeUsage(a, b), agent) == Used(a, agent) + Used(b, agent)
  {
    assert MergeUsage(a, b).Keys == MergeUsage(b, a).Keys;
  }

  lemma MergeUsageAssociates(a: Usage, b: Usage, c: Usage)
    ensures MergeUsage(MergeUsage(a, b), c) == MergeUsage(a, MergeUsage(b, c))
  {
    var left, right := MergeUsage(MergeUsage(a, b), c), MergeUsage(a, MergeUsage(b, c));
    MergeUsageCommutes(a, b);
    MergeUsageCommutes(b, c);
    MergeUsageCommutes(MergeUsage(a, b), c);
    MergeUsageCommutes(a, MergeUsage(b, c));
    assert left.Keys == right.Keys;
    forall k | k in left
      ensures left[k] == right[k]
    {
      assert left[k] == Used(left, k) && right[k] == Used(right, k);
    }
  }

  /** One super-step: every channel combines its value with the node's contribution. */
  function Apply(st: State, d: Delta): State {
    st.(messages := st.messages + d.messages,
        rawFindings := st.rawFindings + d.rawFindings,
        sources := DedupeSources(st.sources, d.sources),
        tokenUsage := MergeUsage(st.tokenUsage, d.tokenUsage),
        errors := st.errors + d.errors,
        analysis := d.analysis.GetOr(st.analysis),
        critique := d.critique.GetOr(st.critique),
        critiquePass := d.critiquePass.GetOr(st.critiquePass),
        gaps := d.gaps.GetOr(st.gaps),
        synthesis := d.synthesis.GetOr(st.synthesis),
        iterationCount := d.iterationCount.GetOr(st.iterationCount))
  }

  /** The channels of a new run: each reducer folds the input from its empty value. */
  function FromInput(input: State): State {
    input.(sources := DedupeSources([], input.sources),
           tokenUsage := MergeUsage(map[], input.tokenUsage))
  }

  /** What the conversation hands to the engine. */
  datatype EngineInput = EngineInput(
    query: string,
    constraints: Constraints,
    accumulatedContext: seq<string>,
    messages: seq<Message>,
    rawFindings: seq<Finding>,
    sources: seq<Source>,
    analysis: string,
    critique: string,
    critiquePass: bool,
    gaps: seq<string>,
    synthesis: string,
    iterationCount: int)

  /** Defaults for a continuation run, or None when validation raises. */
  function MergeContinuation(input: EngineInput, defaultMaxIterations: int): Option<State> {
    if Text.IsBlank(input.query) || !(1 <= defaultMaxIterations <= 5) then None
    else Some(State(input.query, input.constraints, input.accumulatedContext, input.messages,
                    defaultMaxIterations, input.rawFindings, input.sources, input.analysis,
                    input.critique, input.critiquePass, input.gaps, input.synthesis,
                    input.iterationCount, map[], []))
  }
}
