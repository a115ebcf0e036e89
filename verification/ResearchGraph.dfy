/** The nodes of the research graph; model and tool answers are inputs chosen by the environment. */
module ResearchNodes {
  import opened Wrappers
  import opened Json
  import opened ResearchState
  import opened Picking
  import Text

  datatype InvocationAttempt = InvocationAttempt(toolId: string, success: bool, latencyMs: real,
    errorMessage: Option<string>)

  /** A discovery result. `dataUrl` and `dataTitle` are the texts found in the tool data, empty
      when it has none; `practical` is the tool data itself. */
  datatype DiscoveryResult = DiscoveryResult(
    success: bool,
    toolId: Option<string>,
    practical: Json,
    sourceUrl: string,
    sourceTitle: string,
    dataUrl: string,
    dataTitle: string,
    attempts: seq<InvocationAttempt>,
    error: Option<string>)

  datatype ResearchOutcome =
    | SearchFailed(reason: string)
    | DiscoveryFailed(reason: string)
    | Discovered(prompt: string, raw: string, result: DiscoveryResult, timestamp: string)

  datatype TextOutcome =
    | TextFailed(prompt: string, fallback: string, reason: string)
    | Wrote(prompt: string, text: string, tokens: int)

  datatype CriticOutcome =
    | CriticFailed(prompt: string, reason: string)
    | CriticUnparsed(prompt: string, tokens: int)
    | Criticised(prompt: string, reply: string, critique: string, pass: bool, gaps: seq<string>, tokens: int)

  /** What the environment answers while one node runs; `raises` stands for an exception that
      leaves the node, a cancellation, or the timeout of the whole run. */
  datatype Env = Env(
    raises: bool,
    research: ResearchOutcome,
    analysis: TextOutcome,
    critique: CriticOutcome,
    synthesis: TextOutcome)

  function Truthy(s: Option<string>): bool { s.Some? && s.value != "" }

  function FirstNonEmpty(a: string, b: string): string { if a != "" then a else b }

  /** One line per failed attempt that carries a message. */
  function AttemptErrors(attempts: seq<InvocationAttempt>): seq<string> {
    if attempts == [] then []
    else
      var a := attempts[|attempts| - 1];
      AttemptErrors(attempts[..|attempts| - 1]) +
        (if !a.success && Truthy(a.errorMessage)
         then ["invoke failed for " + a.toolId + ": " + a.errorMessage.value] else [])
  }

  function DiscoveryErrors(r: DiscoveryResult): seq<string> {
    (if Truthy(r.error) && !r.success then [r.error.value] else []) +
    AttemptErrors(r.attempts) +
    (if !(r.success && Truthy(r.toolId)) && r.attempts != [] && !r.success
     then ["all attempted tool invocations failed"] else [])
  }

  function ResearcherDelta(st: State, outcome: ResearchOutcome): Delta {
    match outcome
    case SearchFailed(reason) =>
      NO_DELTA.(errors := ["registry search failed: " + reason],
               iterationCount := Some(st.iterationCount + 1),
               tokenUsage := map["researcher" := 0])
    case DiscoveryFailed(reason) =>
      NO_DELTA.(errors := ["tool discovery failed: " + reason],
               iterationCount := Some(st.iterationCount + 1),
               tokenUsage := map["researcher" := 0])
    case Discovered(prompt, raw, r, timestamp) =>
      var found := r.success && Truthy(r.toolId);
      NO_DELTA.(rawFindings := if found then [Finding(r.toolId.value, r.practical, timestamp)] else [],
               sources := if found then [Source(FirstNonEmpty(r.sourceUrl, r.dataUrl),
                                                FirstNonEmpty(r.sourceTitle,
                                                  FirstNonEmpty(r.dataTitle, r.toolId.value)),
                                                r.toolId.value)] else [],
               iterationCount := Some(st.iterationCount + 1),
               tokenUsage := map["researcher" := 100],
               messages := [Human(prompt), Ai(raw)],
               errors := DiscoveryErrors(r))
  }

  /** Some tool answered. */
  predicate Found(outcome: ResearchOutcome) {
    outcome.Discovered? && outcome.result.success && Truthy(outcome.result.toolId)
  }

  /** Nothing went wrong that has a message or an attempt to report. */
  predicate NothingToReport(outcome: ResearchOutcome) {
    && outcome.Discovered?
    && (outcome.result.success || (!Truthy(outcome.result.error) && outcome.result.attempts == []))
    && forall a | a in outcome.result.attempts :: a.success || !Truthy(a.errorMessage)
  }

  /** The counter moves by one; there is a finding and a source exactly when some tool answered, both
      of that tool, and an error exactly when there is something to report. */
  ghost predicate Reports(st: State, outcome: ResearchOutcome, delta: Delta) {
    && delta.iterationCount == Some(st.iterationCount + 1)
    && (if Found(outcome) then
          var r := outcome.result;
          && |delta.rawFindings| == 1 && |delta.sources| == 1
          && delta.rawFindings[0] == Finding(r.toolId.value, r.practical, outcome.timestamp)
          && delta.sources[0].toolId == r.toolId.value
          && delta.sources[0].url == (if r.sourceUrl != "" then r.sourceUrl else r.dataUrl)
          && delta.sources[0].title == (if r.sourceTitle != "" then r.sourceTitle
                                        else if r.dataTitle != "" then r.dataTitle else r.toolId.value)
        else delta.rawFindings == [] && delta.sources == [])
    && delta.messages == (if outcome.Discovered? then [Human(outcome.prompt), Ai(outcome.raw)] else [])
    && (delta.errors == [] <==> NothingToReport(outcome))
    && (match outcome
        case SearchFailed(reason) => delta.errors == ["registry search failed: " + reason]
        case DiscoveryFailed(reason) => delta.errors == ["tool discovery failed: " + reason]
        case Discovered(_, _, r, _) => exists failures: seq<string> :: Lists(r, failures, delta.errors))
    && Used(delta.tokenUsage, "researcher") == (if outcome.Discovered? then 100 else 0)
  }

  predicate Complains(a: InvocationAttempt) { !a.success && Truthy(a.errorMessage) }

  function Complaint(a: InvocationAttempt): string {
    "invoke failed for " + a.toolId + ": " + a.errorMessage.GetOr("")
  }

  function Failures(attempts: seq<InvocationAttempt>): seq<bool> {
    seq(|attempts|, i requires 0 <= i < |attempts| => Complains(attempts[i]))
  }

  function Complaints(attempts: seq<InvocationAttempt>): seq<string> {
    seq(|attempts|, i requires 0 <= i < |attempts| => Complaint(attempts[i]))
  }

  /** The error of a failed discovery, the complaints of its failed attempts in order, and one line more
      if it made attempts and none succeeded. */
  ghost predicate Lists(r: DiscoveryResult, failures: seq<string>, errors: seq<string>) {
    && (exists at: seq<nat> :: Picks(Complaints(r.attempts), Failures(r.attempts), failures, at))
    && errors == (if !r.success && Truthy(r.error) then [r.error.value] else []) + failures
               + (if !r.success && r.attempts != [] then ["all attempted tool invocations failed"] else [])
  }

  lemma {:induction false} AttemptsInOrder(attempts: seq<InvocationAttempt>) returns (at: seq<nat>)
    ensures Picks(Complaints(attempts), Failures(attempts), AttemptErrors(attempts), at)
  {
    if attempts == [] {
      at := [];
    } else {
      var n := |attempts| - 1;
      var front, a := attempts[..n], attempts[n];
      at := AttemptsInOrder(front);
      at := PicksSnoc(Complaints(front), Failures(front), AttemptErrors(front), at, Complaint(a), Complains(a));
      MarksSnoc(attempts, n);
      AttemptErrorsSnoc(attempts, n);
    }
  }

  lemma MarksSnoc(attempts: seq<InvocationAttempt>, n: nat)
    requires |attempts| == n + 1
    ensures Complaints(attempts) == Complaints(attempts[..n]) + [Complaint(attempts[n])]
    ensures Failures(attempts) == Failures(attempts[..n]) + [Complains(attempts[n])]
  {
  }

  lemma {:induction false} AttemptErrorsSnoc(attempts: seq<InvocationAttempt>, n: nat)
    requires |attempts| == n + 1
    ensures AttemptErrors(attempts) ==
      if Complains(attempts[n]) then AttemptErrors(attempts[..n]) + [Complaint(attempts[n])]
      else AttemptErrors(attempts[..n])
  {
  }

  lemma {:induction false} AttemptsReported(attempts: seq<InvocationAttempt>)
    ensures AttemptErrors(attempts) == [] <==> forall a | a in attempts :: a.success || !Truthy(a.errorMessage)
  {
    if attempts == [] {
    } else {
      AttemptsReported(attempts[..|attempts| - 1]);
      assert attempts == attempts[..|attempts| - 1] + [attempts[|attempts| - 1]];
    }
  }

  lemma ResearcherDeltaReports(st: State, outcome: ResearchOutcome)
    ensures Reports(st, outcome, ResearcherDelta(st, outcome))
  {
    if outcome.Discovered? {
      AttemptsReported(outcome.result.attempts);
      var at := AttemptsInOrder(outcome.result.attempts);
      assert Lists(outcome.result, AttemptErrors(outcome.result.attempts), DiscoveryErrors(outcome.result));
    }
  }

  /** The loop over the attempts. */
  method FailedAttempts(attempts: seq<InvocationAttempt>) returns (errs: seq<string>)
    ensures errs == AttemptErrors(attempts)
  {
    errs := [];
    for i := 0 to |attempts|
      invariant errs == AttemptErrors(attempts[..i])
    {
      var att := attempts[i];
      assert attempts[..i + 1][..i] == attempts[..i];
      if !att.success && Truthy(att.errorMessage) {
        errs := errs + ["invoke failed for " + att.toolId + ": " + att.errorMessage.value];
      }
    }
    assert attempts[..|attempts|] == attempts;
  }

  method ResearcherNode(st: State, outcome: ResearchOutcome) returns (delta: Delta)
    ensures delta == ResearcherDelta(st, outcome)
    ensures Reports(st, outcome, delta)
  {
    ResearcherDeltaReports(st, outcome);
    match outcome {
      case SearchFailed(reason) =>
        return NO_DELTA.(errors := ["registry search failed: " + reason],
                        iterationCount := Some(st.iterationCount + 1),
                        tokenUsage := map["researcher" := 0]);
      case DiscoveryFailed(reason) =>
        return NO_DELTA.(errors := ["tool discovery failed: " + reason],
                        iterationCount := Some(st.iterationCount + 1),
                        tokenUsage := map["researcher" := 0]);
      case Discovered(prompt, raw, parsed, timestamp) =>
        var errs: seq<string> := [];
        var newFindings: seq<Finding> := [];
        var newSources: seq<Source> := [];
        if Truthy(parsed.error) && !parsed.success {
          errs := errs + [parsed.error.value];
        }
        var failures := FailedAttempts(parsed.attempts);
        errs := errs + failures;
        if parsed.success && Truthy(parsed.toolId) {
          var id := parsed.toolId.value;
          newFindings := newFindings + [Finding(id, parsed.practical, timestamp)];
          newSources := newSources + [Source(FirstNonEmpty(parsed.sourceUrl, parsed.dataUrl),
                                             FirstNonEmpty(parsed.sourceTitle, FirstNonEmpty(parsed.dataTitle, id)),
                                             id)];
        } else if parsed.attempts != [] && !parsed.success {
          errs := errs + ["all attempted tool invocations failed"];
        }
        return NO_DELTA.(rawFindings := newFindings, sources := newSources,
                        iterationCount := Some(st.iterationCount + 1),
                        tokenUsage := map["researcher" := 100],
                        messages := [Human(prompt), Ai(raw)], errors := errs);
    }
  }

  function TextDelta(agent: string, outcome: TextOutcome): Delta {
    match outcome
    case TextFailed(prompt, _, reason) =>
      NO_DELTA.(tokenUsage := map[agent := 0], errors := [agent + " llm error: " + reason],
               messages := [Human(prompt), Ai("error")])
    case Wrote(prompt, text, tokens) =>
      NO_DELTA.(tokenUsage := map[agent := tokens], messages := [Human(prompt), Ai(text)])
  }

  function OutcomeText(outcome: TextOutcome): string {
    if outcome.TextFailed? then outcome.fallback else outcome.text
  }

  function AnalystDelta(outcome: TextOutcome): Delta {
    TextDelta("analyst", outcome).(analysis := Some(OutcomeText(outcome)))
  }

  function SynthesizerDelta(outcome: TextOutcome): Delta {
    TextDelta("synthesizer", outcome).(synthesis := Some(OutcomeText(outcome)))
  }

  function NonBlank(gaps: seq<string>): (kept: seq<string>)
    ensures forall g | g in kept :: g in gaps && !Text.IsBlank(g)
  {
    if gaps == [] then []
    else
      var n := |gaps| - 1;
      if Text.IsBlank(gaps[n]) then NonBlank(gaps[..n]) else NonBlank(gaps[..n]) + [gaps[n]]
  }

  function CriticDelta(outcome: CriticOutcome): Delta {
    match outcome
    case CriticFailed(prompt, reason) =>
      NO_DELTA.(critique := Some("Critic LLM failed: " + reason), critiquePass := Some(false),
               gaps := Some(["retry critic after resolving LLM failure"]),
               tokenUsage := map["critic" := 0], errors := ["critic llm error: " + reason],
               messages := [Human(prompt), Ai("error")])
    case CriticUnparsed(prompt, tokens) =>
      NO_DELTA.(critique := Some("Critic could not parse structured response."), critiquePass := Some(false),
               gaps := Some(["insufficient structured output from critic"]),
               tokenUsage := map["critic" := tokens], errors := ["critic structured output parse failed"],
               messages := [Human(prompt), Ai("parse error")])
    case Criticised(prompt, reply, critique, pass, gaps, tokens) =>
      var kept := NonBlank(gaps);
      NO_DELTA.(critique := Some(critique), critiquePass := Some(pass),
               gaps := Some(if !pass && kept == []
                            then ["insufficient detail to verify claims against sources"] else kept),
               tokenUsage := map["critic" := tokens], messages := [Human(prompt), Ai(reply)])
  }

  /** Something is left to research: at least one gap, none of them blank. */
  predicate HasGaps(gaps: seq<string>) {
    gaps != [] && forall g | g in gaps :: !Text.IsBlank(g)
  }

  /** On all three return paths a critique that does not pass names what is missing. */
  lemma RejectionNamesGaps(outcome: CriticOutcome)
    ensures var d := CriticDelta(outcome);
            d.critiquePass.Some? && d.gaps.Some? && (d.critiquePass.value || HasGaps(d.gaps.value))
  {
    assert "retry critic after resolving LLM failure"[0] == 'r';
    assert "insufficient structured output from critic"[0] == 'i';
    assert "insufficient detail to verify claims against sources"[0] == 'i';
  }

  // ---- What a node leaves in the state -----------------------------------------------------------

  /** The text a node returns: what the model wrote, or the text in place of it when the model failed. */
  predicate Written(text: string, outcome: TextOutcome) {
    text == if outcome.Wrote? then outcome.text else outcome.fallback
  }

  /** Only this agent used tokens, and this many. */
  ghost predicate UsesOnly(usage: Usage, agent: string, tokens: int) {
    forall other :: Used(usage, other) == (if other == agent then tokens else 0)
  }

  /** Exchange, usage and errors of a node that writes text. */
  ghost predicate Exchanges(agent: string, outcome: TextOutcome, d: Delta) {
    && d.messages == [Human(outcome.prompt), Ai(if outcome.Wrote? then outcome.text else "error")]
    && UsesOnly(d.tokenUsage, agent, if outcome.Wrote? then outcome.tokens else 0)
    && d.errors == (if outcome.Wrote? then [] else [agent + " llm error: " + outcome.reason])
    && d.rawFindings == [] && d.sources == []
  }

  /** The analyst writes the analysis and the synthesizer the synthesis, and neither anything else. */
  lemma TextNodesWrite(st: State, outcome: TextOutcome)
    ensures Exchanges("analyst", outcome, AnalystDelta(outcome))
    ensures Exchanges("synthesizer", outcome, SynthesizerDelta(outcome))
    ensures var a := Apply(st, AnalystDelta(outcome));
      Written(a.analysis, outcome) && a.synthesis == st.synthesis && SameVerdict(a, st)
    ensures var z := Apply(st, SynthesizerDelta(outcome));
      Written(z.synthesis, outcome) && z.analysis == st.analysis && SameVerdict(z, st)
  {
  }

  predicate SameVerdict(a: State, b: State) {
    a.critique == b.critique && a.critiquePass == b.critiquePass && a.gaps == b.gaps
  }

  /** The state holds what the critic made of its outcome. The gaps of a parsed critique are those that
      are not blank, in order; a rejection without any names one of its own, and a failure rejects. */
  ghost predicate Judged(st: State, outcome: CriticOutcome) {
    match outcome
    case CriticFailed(_, reason) =>
      !st.critiquePass && HasGaps(st.gaps) && st.critique == "Critic LLM failed: " + reason
    case CriticUnparsed(_, _) =>
      !st.critiquePass && HasGaps(st.gaps) && st.critique == "Critic could not parse structured response."
    case Criticised(_, _, critique, pass, gaps, _) =>
      && st.critique == critique && st.critiquePass == pass
      && if pass || exists g :: g in gaps && !Text.IsBlank(g) then
           KeptInOrder(gaps, st.gaps)
         else |st.gaps| == 1 && HasGaps(st.gaps)
  }

  /** These are the gaps that are not blank. */
  ghost predicate KeptInOrder(gaps: seq<string>, kept: seq<string>) {
    exists at: seq<nat> :: Picks(gaps, Marked(gaps), kept, at)
  }

  function Marked(gaps: seq<string>): seq<bool> {
    seq(|gaps|, i requires 0 <= i < |gaps| => !Text.IsBlank(gaps[i]))
  }

  lemma {:induction false} NonBlankInOrder(gaps: seq<string>) returns (at: seq<nat>)
    ensures Picks(gaps, Marked(gaps), NonBlank(gaps), at)
    decreases |gaps|
  {
    if gaps == [] {
      at := [];
    } else {
      var n := |gaps| - 1;
      var front, keep := gaps[..n], !Text.IsBlank(gaps[n]);
      at := NonBlankInOrder(front);
      at := PicksSnoc(front, Marked(front), NonBlank(front), at, gaps[n], keep);
      FrontAndLast(gaps);
      MarkedSnoc(gaps, n);
    }
  }

  lemma MarkedSnoc(gaps: seq<string>, n: nat)
    requires |gaps| == n + 1
    ensures Marked(gaps) == Marked(gaps[..n]) + [!Text.IsBlank(gaps[n])]
  {
  }

  lemma {:induction false} NonBlankKeeps(gaps: seq<string>, g: string)
    requires g in gaps && !Text.IsBlank(g)
    ensures g in NonBlank(gaps)
  {
    var n := |gaps| - 1;
    FrontAndLast(gaps);
    if g != gaps[n] { NonBlankKeeps(gaps[..n], g); }
  }

  lemma NonBlankEmpty(gaps: seq<string>)
    ensures NonBlank(gaps) == [] <==> forall g | g in gaps :: Text.IsBlank(g)
  {
    if g :| g in gaps && !Text.IsBlank(g) {
      NonBlankKeeps(gaps, g);
    } else if NonBlank(gaps) != [] {
      assert NonBlank(gaps)[0] in NonBlank(gaps);
    }
  }

  /** The critic settles critique, verdict and gaps, and leaves both texts alone. */
  lemma CriticJudges(st: State, outcome: CriticOutcome)
    ensures var q := Apply(st, CriticDelta(outcome));
      Judged(q, outcome) && q.analysis == st.analysis && q.synthesis == st.synthesis
    ensures UsesOnly(CriticDelta(outcome).tokenUsage, "critic", if outcome.CriticFailed? then 0 else outcome.tokens)
    ensures |CriticDelta(outcome).messages| == 2 && CriticDelta(outcome).messages[0] == Human(outcome.prompt)
    ensures outcome.Criticised? ==> CriticDelta(outcome).messages[1] == Ai(outcome.reply)
    ensures CriticDelta(outcome).errors ==
      if outcome.CriticFailed? then ["critic llm error: " + outcome.reason]
      else if outcome.CriticUnparsed? then ["critic structured output parse failed"] else []
  {
    RejectionNamesGaps(outcome);
    if outcome.Criticised? {
      var at := NonBlankInOrder(outcome.gaps);
      NonBlankEmpty(outcome.gaps);
    }
  }

  /** The researcher leaves both texts and the verdict alone. */
  lemma ResearcherLeaves(st: State, outcome: ResearchOutcome)
    ensures var r := Apply(st, ResearcherDelta(st, outcome));
      r.analysis == st.analysis && r.synthesis == st.synthesis && SameVerdict(r, st)
  {
  }
}

/** The compiled graph: its topology, the routing decision, and complete runs. */
module ResearchGraph {
  import opened Wrappers
  import opened ResearchState
  import opened ResearchNodes

  datatype NodeName = Start | Researcher | Analyst | Critic | Synthesizer | End

  datatype Topology = Topology(edges: map<NodeName, NodeName>, branches: map<NodeName, map<NodeName, NodeName>>)

  class StateGraph {
    var nodes: set<NodeName>
    var edges: map<NodeName, NodeName>
    var branches: map<NodeName, map<NodeName, NodeName>>

    constructor ()
      ensures nodes == {} && edges == map[] && branches == map[]
    {
      nodes, edges, branches := {}, map[], map[];
    }

    method AddNode(n: NodeName)
      modifies `nodes
      ensures nodes == old(nodes) + {n}
    {
      nodes := nodes + {n};
    }

    method AddEdge(from: NodeName, to: NodeName)
      modifies `edges
      ensures edges == old(edges)[from := to]
    {
      edges := edges[from := to];
    }

    method AddConditionalEdges(from: NodeName, targets: map<NodeName, NodeName>)
      modifies `branches
      ensures branches == old(branches)[from := targets]
    {
      branches := branches[from := targets];
    }

    method Compile() returns (g: Topology)
      ensures g == Topology(edges, branches)
    {
      g := Topology(edges, branches);
    }
  }

  const FULL_GRAPH: Topology := Topology(
    map[Start := Researcher, Researcher := Analyst, Analyst := Critic, Synthesizer := End],
    map[Critic := map[Researcher := Researcher, Synthesizer := Synthesizer]])

  const LIGHT_GRAPH: Topology := Topology(map[Start := Synthesizer, Synthesizer := End], map[])

  method BuildResearchGraph() returns (g: Topology)
    ensures g == FULL_GRAPH
  {
    var b := new StateGraph();
    b.AddNode(Researcher);
    b.AddNode(Analyst);
    b.AddNode(Critic);
    b.AddNode(Synthesizer);
    b.AddEdge(Start, Researcher);
    b.AddEdge(Researcher, Analyst);
    b.AddEdge(Analyst, Critic);
    b.AddConditionalEdges(Critic, map[Researcher := Researcher, Synthesizer := Synthesizer]);
    b.AddEdge(Synthesizer, End);
    g := b.Compile();
  }

  method BuildSynthesizerOnlyGraph() returns (g: Topology)
    ensures g == LIGHT_GRAPH
  {
    var b := new StateGraph();
    b.AddNode(Synthesizer);
    b.AddEdge(Start, Synthesizer);
    b.AddEdge(Synthesizer, End);
    g := b.Compile();
  }

  function RouteAfterCritic(st: State): NodeName {
    if !st.critiquePass && st.iterationCount < st.maxIterations then Researcher else Synthesizer
  }

  function Next(g: Topology, node: NodeName, st: State): NodeName {
    if node in g.branches then
      var targets := g.branches[node];
      var choice := RouteAfterCritic(st);
      if choice in targets then targets[choice] else End
    else if node in g.edges then g.edges[node]
    else End
  }

  function NodeDelta(node: NodeName, st: State, env: Env): Delta {
    match node
    case Researcher => ResearcherDelta(st, env.research)
    case Analyst => AnalystDelta(env.analysis)
    case Critic => CriticDelta(env.critique)
    case Synthesizer => SynthesizerDelta(env.synthesis)
    case _ => NO_DELTA
  }

  datatype Visit = Visit(node: NodeName, before: State, delta: Delta, after: State)

  /** The node executions from `node` on; None when the run raises or its answers run out. */
  function Run(g: Topology, node: NodeName, st: State, envs: seq<Env>): Option<seq<Visit>>
    decreases |envs|
  {
    if node == End then Some([])
    else if envs == [] || envs[0].raises then None
    else
      var delta := NodeDelta(node, st, envs[0]);
      var after := Apply(st, delta);
      match Run(g, Next(g, node, after), after, envs[1..])
      case None => None
      case Some(rest) => Some([Visit(node, st, delta, after)] + rest)
  }

  function Final(st: State, visits: seq<Visit>): State {
    if visits == [] then st else visits[|visits| - 1].after
  }

  /** One research pass: three nodes in order, each starting from what the previous one left. */
  predicate Pass(visits: seq<Visit>, i: nat)
    requires 3 * i + 2 < |visits|
  {
    && visits[3 * i].node == Researcher
    && visits[3 * i + 1].node == Analyst && visits[3 * i + 1].before == visits[3 * i].after
    && visits[3 * i + 2].node == Critic && visits[3 * i + 2].before == visits[3 * i + 1].after
  }

  /** Pass i starts at iteration c + i, and hands a rejection with gaps to a following pass. */
  predicate PassOf(visits: seq<Visit>, i: nat, c: int, m: int) {
    && 3 * i + 3 < |visits|
    && Pass(visits, i)
    && visits[3 * i].before.iterationCount == c + i
    && visits[3 * i + 2].after.iterationCount == c + i + 1
    && visits[3 * i + 3].before == visits[3 * i + 2].after
    && (3 * i + 4 < |visits| ==>
          !visits[3 * i + 2].after.critiquePass && c + i + 1 < m && HasGaps(visits[3 * i + 3].before.gaps))
  }

  predicate Passes(visits: seq<Visit>, k: nat, c: int, m: int) {
    forall i | 0 <= i < k :: PassOf(visits, i, c, m)
  }

  /** A complete run of k passes closed by the synthesizer, from iteration c with budget m. */
  predicate Complete(visits: seq<Visit>, k: nat, c: int, m: int) {
    && 1 <= k && (k == 1 || k <= m - c)
    && |visits| == 3 * k + 1
    && Passes(visits, k, c, m)
    && visits[3 * k].node == Synthesizer
    && (visits[3 * k].before.critiquePass || visits[3 * k].before.iterationCount >= m)
  }

  /** The first execution of a run, and the run that follows it. */
  lemma {:induction false} RunStep(g: Topology, node: NodeName, st: State, envs: seq<Env>, visits: seq<Visit>)
    requires node != End && Run(g, node, st, envs) == Some(visits)
    ensures envs != [] && !envs[0].raises && visits != []
    ensures visits[0].node == node && visits[0].before == st && visits[0].delta == NodeDelta(node, st, envs[0])
    ensures visits[0].after == Apply(st, visits[0].delta)
    ensures Run(g, Next(g, node, visits[0].after), visits[0].after, envs[1..]) == Some(visits[1..])
  {
    var after := Apply(st, NodeDelta(node, st, envs[0]));
    var rest := Run(g, Next(g, node, after), after, envs[1..]).value;
    assert visits == [Visit(node, st, NodeDelta(node, st, envs[0]), after)] + rest;
    assert visits[1..] == rest;
  }

  lemma FullGraphOrder(st: State)
    ensures Next(FULL_GRAPH, Start, st) == Researcher && Next(FULL_GRAPH, Researcher, st) == Analyst
    ensures Next(FULL_GRAPH, Analyst, st) == Critic && Next(FULL_GRAPH, Synthesizer, st) == End
    ensures Next(FULL_GRAPH, Critic, st) == RouteAfterCritic(st)
  {
  }

  /** The counter moves in the researcher only; the critic settles verdict and gaps together. */
  lemma PassEffects(st: State, env: Env)
    ensures var r := Apply(st, NodeDelta(Researcher, st, env));
            r.iterationCount == st.iterationCount + 1 && r.maxIterations == st.maxIterations
    ensures var a := Apply(st, NodeDelta(Analyst, st, env));
            a.iterationCount == st.iterationCount && a.maxIterations == st.maxIterations
    ensures var q := Apply(st, NodeDelta(Critic, st, env));
            && q.iterationCount == st.iterationCount && q.maxIterations == st.maxIterations
            && (q.critiquePass || HasGaps(q.gaps))
  {
    RejectionNamesGaps(env.critique);
  }

  /** The first pass of a run from the researcher, and where the run goes from there. */
  lemma {:induction false} FirstPass(st: State, envs: seq<Env>, visits: seq<Visit>)
    requires Run(FULL_GRAPH, Researcher, st, envs) == Some(visits)
    ensures |visits| >= 3 && |envs| >= 3 && Pass(visits, 0) && visits[0].before == st
    ensures visits[2].after.iterationCount == st.iterationCount + 1
    ensures visits[2].after.maxIterations == st.maxIterations
    ensures visits[2].after.critiquePass || HasGaps(visits[2].after.gaps)
    ensures Run(FULL_GRAPH, RouteAfterCritic(visits[2].after), visits[2].after, envs[3..]) == Some(visits[3..])
  {
    RunStep(FULL_GRAPH, Researcher, st, envs, visits);
    var st1 := visits[0].after;
    FullGraphOrder(st1);
    PassEffects(st, envs[0]);
    RunStep(FULL_GRAPH, Analyst, st1, envs[1..], visits[1..]);
    var st2 := visits[1].after;
    FullGraphOrder(st2);
    PassEffects(st1, envs[1]);
    assert envs[1..][1..] == envs[2..] && visits[1..][1..] == visits[2..];
    RunStep(FULL_GRAPH, Critic, st2, envs[2..], visits[2..]);
    FullGraphOrder(visits[2].after);
    PassEffects(st2, envs[2]);
    assert envs[2..][1..] == envs[3..] && visits[2..][1..] == visits[3..];
  }

  /** The shape of every run of the full graph that does not abort. */
  lemma {:induction false} RunShape(st: State, envs: seq<Env>, visits: seq<Visit>) returns (k: nat)
    requires Run(FULL_GRAPH, Researcher, st, envs) == Some(visits)
    ensures Complete(visits, k, st.iterationCount, st.maxIterations)
    decreases |envs|, 0
  {
    FirstPass(st, envs, visits);
    var after, later := visits[2].after, envs[3..];
    if RouteAfterCritic(after) == Researcher {
      k := LoopedPass(st.iterationCount, st.maxIterations, after, later, visits);
    } else {
      k := 1;
      ClosingPass(st.iterationCount, st.maxIterations, after, later, visits);
    }
  }

  /** A rejected pass is followed by a complete run, and with it makes one. */
  lemma {:induction false} LoopedPass(c: int, m: int, after: State, envs: seq<Env>, visits: seq<Visit>) returns (k: nat)
    requires |visits| >= 3 && Pass(visits, 0) && visits[2].after == after
    requires visits[0].before.iterationCount == c && after.iterationCount == c + 1 && after.maxIterations == m
    requires RouteAfterCritic(after) == Researcher && HasGaps(after.gaps)
    requires Run(FULL_GRAPH, Researcher, after, envs) == Some(visits[3..])
    ensures Complete(visits, k, c, m)
    decreases |envs|, 1
  {
    var rest := visits[3..];
    k := RunShape(after, envs, rest);
    FirstVisit(FULL_GRAPH, Researcher, after, envs, rest);
    PrependToRun(c, m, after, visits, rest, k);
    k := k + 1;
  }

  lemma PrependToRun(c: int, m: int, after: State, visits: seq<Visit>, rest: seq<Visit>, k: nat)
    requires |visits| > 3 && Pass(visits, 0) && visits[2].after == after
    requires rest == visits[3..] && rest[0].before == after
    requires visits[0].before.iterationCount == c && after.iterationCount == c + 1 && after.maxIterations == m
    requires RouteAfterCritic(after) == Researcher && HasGaps(after.gaps) && Complete(rest, k, c + 1, m)
    ensures Complete(visits, k + 1, c, m)
  {
    PassBefore(c, m, after, visits, rest[0]);
    PrependPass(visits, rest, k, c, c + 1, m);
  }

  /** A pass that ends the loop is followed by the synthesizer alone. */
  lemma {:induction false} ClosingPass(c: int, m: int, after: State, envs: seq<Env>, visits: seq<Visit>)
    requires |visits| >= 3 && Pass(visits, 0) && visits[2].after == after
    requires visits[0].before.iterationCount == c && after.iterationCount == c + 1 && after.maxIterations == m
    requires RouteAfterCritic(after) == Synthesizer
    requires Run(FULL_GRAPH, Synthesizer, after, envs) == Some(visits[3..])
    ensures |visits| == 4 && Complete(visits, 1, c, m)
  {
    SynthesisEndsRun(FULL_GRAPH, after, envs, visits[3..]);
    assert visits[3] == visits[3..][0];
    PassLinks(visits, c, m);
    SinglePass(visits, c, m);
  }

  lemma PassBefore(c: int, m: int, after: State, visits: seq<Visit>, next: Visit)
    requires |visits| > 3 && Pass(visits, 0) && visits[2].after == after && visits[3] == next && next.before == after
    requires visits[0].before.iterationCount == c && after.iterationCount == c + 1 && after.maxIterations == m
    requires RouteAfterCritic(after) == Researcher && HasGaps(after.gaps)
    ensures PassOf(visits, 0, c, m) && c + 1 < m
  {
    PassLinks(visits, c, m);
  }

  lemma SinglePass(visits: seq<Visit>, c: int, m: int)
    requires |visits| == 4 && PassOf(visits, 0, c, m) && visits[3].node == Synthesizer
    requires visits[3].before.critiquePass || visits[3].before.iterationCount >= m
    ensures Complete(visits, 1, c, m)
  {
  }

  lemma PassLinks(visits: seq<Visit>, c: int, m: int)
    requires |visits| > 3 && Pass(visits, 0)
    requires visits[0].before.iterationCount == c && visits[2].after.iterationCount == c + 1
    requires visits[3].before == visits[2].after
    requires |visits| > 4 ==> !visits[2].after.critiquePass && c + 1 < m && HasGaps(visits[2].after.gaps)
    ensures PassOf(visits, 0, c, m)
  {
  }

  lemma PrependPass(visits: seq<Visit>, rest: seq<Visit>, k: nat, c: int, c1: int, m: int)
    requires |visits| > 3 && rest == visits[3..] && c1 == c + 1 && c1 < m
    requires Complete(rest, k, c1, m) && PassOf(visits, 0, c, m)
    ensures Complete(visits, k + 1, c, m)
  {
    forall i | 0 < i < k + 1
      ensures PassOf(visits, i, c, m)
    {
      assert PassOf(rest, i - 1, c1, m);
    }
  }

  lemma {:induction false} FirstVisit(g: Topology, node: NodeName, st: State, envs: seq<Env>, visits: seq<Visit>)
    requires node != End && Run(g, node, st, envs) == Some(visits)
    ensures visits != [] && visits[0].node == node && visits[0].before == st
  {
    RunStep(g, node, st, envs, visits);
  }

  /** In both graphs the synthesizer is the last node. */
  lemma {:induction false} SynthesisEndsRun(g: Topology, st: State, envs: seq<Env>, visits: seq<Visit>)
    requires g == FULL_GRAPH || g == LIGHT_GRAPH
    requires Run(g, Synthesizer, st, envs) == Some(visits)
    ensures |visits| == 1 && visits[0].node == Synthesizer && visits[0].before == st
  {
    RunStep(g, Synthesizer, st, envs, visits);
    assert Next(g, Synthesizer, visits[0].after) == End;
  }

  /** Enough answers, none of them raising, always complete a run within the iteration budget. */
  lemma {:induction false} RunTerminates(st: State, envs: seq<Env>, budget: nat)
    requires budget >= 1 && budget >= st.maxIterations - st.iterationCount
    requires |envs| >= 3 * budget + 1
    requires forall i | 0 <= i < |envs| :: !envs[i].raises
    ensures Run(FULL_GRAPH, Researcher, st, envs).Some?
    decreases budget
  {
    var st3 := AfterPass(st, envs);
    var later := envs[3..];
    PassCounts(st, envs);
    if RouteAfterCritic(st3) == Researcher {
      RunTerminates(st3, later, budget - 1);
    } else {
      SynthesisCompletes(st3, later);
    }
    PassCompletes(st, envs);
  }

  /** The state after the three nodes of a pass. */
  function AfterPass(st: State, envs: seq<Env>): State
    requires |envs| >= 3
  {
    var st1 := Apply(st, NodeDelta(Researcher, st, envs[0]));
    var st2 := Apply(st1, NodeDelta(Analyst, st1, envs[1]));
    Apply(st2, NodeDelta(Critic, st2, envs[2]))
  }

  lemma PassCounts(st: State, envs: seq<Env>)
    requires |envs| >= 3
    ensures AfterPass(st, envs).iterationCount == st.iterationCount + 1
    ensures AfterPass(st, envs).maxIterations == st.maxIterations
  {
    var st1 := Apply(st, NodeDelta(Researcher, st, envs[0]));
    var st2 := Apply(st1, NodeDelta(Analyst, st1, envs[1]));
    PassEffects(st, envs[0]);
    PassEffects(st1, envs[1]);
    PassEffects(st2, envs[2]);
  }

  lemma SynthesisCompletes(st: State, envs: seq<Env>)
    requires envs != [] && !envs[0].raises
    ensures Run(FULL_GRAPH, Synthesizer, st, envs).Some?
  {
    FullGraphOrder(Apply(st, NodeDelta(Synthesizer, st, envs[0])));
    RunContinues(FULL_GRAPH, Synthesizer, st, envs);
  }

  /** A pass that does not raise completes when what follows it does. */
  lemma PassCompletes(st: State, envs: seq<Env>)
    requires |envs| >= 3 && !envs[0].raises && !envs[1].raises && !envs[2].raises
    requires Run(FULL_GRAPH, RouteAfterCritic(AfterPass(st, envs)), AfterPass(st, envs), envs[3..]).Some?
    ensures Run(FULL_GRAPH, Researcher, st, envs).Some?
  {
    var st1 := Apply(st, NodeDelta(Researcher, st, envs[0]));
    var st2 := Apply(st1, NodeDelta(Analyst, st1, envs[1]));
    FullGraphOrder(st1);
    FullGraphOrder(st2);
    FullGraphOrder(AfterPass(st, envs));
    assert envs[2..][1..] == envs[3..] && envs[1..][1..] == envs[2..];
    RunContinues(FULL_GRAPH, Critic, st2, envs[2..]);
    RunContinues(FULL_GRAPH, Analyst, st1, envs[1..]);
    RunContinues(FULL_GRAPH, Researcher, st, envs);
  }

  lemma {:induction false} RunContinues(g: Topology, node: NodeName, st: State, envs: seq<Env>)
    requires envs != [] && !envs[0].raises
    requires var after := Apply(st, NodeDelta(node, st, envs[0]));
             Next(g, node, after) == End || Run(g, Next(g, node, after), after, envs[1..]).Some?
    ensures Run(g, node, st, envs).Some?
  {
  }

  // ---- Who wrote what a run returns ----------------------------------------------------------------

  /** The synthesis a run returns is what the synthesizer wrote in its last execution. */
  lemma {:induction false} RunReturnsSynthesis(g: Topology, node: NodeName, st: State, envs: seq<Env>,
          visits: seq<Visit>)
    requires g == FULL_GRAPH || (g == LIGHT_GRAPH && node == Synthesizer)
    requires node != Start && node != End && Run(g, node, st, envs) == Some(visits)
    ensures 0 < |visits| <= |envs|
    ensures Written(Final(st, visits).synthesis, envs[|visits| - 1].synthesis)
    decreases |envs|
  {
    RunStep(g, node, st, envs, visits);
    var after, later, rest := visits[0].after, envs[1..], visits[1..];
    if node == Synthesizer {
      SynthesisEndsRun(g, st, envs, visits);
      TextNodesWrite(st, envs[0].synthesis);
    } else {
      FullGraphOrder(after);
      RunReturnsSynthesis(g, Next(g, node, after), after, later, rest);
      assert later[|rest| - 1] == envs[|visits| - 1];
      FinalLater(st, visits, after, 1);
    }
  }

  /** What a pass leaves: the analyst's text and the critic's judgement. */
  lemma {:induction false} PassWrites(st: State, envs: seq<Env>, visits: seq<Visit>)
    requires Run(FULL_GRAPH, Researcher, st, envs) == Some(visits)
    ensures |visits| >= 3 && |envs| >= 3
    ensures Written(visits[2].after.analysis, envs[1].analysis) && Judged(visits[2].after, envs[2].critique)
  {
    RunStep(FULL_GRAPH, Researcher, st, envs, visits);
    var st1 := visits[0].after;
    FullGraphOrder(st1);
    RunStep(FULL_GRAPH, Analyst, st1, envs[1..], visits[1..]);
    var st2 := visits[1].after;
    FullGraphOrder(st2);
    assert envs[1..][1..] == envs[2..] && visits[1..][1..] == visits[2..];
    RunStep(FULL_GRAPH, Critic, st2, envs[2..], visits[2..]);
    TextNodesWrite(st1, envs[1].analysis);
    CriticJudges(st2, envs[2].critique);
  }

  /** The analysis and the judgement a full run returns are those of its last pass. */
  lemma {:induction false} RunReturnsJudgement(st: State, envs: seq<Env>, visits: seq<Visit>)
    requires Run(FULL_GRAPH, Researcher, st, envs) == Some(visits)
    ensures 4 <= |visits| <= |envs|
    ensures Written(Final(st, visits).analysis, envs[|visits| - 3].analysis)
    ensures Judged(Final(st, visits), envs[|visits| - 2].critique)
    decreases |envs|
  {
    FirstPass(st, envs, visits);
    PassWrites(st, envs, visits);
    var after, later, rest := visits[2].after, envs[3..], visits[3..];
    if RouteAfterCritic(after) == Researcher {
      RunReturnsJudgement(after, later, rest);
      assert later[|rest| - 3] == envs[|visits| - 3] && later[|rest| - 2] == envs[|visits| - 2];
    } else {
      LastPassJudges(after, later, rest, envs[1].analysis, envs[2].critique);
    }
    FinalLater(st, visits, after, 3);
  }

  lemma LastPassJudges(after: State, envs: seq<Env>, rest: seq<Visit>, a: TextOutcome, c: CriticOutcome)
    requires Run(FULL_GRAPH, Synthesizer, after, envs) == Some(rest)
    requires Written(after.analysis, a) && Judged(after, c)
    ensures |rest| == 1 && |envs| >= 1
    ensures Written(Final(after, rest).analysis, a) && Judged(Final(after, rest), c)
  {
    SynthesisLeaves(FULL_GRAPH, after, envs, rest);
  }

  lemma FinalLater(st: State, visits: seq<Visit>, after: State, n: nat)
    requires n < |visits|
    ensures Final(st, visits) == Final(after, visits[n..])
  {
  }

  /** A run of the synthesizer alone leaves analysis and judgement as they were. */
  lemma {:induction false} SynthesisLeaves(g: Topology, st: State, envs: seq<Env>, visits: seq<Visit>)
    requires g == FULL_GRAPH || g == LIGHT_GRAPH
    requires Run(g, Synthesizer, st, envs) == Some(visits)
    ensures |visits| == 1 && |envs| >= 1
    ensures visits[0].after.analysis == st.analysis && SameVerdict(visits[0].after, st)
    ensures forall o :: Judged(st, o) ==> Judged(visits[0].after, o)
  {
    RunStep(g, Synthesizer, st, envs, visits);
    SynthesisEndsRun(g, st, envs, visits);
    TextNodesWrite(st, envs[0].synthesis);
  }

  function NewFindings(visits: seq<Visit>): seq<Finding> {
    if visits == [] then [] else visits[0].delta.rawFindings + NewFindings(visits[1..])
  }

  function NewSources(visits: seq<Visit>): seq<Source> {
    if visits == [] then [] else visits[0].delta.sources + NewSources(visits[1..])
  }

  function NewMessages(visits: seq<Visit>): seq<Message> {
    if visits == [] then [] else visits[0].delta.messages + NewMessages(visits[1..])
  }

  function NewErrors(visits: seq<Visit>): seq<string> {
    if visits == [] then [] else visits[0].delta.errors + NewErrors(visits[1..])
  }

  function UsageOf(visits: seq<Visit>, agent: string): int {
    if visits == [] then 0 else Used(visits[0].delta.tokenUsage, agent) + UsageOf(visits[1..], agent)
  }

  /** What no run can change. */
  lemma {:induction false} RunKeeps(g: Topology, node: NodeName, st: State, envs: seq<Env>, visits: seq<Visit>)
    requires Run(g, node, st, envs) == Some(visits)
    ensures var f := Final(st, visits);
      && f.query == st.query && f.constraints == st.constraints
      && f.accumulatedContext == st.accumulatedContext && f.maxIterations == st.maxIterations
    decreases |envs|
  {
    if node != End {
      RunStep(g, node, st, envs, visits);
      RunKeeps(g, Next(g, node, visits[0].after), visits[0].after, envs[1..], visits[1..]);
    }
  }

  /** The appending channels hold the input followed by every node's contribution, in order. */
  lemma {:induction false} RunAppends(g: Topology, node: NodeName, st: State, envs: seq<Env>, visits: seq<Visit>)
    requires Run(g, node, st, envs) == Some(visits)
    ensures Final(st, visits).rawFindings == st.rawFindings + NewFindings(visits)
    ensures Final(st, visits).messages == st.messages + NewMessages(visits)
    ensures Final(st, visits).errors == st.errors + NewErrors(visits)
    decreases |envs|
  {
    if node != End {
      RunStep(g, node, st, envs, visits);
      var after, delta, rest := visits[0].after, visits[0].delta, visits[1..];
      RunAppends(g, Next(g, node, after), after, envs[1..], rest);
      assert Final(st, visits) == Final(after, rest);
      AppendsStep(st, delta);
      Associate(st.rawFindings, delta.rawFindings, NewFindings(rest));
      Associate(st.messages, delta.messages, NewMessages(rest));
      Associate(st.errors, delta.errors, NewErrors(rest));
    }
  }

  lemma AppendsStep(st: State, delta: Delta)
    ensures Apply(st, delta).rawFindings == st.rawFindings + delta.rawFindings
    ensures Apply(st, delta).messages == st.messages + delta.messages
    ensures Apply(st, delta).errors == st.errors + delta.errors
  {
  }

  lemma Associate<T>(a: seq<T>, b: seq<T>, c: seq<T>)
    ensures (a + b) + c == a + (b + c)
  {
  }

  /** The sources are the input's followed by the first occurrence of each URL the run found. */
  lemma {:induction false} RunGathersSources(g: Topology, node: NodeName, st: State, envs: seq<Env>, visits: seq<Visit>)
    requires Run(g, node, st, envs) == Some(visits)
    ensures Final(st, visits).sources == DedupeSources(st.sources, NewSources(visits))
    decreases |envs|
  {
    if node != End {
      RunStep(g, node, st, envs, visits);
      RunGathersSources(g, Next(g, node, visits[0].after), visits[0].after, envs[1..], visits[1..]);
      DedupeConcat(st.sources, visits[0].delta.sources, NewSources(visits[1..]));
    }
  }

  /** The usage of an agent is its initial value plus the sum over all node executions. */
  lemma {:induction false} RunSumsUsage(g: Topology, node: NodeName, st: State, envs: seq<Env>, visits: seq<Visit>,
          agent: string)
    requires Run(g, node, st, envs) == Some(visits)
    ensures Used(Final(st, visits).tokenUsage, agent) == Used(st.tokenUsage, agent) + UsageOf(visits, agent)
    decreases |envs|
  {
    if node != End {
      RunStep(g, node, st, envs, visits);
      RunSumsUsage(g, Next(g, node, visits[0].after), visits[0].after, envs[1..], visits[1..], agent);
      var after := visits[0].after;
      assert Used(after.tokenUsage, agent) == Used(st.tokenUsage, agent) + Used(visits[0].delta.tokenUsage, agent);
    }
  }

  lemma {:induction false} DedupeConcat(a: seq<Source>, b: seq<Source>, c: seq<Source>)
    ensures DedupeSources(DedupeSources(a, b), c) == DedupeSources(a, b + c)
    decreases |c|
  {
    if c == [] {
      assert b + c == b;
    } else {
      DedupeConcat(a, b, c[..|c| - 1]);
      assert (b + c)[..|b + c| - 1] == b + c[..|c| - 1];
    }
  }

  /** A complete run: the channels it started from and its node executions. */
  datatype Execution = Execution(start: State, visits: seq<Visit>) {
    function Result(): State { Final(start, visits) }
  }

  /** One engine invocation: validate, start the channels, run to the end. */
  function Invoke(g: Topology, input: EngineInput, maxIterations: int, envs: seq<Env>): Option<Execution> {
    match MergeContinuation(input, maxIterations)
    case None => None
    case Some(merged) =>
      var st := FromInput(merged);
      match Run(g, Next(g, Start, st), st, envs)
      case None => None
      case Some(visits) => Some(Execution(st, visits))
  }

  /** What an invocation carries over, and exactly what it adds. */
  lemma InvokeAccounts(g: Topology, input: EngineInput, maxIterations: int, envs: seq<Env>)
    requires Invoke(g, input, maxIterations, envs).Some?
    ensures var x := Invoke(g, input, maxIterations, envs).value; var r := x.Result();
      && r.query == input.query && r.constraints == input.constraints
      && r.accumulatedContext == input.accumulatedContext
      && r.messages == input.messages + NewMessages(x.visits)
      && r.rawFindings == input.rawFindings + NewFindings(x.visits)
      && r.sources == DedupeSources([], input.sources + NewSources(x.visits))
  {
    var st := FromInput(MergeContinuation(input, maxIterations).value);
    var visits := Run(g, Next(g, Start, st), st, envs).value;
    RunKeeps(g, Next(g, Start, st), st, envs, visits);
    RunAppends(g, Next(g, Start, st), st, envs, visits);
    RunGathersSources(g, Next(g, Start, st), st, envs, visits);
    DedupeConcat([], input.sources, NewSources(visits));
  }

  /** What an invocation starts from: the input, with the budget of the configuration and nothing used. */
  predicate StartsFrom(st: State, input: EngineInput, maxIterations: int) {
    && st.query == input.query && st.maxIterations == maxIterations && st.iterationCount == input.iterationCount
    && st.analysis == input.analysis && st.critique == input.critique && st.critiquePass == input.critiquePass
    && st.gaps == input.gaps && st.synthesis == input.synthesis && st.tokenUsage == map[] && st.errors == []
  }

  /** The invocation returns what its synthesizer wrote. A full run also returns the text of its last
      analyst and the judgement of its last critic, the light one those it was given. */
  lemma InvokeReturns(g: Topology, input: EngineInput, maxIterations: int, envs: seq<Env>)
    requires g == FULL_GRAPH || g == LIGHT_GRAPH
    requires Invoke(g, input, maxIterations, envs).Some?
    ensures var x := Invoke(g, input, maxIterations, envs).value; var n := |x.visits|;
      && 0 < n <= |envs| && x.visits[0].before == x.start && StartsFrom(x.start, input, maxIterations)
      && Written(x.Result().synthesis, envs[n - 1].synthesis)
      && (g == FULL_GRAPH ==>
            n >= 4 && Written(x.Result().analysis, envs[n - 3].analysis) && Judged(x.Result(), envs[n - 2].critique))
      && (g == LIGHT_GRAPH ==> x.Result().analysis == input.analysis && SameVerdict(x.Result(), x.start))
  {
    var x := Invoke(g, input, maxIterations, envs).value;
    var node := Next(g, Start, x.start);
    FullGraphOrder(x.start);
    assert g == LIGHT_GRAPH ==> node == Synthesizer;
    RunReturnsSynthesis(g, node, x.start, envs, x.visits);
    FirstVisit(g, node, x.start, envs, x.visits);
    if g == FULL_GRAPH {
      RunReturnsJudgement(x.start, envs, x.visits);
    } else {
      SynthesisLeaves(g, x.start, envs, x.visits);
    }
  }

  /** Every full invocation that completes has the shape of `Complete`. */
  lemma InvokeShape(input: EngineInput, maxIterations: int, envs: seq<Env>)
    requires Invoke(FULL_GRAPH, input, maxIterations, envs).Some?
    ensures var visits := Invoke(FULL_GRAPH, input, maxIterations, envs).value.visits;
            Complete(visits, (|visits| - 1) / 3, input.iterationCount, maxIterations)
  {
    var x := Invoke(FULL_GRAPH, input, maxIterations, envs).value;
    FullGraphOrder(x.start);
    var k := RunShape(x.start, envs, x.visits);
    assert k == (|x.visits| - 1) / 3;
  }
}
