/** Intents and the choice of engine for a turn. */
module Routing {
  import opened ResearchState

  datatype Intent = NewQuery | Refinement | Reformat | MetaQuestion | NeedsClarification

  datatype Classification = Classification(intent: Intent, confidence: real, patch: Constraints)

  datatype Mode = ClarifyOnly | LightReformat | LightMeta | FullMode
  datatype EngineEntry = NoEngine | SynthesizerOnly | ResearchEngine
  datatype RoutePlan = RoutePlan(mode: Mode, entry: EngineEntry)

  function PlanRoute(intent: Intent, confidence: real, hasSnapshot: bool, threshold: real): RoutePlan {
    if confidence < threshold || intent == NeedsClarification then RoutePlan(ClarifyOnly, NoEngine)
    else if intent == Reformat && hasSnapshot then RoutePlan(LightReformat, SynthesizerOnly)
    else if intent == MetaQuestion && hasSnapshot then RoutePlan(LightMeta, SynthesizerOnly)
    else RoutePlan(FullMode, ResearchEngine)
  }

  /** The confidence is too low, or the classifier itself says so. */
  predicate Unclear(intent: Intent, confidence: real, threshold: real) {
    confidence < threshold || intent == NeedsClarification
  }

  /** A plan asks for clarification exactly when the intent is unclear. Otherwise it takes the light
      engine exactly for a reformat or a meta question about a snapshot, and the full one for the rest. */
  lemma RoutesExactly(intent: Intent, confidence: real, hasSnapshot: bool, threshold: real)
    ensures var plan := PlanRoute(intent, confidence, hasSnapshot, threshold);
      && (plan.mode == ClarifyOnly <==> Unclear(intent, confidence, threshold))
      && (plan.entry == NoEngine <==> Unclear(intent, confidence, threshold))
      && (plan.entry == SynthesizerOnly <==>
            !Unclear(intent, confidence, threshold) && hasSnapshot && (intent == Reformat || intent == MetaQuestion))
      && (plan.mode == LightReformat <==> plan.entry == SynthesizerOnly && intent == Reformat)
      && (plan.mode == LightMeta <==> plan.entry == SynthesizerOnly && intent == MetaQuestion)
  {
  }
}

/** The durable snapshot of a session and its translation to and from engine states. */
module ConversationMerge {
  import opened Wrappers
  import opened ResearchState
  import opened Routing

  /** An element of a stored message list; anything that is not a dictionary is Malformed. */
  datatype SerialItem = Item(kind: string, content: Option<string>) | Malformed

  datatype StateBlob = StateBlob(
    query: string,
    constraints: Constraints,
    accumulatedContext: seq<string>,
    messagesSerial: seq<SerialItem>,
    rawFindings: seq<Finding>,
    sources: seq<Source>,
    analysis: string,
    critique: string,
    critiquePass: bool,
    gaps: seq<string>,
    synthesis: string,
    iterationCount: int)

  /** Last write wins per top-level key. */
  function MergeConstraints(base: Constraints, patch: Constraints): Constraints {
    base + patch
  }

  function Restored(item: SerialItem): seq<Message> {
    if item.Malformed? then []
    else if item.kind == "human" then [Human(item.content.GetOr(""))]
    else if item.kind == "ai" then [Ai(item.content.GetOr(""))]
    else []
  }

  function RestoredAll(raw: seq<SerialItem>): seq<Message> {
    if raw == [] then [] else RestoredAll(raw[..|raw| - 1]) + Restored(raw[|raw| - 1])
  }

  method MessagesFromSnapshot(raw: seq<SerialItem>) returns (out: seq<Message>)
    ensures out == RestoredAll(raw)
  {
    out := [];
    for i := 0 to |raw|
      invariant out == RestoredAll(raw[..i])
    {
      assert raw[..i + 1][..i] == raw[..i];
      if raw[i].Malformed? { continue; }
      if raw[i].kind == "human" {
        out := out + [Human(raw[i].content.GetOr(""))];
      } else if raw[i].kind == "ai" {
        out := out + [Ai(raw[i].content.GetOr(""))];
      }
    }
    assert raw[..|raw|] == raw;
  }

  function Stored(m: Message): SerialItem {
    match m
    case Human(content) => Item("human", Some(content))
    case Ai(content) => Item("ai", Some(content))
  }

  function StoredAll(messages: seq<Message>): (serial: seq<SerialItem>)
    ensures |serial| == |messages|
  {
    if messages == [] then [] else StoredAll(messages[..|messages| - 1]) + [Stored(messages[|messages| - 1])]
  }

  method SerializeMessages(messages: seq<Message>) returns (serial: seq<SerialItem>)
    ensures serial == StoredAll(messages)
  {
    serial := [];
    for i := 0 to |messages|
      invariant serial == StoredAll(messages[..i])
    {
      assert messages[..i + 1][..i] == messages[..i];
      match messages[i] {
        case Human(content) => serial := serial + [Item("human", Some(content))];
        case Ai(content) => serial := serial + [Item("ai", Some(content))];
      }
    }
    assert messages[..|messages|] == messages;
  }

  /** Messages are stored one by one under the names of their kinds. */
  lemma {:induction false} StoredByKind(messages: seq<Message>, k: nat)
    requires k < |messages|
    ensures StoredAll(messages)[k] ==
      Item(if messages[k].Human? then "human" else "ai", Some(messages[k].content))
  {
    var n := |messages| - 1;
    if k < n {
      assert messages[..n][k] == messages[k];
      StoredByKind(messages[..n], k);
    }
  }

  /** Items of any other kind, and elements that are no dictionary, are skipped; missing content is empty. */
  lemma RestoredByKind(item: SerialItem)
    ensures Restored(item) == [] <==> item.Malformed? || item.kind !in {"human", "ai"}
    ensures Restored(item) != [] ==>
      var text := if item.content.Some? then item.content.value else "";
      Restored(item) == [if item.kind == "human" then Human(text) else Ai(text)]
  {
  }

  /** Storing the messages and reading them back loses nothing. */
  lemma {:induction false} MessagesRoundTrip(messages: seq<Message>)
    ensures RestoredAll(StoredAll(messages)) == messages
  {
    if messages == [] {
    } else {
      var front, last := messages[..|messages| - 1], messages[|messages| - 1];
      MessagesRoundTrip(front);
      RestoreOneMore(front, StoredAll(front), last);
      assert front + [last] == messages;
    }
  }

  lemma {:induction false} RestoreOneMore(front: seq<Message>, raw: seq<SerialItem>, last: Message)
    requires RestoredAll(raw) == front
    ensures RestoredAll(raw + [Stored(last)]) == front + [last]
  {
    assert Restored(Stored(last)) == [last];
    RestoredSnoc(raw, Stored(last));
  }

  lemma {:induction false} RestoredSnoc(raw: seq<SerialItem>, item: SerialItem)
    ensures RestoredAll(raw + [item]) == RestoredAll(raw) + Restored(item)
  {
    assert (raw + [item])[..|raw|] == raw;
  }

  /** A missing snapshot reads as one with every field empty. */
  const EMPTY_BLOB: StateBlob := StateBlob("", map[], [], [], [], [], "", "", false, [], "", 0)

  function BuildEngineInput(snapshot: Option<StateBlob>, message: string, patch: Constraints,
          intent: Intent): EngineInput {
    var snap := snapshot.GetOr(EMPTY_BLOB);
    var again := intent != NewQuery;
    EngineInput(
      message,
      MergeConstraints(snap.constraints, patch),
      snap.accumulatedContext + (if snap.synthesis != "" then [snap.synthesis] else []),
      RestoredAll(snap.messagesSerial) + [Human(message)],
      if again then snap.rawFindings else [],
      if again then snap.sources else [],
      if again then snap.analysis else "",
      if again then snap.critique else "",
      again && snap.critiquePass,
      if again then snap.gaps else [],
      snap.synthesis,
      0)
  }

  function BlobFromResult(result: State): StateBlob {
    StateBlob(result.query, result.constraints, result.accumulatedContext, StoredAll(result.messages),
              result.rawFindings, result.sources, result.analysis, result.critique, result.critiquePass,
              result.gaps, result.synthesis, result.iterationCount)
  }
}

/** The engine part of one turn: from the snapshot it starts from to the snapshot it produces. */
module TurnEngine {
  import opened Wrappers
  import Text
  import opened ResearchState
  import opened ResearchNodes
  import opened ResearchGraph
  import opened Routing
  import opened ConversationMerge

  datatype Settings = Settings(threshold: real, hasLightGraph: bool, maxIterations: int)

  /** What an engine turn was given, and the node executions it led to. */
  datatype TurnRecord = TurnRecord(
    basis: Option<StateBlob>, message: string, classification: Classification, visits: seq<Visit>)

  datatype Draft = Draft(text: string, blob: StateBlob, record: TurnRecord)

  function Plan(cfg: Settings, basis: Option<StateBlob>, c: Classification): RoutePlan {
    PlanRoute(c.intent, c.confidence, basis.Some?, cfg.threshold)
  }

  /** The turn only asks for clarification. */
  predicate Asks(cfg: Settings, c: Classification) { Unclear(c.intent, c.confidence, cfg.threshold) }

  lemma AsksExactly(cfg: Settings, basis: Option<StateBlob>, c: Classification)
    ensures Plan(cfg, basis, c).mode == ClarifyOnly <==> Asks(cfg, c)
    ensures Engine(cfg, basis, c) == None <==> Asks(cfg, c)
  {
    RoutesExactly(c.intent, c.confidence, basis.Some?, cfg.threshold);
  }

  /** The graph a turn invokes; None when the turn only asks for clarification. */
  function Engine(cfg: Settings, basis: Option<StateBlob>, c: Classification): Option<Topology> {
    var plan := Plan(cfg, basis, c);
    if plan.mode == ClarifyOnly then None
    else if plan.entry == SynthesizerOnly && cfg.hasLightGraph then Some(LIGHT_GRAPH)
    else Some(FULL_GRAPH)
  }

  /** None when the engine raises. */
  function EngineTurn(cfg: Settings, basis: Option<StateBlob>, message: string, c: Classification,
          envs: seq<Env>): Option<Draft> {
    var engine := Engine(cfg, basis, c);
    if engine == None then None
    else
      var input := BuildEngineInput(basis, message, c.patch, c.intent);
      match Invoke(engine.value, input, cfg.maxIterations, envs)
      case None => None
      case Some(x) =>
        var result := x.Result();
        var blob := BlobFromResult(result).(
          constraints := MergeConstraints(basis.GetOr(EMPTY_BLOB).constraints, c.patch));
        Some(Draft(result.synthesis, blob, TurnRecord(basis, message, c, x.visits)))
  }

  function NonEmpty(s: string): seq<string> { if s != "" then [s] else [] }

  /** What the user can still refer to: earlier syntheses, oldest first, then the current one. */
  function History(blob: StateBlob): seq<string> {
    blob.accumulatedContext + NonEmpty(blob.synthesis)
  }

  /** A session at a glance. `found` lists sources before duplicates are dropped. */
  datatype Summary = Summary(
    history: seq<string>,
    constraints: Constraints,
    findings: seq<Finding>,
    found: seq<Source>,
    messages: seq<Message>)

  const NO_TURNS := Summary([], map[], [], [], [])

  /** The simple account of one more turn: append, overwrite keys, and forget research on a new query. */
  function Extend(s: Summary, synthesis: string, r: TurnRecord): Summary {
    var again := r.classification.intent != NewQuery;
    Summary(
      s.history + NonEmpty(synthesis),
      s.constraints + r.classification.patch,
      (if again then s.findings else []) + NewFindings(r.visits),
      (if again then s.found else []) + NewSources(r.visits),
      s.messages + [Human(r.message)] + NewMessages(r.visits))
  }

  /** A stored blob says what the summary says. */
  predicate Shows(blob: StateBlob, s: Summary) {
    && History(blob) == s.history
    && blob.constraints == s.constraints
    && blob.rawFindings == s.findings
    && blob.sources == DedupeSources([], s.found)
    && RestoredAll(blob.messagesSerial) == s.messages
  }

  predicate Basis(basis: Option<StateBlob>, s: Summary) {
    if basis == None then s == NO_TURNS else Shows(basis.value, s)
  }

  /** One engine turn on the stored form is one step of the simple account. */
  lemma TurnExtends(cfg: Settings, basis: Option<StateBlob>, message: string, c: Classification, envs: seq<Env>,
          s: Summary)
    requires Basis(basis, s)
    requires EngineTurn(cfg, basis, message, c, envs).Some?
    ensures var d := EngineTurn(cfg, basis, message, c, envs).value;
            d.text == d.blob.synthesis && Shows(d.blob, Extend(s, d.blob.synthesis, d.record))
  {
    var g := Engine(cfg, basis, c).value;
    var input := BuildEngineInput(basis, message, c.patch, c.intent);
    InvokeAccounts(g, input, cfg.maxIterations, envs);
    var x := Invoke(g, input, cfg.maxIterations, envs).value;
    MessagesRoundTrip(x.Result().messages);
    assert input.messages == s.messages + [Human(message)];
    assert input.accumulatedContext == s.history;
    SourcesRestart(input.sources, if c.intent != NewQuery then s.found else [], NewSources(x.visits));
  }

  lemma SourcesRestart(carried: seq<Source>, found: seq<Source>, more: seq<Source>)
    requires carried == DedupeSources([], found)
    ensures DedupeSources([], carried + more) == DedupeSources([], found + more)
  {
    DedupeConcat([], carried, more);
    DedupeConcat([], found, more);
    DedupeDistinct([], found);
    DedupeFromEmpty(carried);
  }

  /** With answers that do not raise, an engine turn completes exactly when its input validates. */
  lemma EngineTurnCompletes(cfg: Settings, basis: Option<StateBlob>, message: string, c: Classification, envs: seq<Env>)
    requires !Asks(cfg, c)
    requires |envs| >= 16 && forall i | 0 <= i < |envs| :: !envs[i].raises
    ensures EngineTurn(cfg, basis, message, c, envs).Some? <==>
            !Text.IsBlank(message) && 1 <= cfg.maxIterations <= 5
  {
    AsksExactly(cfg, basis, c);
    var g := Engine(cfg, basis, c).value;
    var input := BuildEngineInput(basis, message, c.patch, c.intent);
    var merged := MergeContinuation(input, cfg.maxIterations);
    if merged.Some? {
      InvokeCompletes(g, FromInput(merged.value), envs);
    }
  }

  lemma InvokeCompletes(g: Topology, st: State, envs: seq<Env>)
    requires (g == FULL_GRAPH && st.iterationCount == 0 && st.maxIterations <= 5) || g == LIGHT_GRAPH
    requires |envs| >= 16 && forall i | 0 <= i < |envs| :: !envs[i].raises
    ensures Run(g, Next(g, Start, st), st, envs).Some?
  {
    if g == FULL_GRAPH {
      FullGraphOrder(st);
      RunTerminates(st, envs, 5);
    } else {
      var after := Apply(st, NodeDelta(Synthesizer, st, envs[0]));
      assert Next(g, Start, st) == Synthesizer && Next(g, Synthesizer, after) == End;
      RunContinues(g, Synthesizer, st, envs);
    }
  }

  /** No engine runs exactly when the intent is unclear; the light graph runs exactly for a reformat or a
      meta question in a session that has a snapshot and a coordinator that has the light graph. */
  lemma EngineExactly(cfg: Settings, basis: Option<StateBlob>, c: Classification)
    ensures Engine(cfg, basis, c) == None <==> Asks(cfg, c)
    ensures Engine(cfg, basis, c) == Some(LIGHT_GRAPH) <==>
      !Asks(cfg, c) && basis.Some? && cfg.hasLightGraph &&
      (c.intent == Reformat || c.intent == MetaQuestion)
    ensures Engine(cfg, basis, c).Some? ==> Engine(cfg, basis, c).value in {LIGHT_GRAPH, FULL_GRAPH}
  {
    RoutesExactly(c.intent, c.confidence, basis.Some?, cfg.threshold);
    assert Researcher in FULL_GRAPH.edges && Researcher !in LIGHT_GRAPH.edges;
  }

  /** Analysis, critique, verdict and gaps of a state are those of the snapshot, or of none. */
  predicate Resumes(st: State, basis: Option<StateBlob>) {
    if basis.Some? then
      && st.analysis == basis.value.analysis && st.critique == basis.value.critique
      && st.critiquePass == basis.value.critiquePass && st.gaps == basis.value.gaps
      && st.rawFindings == basis.value.rawFindings
    else st.analysis == "" && st.critique == "" && !st.critiquePass && st.gaps == [] && st.rawFindings == []
  }

  /** The blob keeps what the final state says. */
  predicate Keeps(blob: StateBlob, st: State) {
    && blob.query == st.query && blob.analysis == st.analysis && blob.critique == st.critique
    && blob.critiquePass == st.critiquePass && blob.gaps == st.gaps && blob.synthesis == st.synthesis
    && blob.iterationCount == st.iterationCount
  }

  /** A turn asks the new message with a full budget, keeps the previous synthesis until it has its own,
      and resumes the previous research unless it is a new query. Its snapshot keeps what the engine
      leaves, and its reply is what the synthesizer wrote last. */
  lemma TurnAnswers(cfg: Settings, basis: Option<StateBlob>, message: string, c: Classification, envs: seq<Env>)
    requires EngineTurn(cfg, basis, message, c, envs).Some?
    ensures var d := EngineTurn(cfg, basis, message, c, envs).value; var visits := d.record.visits; var n := |visits|;
      && 0 < n <= |envs|
      && visits[0].before.query == message && visits[0].before.iterationCount == 0
      && visits[0].before.maxIterations == cfg.maxIterations
      && visits[0].before.synthesis == (if basis.Some? then basis.value.synthesis else "")
      && Resumes(visits[0].before, if c.intent == NewQuery then None else basis)
      && Keeps(d.blob, visits[n - 1].after)
      && Written(d.text, envs[n - 1].synthesis)
  {
    EngineExactly(cfg, basis, c);
    var input := BuildEngineInput(basis, message, c.patch, c.intent);
    InvokeReturns(Engine(cfg, basis, c).value, input, cfg.maxIterations, envs);
  }

  lemma TurnInvokes(cfg: Settings, basis: Option<StateBlob>, message: string, c: Classification, envs: seq<Env>,
          g: Topology, input: EngineInput)
    requires EngineTurn(cfg, basis, message, c, envs).Some?
    requires Engine(cfg, basis, c) == Some(g) && input == BuildEngineInput(basis, message, c.patch, c.intent)
    ensures Invoke(g, input, cfg.maxIterations, envs).Some?
    ensures var d := EngineTurn(cfg, basis, message, c, envs).value;
      var x := Invoke(g, input, cfg.maxIterations, envs).value;
      d.record.visits == x.visits && Keeps(d.blob, x.Result())
  {
  }

  lemma LightTurnKeeps(cfg: Settings, basis: Option<StateBlob>, message: string, c: Classification, envs: seq<Env>)
    requires EngineTurn(cfg, basis, message, c, envs).Some? && Engine(cfg, basis, c) == Some(LIGHT_GRAPH)
    requires basis.Some? && c.intent != NewQuery
    ensures var d := EngineTurn(cfg, basis, message, c, envs).value;
      && d.blob.analysis == basis.value.analysis && d.blob.critique == basis.value.critique
      && d.blob.critiquePass == basis.value.critiquePass && d.blob.gaps == basis.value.gaps
  {
    var input := BuildEngineInput(basis, message, c.patch, c.intent);
    TurnInvokes(cfg, basis, message, c, envs, LIGHT_GRAPH, input);
    InvokeReturns(LIGHT_GRAPH, input, cfg.maxIterations, envs);
  }

  lemma FullTurnJudges(cfg: Settings, basis: Option<StateBlob>, message: string, c: Classification, envs: seq<Env>)
    requires EngineTurn(cfg, basis, message, c, envs).Some? && Engine(cfg, basis, c) == Some(FULL_GRAPH)
    ensures var d := EngineTurn(cfg, basis, message, c, envs).value; var n := |d.record.visits|;
      && 4 <= n <= |envs| && Written(d.blob.analysis, envs[n - 3].analysis)
      && Judged(d.record.visits[n - 1].after, envs[n - 2].critique)
  {
    var input := BuildEngineInput(basis, message, c.patch, c.intent);
    TurnInvokes(cfg, basis, message, c, envs, FULL_GRAPH, input);
    InvokeReturns(FULL_GRAPH, input, cfg.maxIterations, envs);
  }

  /** The light engine leaves analysis and judgement as they were; the full one returns those of its
      last pass. */
  lemma TurnJudges(cfg: Settings, basis: Option<StateBlob>, message: string, c: Classification, envs: seq<Env>)
    requires EngineTurn(cfg, basis, message, c, envs).Some?
    ensures var d := EngineTurn(cfg, basis, message, c, envs).value; var n := |d.record.visits|;
      if basis.Some? && cfg.hasLightGraph && (c.intent == Reformat || c.intent == MetaQuestion) then
        && d.blob.analysis == basis.value.analysis && d.blob.critique == basis.value.critique
        && d.blob.critiquePass == basis.value.critiquePass && d.blob.gaps == basis.value.gaps
      else
        && 4 <= n <= |envs| && Written(d.blob.analysis, envs[n - 3].analysis)
        && Judged(d.record.visits[n - 1].after, envs[n - 2].critique)
  {
    EngineExactly(cfg, basis, c);
    if Engine(cfg, basis, c) == Some(LIGHT_GRAPH) {
      LightTurnKeeps(cfg, basis, message, c, envs);
    } else {
      FullTurnJudges(cfg, basis, message, c, envs);
    }
  }
}
