/** One turn of the documentation assistant: a four-node state graph over the
    conversation state. Intent analysis always runs first; the router then
    sends the turn either to retrieval followed by reply composition, or to the
    clarification request. Each node returns only the keys it sets, and the
    graph merges them into the state. The language model and the retriever
    are left abstract as services that return a value or fail. */
module ConversationGraph {
  import opened PyStr

  datatype Option<T> = None | Some(value: T)

  /** The keys of the conversation state that a node may write. `question`
      and `history` are not among them: no node can return them. */
  datatype Field = IntentField | ContextField | ResponseField

  /** ConversationState. A key the state does not hold yet is `None`. */
  datatype State = State(
    question: string,
    intent: Option<string>,
    context: Option<string>,
    response: Option<string>,
    history: seq<string>)

  /** The partial dictionary a node returns. */
  type Update = map<Field, string>

  function Get(s: State, f: Field): Option<string> {
    match f
    case IntentField => s.intent
    case ContextField => s.context
    case ResponseField => s.response
  }

  /** The state a turn starts from: `{"question": question, "history": history}`. */
  function Initial(question: string, history: seq<string>): (s: State)
    ensures s.question == question && s.history == history
    ensures forall f :: Get(s, f) == None
  {
    State(question, None, None, None, history)
  }

  /** The graph's merge of a node's partial update into the state: the keys
      of the update are overwritten, every other key keeps its value. */
  function Merge(s: State, u: Update): (r: State)
    ensures r.question == s.question && r.history == s.history
    ensures forall f :: Get(r, f) == if f in u then Some(u[f]) else Get(s, f)
  {
    State(
      s.question,
      if IntentField in u then Some(u[IntentField]) else s.intent,
      if ContextField in u then Some(u[ContextField]) else s.context,
      if ResponseField in u then Some(u[ResponseField]) else s.response,
      s.history)
  }

  // ---------------------------------------------------------------------------
  // The services a turn consults

  /** The variables a prompt chain is invoked with; the rendered template
      itself is part of the model. */
  datatype ModelRequest =
    | ClassifyIntent(question: string, history: string)
    | ComposeAnswer(question: string, context: string, history: string)

  /** What invoking a prompt|model|parser chain gave: its text, or any exception. */
  datatype Generation = Generated(text: string) | Failed

  /** What the retriever gave: the page contents of the documents, in its order, or an exception. */
  datatype Retrieval = Passages(contents: seq<string>) | RetrievalFailed

  datatype Services = Services(model: ModelRequest -> Generation, retriever: string -> Retrieval)

  // ---------------------------------------------------------------------------
  // Constants of the nodes and the router

  const Unclear := "unclear"
  const Apology := "Lo sentimos, hemos tenido un problema interno al generar la respuesta. Por favor, intenta de nuevo."
  const Clarification := "No estoy seguro de cómo ayudarte con eso. ¿Podrías reformular tu pregunta o darme más detalles?"
  const PassageSeparator := "\n\n---\n\n"
  /** The intents the router sends to retrieval (an exact, case-sensitive match). */
  const RetrievalIntents := ["general_question", "code_question", "follow_up"]
  const ToRetrieval := "retrieve_context"
  const ToClarification := "clarify_question"

  /** `"\n".join(state['history'])`, the form in which both prompts see the history. */
  function FlattenHistory(history: seq<string>): string {
    Join("\n", history)
  }

  /** The prompts lose nothing of a history whose entries hold no '\n': its
      entries can be read back, in order, line by line. */
  lemma FlattenHistoryReadBack(history: seq<string>)
    requires history != [] && forall k :: 0 <= k < |history| ==> '\n' !in history[k]
    ensures Split(FlattenHistory(history), '\n') == history
  {
    assert "\n" == ['\n'];
    SplitJoin(history, '\n');
  }

  // ---------------------------------------------------------------------------
  // The four nodes

  /** _analyze_intent: the trimmed classification, or "unclear" when the chain fails. */
  function AnalyzeIntent(s: State, model: ModelRequest -> Generation): (u: Update)
    ensures u.Keys == {IntentField}
    ensures var g := model(ClassifyIntent(s.question, FlattenHistory(s.history)));
      u[IntentField] == if g.Generated? then Strip(g.text) else Unclear
    ensures Strip(u[IntentField]) == u[IntentField]
  {
    match model(ClassifyIntent(s.question, FlattenHistory(s.history)))
    case Generated(text) =>
      StripIdempotent(text);
      map[IntentField := Strip(text)]
    case Failed =>
      assert Strip(Unclear) == Unclear by { StripOfContent(Unclear); }
      map[IntentField := Unclear]
  }

  /** The result of a node: its partial update, or the exception it lets escape. */
  datatype NodeResult = Returned(update: Update) | Raised

  /** _retrieve_context: the passages joined by the separator; a retriever
      failure is not caught. */
  function RetrieveContext(s: State, retriever: string -> Retrieval): (r: NodeResult)
    ensures r.Raised? <==> retriever(s.question).RetrievalFailed?
    ensures r.Returned? ==>
      r.update.Keys == {ContextField} && r.update[ContextField] == Join(PassageSeparator, retriever(s.question).contents)
  {
    match retriever(s.question)
    case Passages(contents) => Returned(map[ContextField := Join(PassageSeparator, contents)])
    case RetrievalFailed => Raised
  }

  /** _compose_reply: the model's text unchanged, or the apology when anything
      in the `try` fails, reading a missing `context` included. */
  function ComposeReply(s: State, model: ModelRequest -> Generation): (u: Update)
    ensures u.Keys == {ResponseField}
    ensures s.context.None? ==> u[ResponseField] == Apology
    ensures s.context.Some? ==>
      var g := model(ComposeAnswer(s.question, s.context.value, FlattenHistory(s.history)));
      u[ResponseField] == if g.Generated? then g.text else Apology
  {
    if s.context.None? then map[ResponseField := Apology]
    else
      match model(ComposeAnswer(s.question, s.context.value, FlattenHistory(s.history)))
      case Generated(text) => map[ResponseField := text]
      case Failed => map[ResponseField := Apology]
  }

  /** _generate_clarification_response: consults no service. */
  function GenerateClarificationResponse(s: State): (u: Update)
    ensures u.Keys == {ResponseField} && u[ResponseField] == Clarification
  {
    map[ResponseField := Clarification]
  }

  /** _route_by_intent: reads the intent (a missing one raises, so it is required). */
  function RouteByIntent(s: State): (key: string)
    requires s.intent.Some?
    ensures key == ToRetrieval <==> s.intent.value in RetrievalIntents
    ensures key == ToClarification <==> s.intent.value !in RetrievalIntents
  {
    if s.intent.value in RetrievalIntents then ToRetrieval else ToClarification
  }

  // ---------------------------------------------------------------------------
  // The topology of build_graph

  datatype Node = Analyze | Retrieve | Compose | Clarify

  /** The key each node returns. */
  function Writes(n: Node): Field {
    match n
    case Analyze => IntentField
    case Retrieve => ContextField
    case Compose | Clarify => ResponseField
  }

  const Entry := Analyze

  /** Where an edge leads: a node, or END. */
  datatype Target = Goto(node: Node) | Finish

  /** The path map of the conditional edges out of analyze_intent. */
  const Branches: map<string, Node> := map[ToRetrieval := Retrieve, ToClarification := Clarify]

  /** The unconditional edges. */
  const Edges: map<Node, Target> := map[Retrieve := Goto(Compose), Compose := Finish, Clarify := Finish]

  /** A node's height above END; every edge goes down, so the graph has no cycle. */
  function Rank(n: Node): nat {
    match n
    case Analyze => 2
    case Retrieve => 1
    case Compose | Clarify => 0
  }

  /** The transition out of node `n` in state `s` (after `n`'s update is merged). */
  function Next(n: Node, s: State): (t: Target)
    requires n == Analyze ==> s.intent.Some?
    ensures t.Goto? ==> Rank(t.node) < Rank(n)
    ensures t.Finish? <==> Writes(n) == ResponseField
  {
    if n == Analyze then Goto(Branches[RouteByIntent(s)]) else Edges[n]
  }

  /** The node handlers, as registered with add_node. */
  function Execute(n: Node, s: State, svc: Services): (r: NodeResult)
    ensures n != Retrieve ==> r.Returned?
    ensures r.Returned? ==> r.update.Keys == {Writes(n)}
  {
    match n
    case Analyze => Returned(AnalyzeIntent(s, svc.model))
    case Retrieve => RetrieveContext(s, svc.retriever)
    case Compose => Returned(ComposeReply(s, svc.model))
    case Clarify => Returned(GenerateClarificationResponse(s))
  }

  /** A finished turn with the nodes it ran, or an escaped exception with
      the nodes started, the raising one last. */
  datatype TurnResult = Completed(final: State, trace: seq<Node>) | Aborted(trace: seq<Node>)

  /** The result of a run with node `n` put in front of its trace. */
  function Prepend(n: Node, r: TurnResult): (r': TurnResult)
    requires r.trace != []
    ensures r'.Completed? == r.Completed? && r'.trace == [n] + r.trace
    ensures r'.trace[|r'.trace| - 1] == r.trace[|r.trace| - 1]
    ensures r.Completed? ==> r'.final == r.final
  {
    match r
    case Completed(final, trace) => Completed(final, [n] + trace)
    case Aborted(trace) => Aborted([n] + trace)
  }

  /** The graph's invoke from node `n`: run it, merge its update, follow the edge. */
  function Run(n: Node, s: State, svc: Services): (r: TurnResult)
    decreases Rank(n)
    ensures r.trace != [] && r.trace[0] == n
    ensures r.Completed? ==> r.final.question == s.question && r.final.history == s.history
    ensures r.Completed? ==> r.final.response.Some? && Writes(r.trace[|r.trace| - 1]) == ResponseField
    ensures r.Aborted? ==> r.trace[|r.trace| - 1] == Retrieve
  {
    match Execute(n, s, svc)
    case Raised => Aborted([n])
    case Returned(u) =>
      var s' := Merge(s, u);
      assert n == Analyze ==> s'.intent.Some? by { assert Get(s', Writes(n)) == Some(u[Writes(n)]); }
      match Next(n, s')
      case Finish =>
        assert Get(s', ResponseField) == Some(u[ResponseField]);
        Completed(s', [n])
      case Goto(m) => Prepend(n, Run(m, s', svc))
  }

  /** app.invoke(initial_state). */
  function RunTurn(question: string, history: seq<string>, svc: Services): (r: TurnResult)
    ensures r.Completed? ==> r.final.question == question && r.final.history == history
    ensures r.Completed? ==> r.final.response.Some?
  {
    Run(Entry, Initial(question, history), svc)
  }

  // ---------------------------------------------------------------------------
  // Properties of a turn

  /** The intent the analysis of a turn settles on. */
  function TurnIntent(question: string, history: seq<string>, model: ModelRequest -> Generation): string {
    AnalyzeIntent(Initial(question, history), model)[IntentField]
  }

  /** The reply composed from `context` on the retrieval path. */
  function ComposedReply(question: string, context: string, history: seq<string>, model: ModelRequest -> Generation): string {
    ComposeReply(State(question, None, Some(context), None, history), model)[ResponseField]
  }

  /** The router sends exactly the three retrieval intents, spelled exactly,
      to retrieval; everything else, "unclear" included, to clarification. */
  lemma RouteByIntentCases(s: State)
    requires s.intent.Some?
    ensures RouteByIntent(s) in Branches
    ensures Branches[RouteByIntent(s)] == Retrieve <==>
      s.intent.value == "general_question" || s.intent.value == "code_question" || s.intent.value == "follow_up"
    ensures s.intent.value == Unclear ==> Branches[RouteByIntent(s)] == Clarify
  {
  }

  /** The state after intent analysis. */
  function Analysed(question: string, history: seq<string>, model: ModelRequest -> Generation): (s: State)
    ensures s == State(question, Some(TurnIntent(question, history, model)), None, None, history)
  {
    var s0 := Initial(question, history);
    Merge(s0, AnalyzeIntent(s0, model))
  }

  lemma RunFromCompose(s: State, svc: Services)
    ensures Run(Compose, s, svc) == Completed(Merge(s, ComposeReply(s, svc.model)), [Compose])
  {
  }

  lemma RunFromClarify(s: State, svc: Services)
    ensures Run(Clarify, s, svc) == Completed(Merge(s, GenerateClarificationResponse(s)), [Clarify])
  {
  }

  lemma RunFromRetrieve(s: State, svc: Services)
    ensures svc.retriever(s.question).RetrievalFailed? ==> Run(Retrieve, s, svc) == Aborted([Retrieve])
    ensures svc.retriever(s.question).Passages? ==>
      var s2 := Merge(s, map[ContextField := Join(PassageSeparator, svc.retriever(s.question).contents)]);
      Run(Retrieve, s, svc) == Completed(Merge(s2, ComposeReply(s2, svc.model)), [Retrieve, Compose])
  {
    if svc.retriever(s.question).Passages? {
      var s2 := Merge(s, map[ContextField := Join(PassageSeparator, svc.retriever(s.question).contents)]);
      assert Execute(Retrieve, s, svc) == Returned(map[ContextField := Join(PassageSeparator, svc.retriever(s.question).contents)]);
      assert Next(Retrieve, s2) == Goto(Compose);
      RunFromCompose(s2, svc);
    }
  }

  lemma RunFromEntry(question: string, history: seq<string>, svc: Services)
    ensures var s1 := Analysed(question, history, svc.model);
      var rest := Run(Branches[RouteByIntent(s1)], s1, svc);
      RunTurn(question, history, svc)
        == if rest.Completed? then Completed(rest.final, [Analyze] + rest.trace) else Aborted([Analyze] + rest.trace)
  {
    var s0 := Initial(question, history);
    var s1 := Analysed(question, history, svc.model);
    assert Execute(Analyze, s0, svc) == Returned(AnalyzeIntent(s0, svc.model));
    assert Next(Analyze, s1) == Goto(Branches[RouteByIntent(s1)]);
  }

  /** The two shapes of a turn: analysis, retrieval and composition, or
      analysis and clarification; the turn aborts only when it took the
      retrieval path and the retriever failed. */
  lemma TurnTopology(question: string, history: seq<string>, svc: Services)
    ensures var r := RunTurn(question, history, svc);
      if TurnIntent(question, history, svc.model) in RetrievalIntents then
        if svc.retriever(question).RetrievalFailed? then r == Aborted([Analyze, Retrieve])
        else r.Completed? && r.trace == [Analyze, Retrieve, Compose]
      else r.Completed? && r.trace == [Analyze, Clarify]
  {
    var s1 := Analysed(question, history, svc.model);
    RunFromEntry(question, history, svc);
    if TurnIntent(question, history, svc.model) in RetrievalIntents {
      assert Branches[RouteByIntent(s1)] == Retrieve;
      RunFromRetrieve(s1, svc);
    } else {
      assert Branches[RouteByIntent(s1)] == Clarify;
      RunFromClarify(s1, svc);
    }
  }

  /** What a completed turn leaves in the state: the analysed intent; a
      context exactly on the retrieval path, holding the passages joined in the
      retriever's order; and the response of the one terminal node that ran. */
  lemma TurnFinalState(question: string, history: seq<string>, svc: Services)
    ensures var r := RunTurn(question, history, svc);
      r.Completed? ==> r.final.intent == Some(TurnIntent(question, history, svc.model))
    ensures var r := RunTurn(question, history, svc);
      r.Completed? && TurnIntent(question, history, svc.model) in RetrievalIntents ==>
        var context := Join(PassageSeparator, svc.retriever(question).contents);
        r.final.context == Some(context)
        && r.final.response == Some(ComposedReply(question, context, history, svc.model))
    ensures var r := RunTurn(question, history, svc);
      r.Completed? && TurnIntent(question, history, svc.model) !in RetrievalIntents ==>
        r.final.context == None && r.final.response == Some(Clarification)
  {
    var s1 := Analysed(question, history, svc.model);
    RunFromEntry(question, history, svc);
    RunFromRetrieve(s1, svc);
    RunFromClarify(s1, svc);
    if svc.retriever(question).Passages? {
      var context := Join(PassageSeparator, svc.retriever(question).contents);
      var s2 := Merge(s1, map[ContextField := context]);
      assert s2 == State(question, s1.intent, Some(context), None, history);
    }
  }

  /** Only the retriever can abort a turn. */
  lemma TurnCompletesUnlessRetrievalFails(question: string, history: seq<string>, svc: Services)
    requires svc.retriever(question).Passages?
    ensures RunTurn(question, history, svc).Completed?
  {
    TurnTopology(question, history, svc);
  }

  /** The three traces a turn can have run no node twice, and in each only the
      last node writes `response`, except the aborted one, which none does. */
  lemma TraceShapes(t: seq<Node>)
    requires t == [Analyze, Retrieve, Compose] || t == [Analyze, Retrieve] || t == [Analyze, Clarify]
    ensures forall i, j :: 0 <= i < j < |t| ==> t[i] != t[j]
    ensures t != [Analyze, Retrieve] ==> forall k :: 0 <= k < |t| ==> (Writes(t[k]) == ResponseField <==> k == |t| - 1)
  {
  }

  /** A turn runs each node at most once, and only its last node sets the response. */
  lemma TurnRunsNodesOnce(question: string, history: seq<string>, svc: Services)
    ensures var t := RunTurn(question, history, svc).trace;
      forall i, j :: 0 <= i < j < |t| ==> t[i] != t[j]
    ensures var r := RunTurn(question, history, svc);
      r.Completed? ==> forall k :: 0 <= k < |r.trace| ==> (Writes(r.trace[k]) == ResponseField <==> k == |r.trace| - 1)
  {
    TurnTopology(question, history, svc);
    TraceShapes(RunTurn(question, history, svc).trace);
  }

  /** A turn whose intent analysis fails asks for clarification and never
      consults the retriever, so it cannot abort. */
  lemma FailedAnalysisAsksForClarification(question: string, history: seq<string>, svc: Services)
    requires svc.model(ClassifyIntent(question, FlattenHistory(history))) == Failed
    ensures RunTurn(question, history, svc)
      == Completed(State(question, Some(Unclear), None, Some(Clarification), history), [Analyze, Clarify])
  {
    TurnTopology(question, history, svc);
    TurnFinalState(question, history, svc);
  }

  /** An answer the model fails to compose becomes the apology, and the turn still completes. */
  lemma FailedCompositionApologises(question: string, history: seq<string>, svc: Services)
    requires TurnIntent(question, history, svc.model) in RetrievalIntents
    requires svc.retriever(question).Passages?
    requires svc.model(ComposeAnswer(question, Join(PassageSeparator, svc.retriever(question).contents), FlattenHistory(history))) == Failed
    ensures RunTurn(question, history, svc).Completed?
    ensures RunTurn(question, history, svc).final.response == Some(Apology)
  {
    TurnTopology(question, history, svc);
    TurnFinalState(question, history, svc);
  }

  /** An intent with a trailing newline, as a model may print it, strips to the bare intent. */
  lemma StripTrailingNewline(word: string)
    requires word != [] && !IsWhitespace(word[0]) && !IsWhitespace(word[|word| - 1])
    ensures Strip(word + "\n") == word
  {
    var t := word + "\n";
    assert StripStart(t) == 0;
    assert t[..|t| - 1] == word;
    StripOfContent(word);
    assert StripEnd(t) == |word|;
  }

  /** A classifier that prints a bare label on a line of its own gives that label as the intent. */
  lemma LabelLineIsIntent(question: string, history: seq<string>, model: ModelRequest -> Generation, word: string)
    requires word != [] && !IsWhitespace(word[0]) && !IsWhitespace(word[|word| - 1])
    requires model(ClassifyIntent(question, FlattenHistory(history))) == Generated(word + "\n")
    ensures TurnIntent(question, history, model) == word
  {
    StripTrailingNewline(word);
  }

  /** "What is LangChain?" with no history, classified as a general question:
      the passages become the context and the model's answer from that
      context is the response. */
  lemma GeneralQuestionIsAnsweredFromContext(svc: Services, passages: seq<string>, answer: string)
    requires svc.model(ClassifyIntent("What is LangChain?", "")) == Generated("general_question\n")
    requires svc.retriever("What is LangChain?") == Passages(passages)
    requires svc.model(ComposeAnswer("What is LangChain?", Join(PassageSeparator, passages), "")) == Generated(answer)
    ensures RunTurn("What is LangChain?", [], svc) == Completed(
      State("What is LangChain?", Some("general_question"), Some(Join(PassageSeparator, passages)), Some(answer), []),
      [Analyze, Retrieve, Compose])
  {
    var q := "What is LangChain?";
    var context := Join(PassageSeparator, passages);
    assert FlattenHistory([]) == "";
    LabelLineIsIntent(q, [], svc.model, "general_question");
    assert "general_question" in RetrievalIntents;
    assert ComposedReply(q, context, [], svc.model) == answer;
    TurnTopology(q, [], svc);
    TurnFinalState(q, [], svc);
    var r := RunTurn(q, [], svc);
    assert r.final.question == q && r.final.history == [];
  }

  /** The intent match is case-sensitive: a word in another case asks for clarification. */
  lemma RouteIsCaseSensitive()
    ensures Branches[RouteByIntent(State("q", Some("General_Question"), None, None, []))] == Clarify
  {
    assert "General_Question" != "general_question";
  }
}
