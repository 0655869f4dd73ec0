/**
 * The demo interview graph (`cv_agent`): a linear chain
 *   question_1 -> comment_1 -> question_2 -> comment_2 -> END
 * over a `MessagesState`, whose reducer appends each node's returned messages.
 *
 * The answers the two `interrupt` calls resume with, and the chat model, are
 * opaque inputs: the model is a function from the prompt it is given to the
 * content of its reply.
 */
module DemoAgent {
  import opened Wrappers
  import opened Engine

  datatype Message =
    | SystemMessage(content: string)
    | HumanMessage(content: string)
    | AiMessage(content: string)

  /** `AgentState(MessagesState, total=False)` with its optional `birthdate`. */
  datatype DemoState = DemoState(messages: seq<Message>, birthdate: Option<string>)

  datatype Node = Question1 | Comment1 | Question2 | Comment2

  const AllNodes: set<Node> := {Question1, Comment1, Question2, Comment2}

  /** The order the edges chain the nodes in. */
  const Chain: seq<Node> := [Question1, Comment1, Question2, Comment2]

  /** Resume values for the two interrupts and the configured chat model. */
  datatype Inputs = Inputs(answer1: string, answer2: string, model: seq<Message> -> string)

  /** The background prompt of `comment_1`, as formatted from its template. */
  const DinosaurPrompt := SystemMessage("\n    Provide some facts about the dinosaur the user indicated. \n    ")

  /** The background prompt of `comment_2`, as formatted from its template. */
  const FoodPrompt := SystemMessage("\n    Provide some facts about the food the user indicated. \n    ")

  /** The `StateModifier` preprocessor of `wrap_model`: the system prompt
      followed by the conversation so far. */
  function WrapModel(systemPrompt: Message, messages: seq<Message>): (prompt: seq<Message>)
    ensures |prompt| == |messages| + 1
    ensures prompt[0] == systemPrompt
    ensures prompt[1..] == messages
  {
    [systemPrompt] + messages
  }

  /** The `messages` each node returns: one message, from the human for the
      question nodes and from the model for the comment nodes. */
  function NodeMessages(inp: Inputs, n: Node, s: DemoState): (added: seq<Message>)
    ensures |added| == 1
    ensures added[0].HumanMessage? <==> n == Question1 || n == Question2
    ensures added[0].AiMessage? <==> n == Comment1 || n == Comment2
  {
    match n
    case Question1 => [HumanMessage(inp.answer1)]
    case Comment1 => [AiMessage(inp.model(WrapModel(DinosaurPrompt, s.messages)))]
    case Question2 => [HumanMessage(inp.answer2)]
    case Comment2 => [AiMessage(inp.model(WrapModel(FoodPrompt, s.messages)))]
  }

  /** The `add_messages` reducer for freshly created messages: append. */
  function AddMessages(s: DemoState, added: seq<Message>): DemoState {
    s.(messages := s.messages + added)
  }

  /** Run node `n` and reduce its update into the state. */
  function Invoke(inp: Inputs, n: Node, s: DemoState): DemoState {
    AddMessages(s, NodeMessages(inp, n, s))
  }

  /** The outgoing rule of each node: only unconditional edges, and only
      `comment_2` leads to END. */
  function Rules(n: Node): (r: Rule<Node, DemoState>)
    ensures r.Edge?
    ensures r.to == End <==> n == Comment2
  {
    match n
    case Question1 => Edge(Goto(Comment1))
    case Comment1 => Edge(Goto(Question2))
    case Question2 => Edge(Goto(Comment2))
    case Comment2 => Edge(End)
  }

  /** The compiled demo graph for the given opaque inputs. */
  function DemoGraph(inp: Inputs): Graph<Node, DemoState> {
    Graph(AllNodes, Question1, Rules, (n, s) => Invoke(inp, n, s))
  }

  /** The edges form one linear chain from the entry point to END: each node
      of the chain goes to the next and the last goes to END; there is no
      conditional edge. */
  lemma LinearChain(inp: Inputs)
    ensures DemoGraph(inp).entry == Chain[0]
    ensures forall n :: Rules(n).Edge?
    ensures forall i :: 0 <= i < |Chain| - 1 ==> Rules(Chain[i]) == Edge(Goto(Chain[i + 1]))
    ensures Rules(Chain[|Chain| - 1]) == Edge(End)
    ensures (set i | 0 <= i < |Chain| :: Chain[i]) == AllNodes
    ensures WellFormed(DemoGraph(inp))
  {
    assert Chain[0] == Question1 && Chain[1] == Comment1 && Chain[2] == Question2 && Chain[3] == Comment2;
  }

  /** Each node returns exactly one message: a Human message carrying the
      interrupt answer, whatever the state, or an AI message carrying the
      model's reply to the system prompt followed by the conversation. */
  lemma NodeMessagesShape(inp: Inputs, n: Node, s: DemoState, t: DemoState)
    ensures |NodeMessages(inp, n, s)| == 1
    ensures n == Question1 ==> NodeMessages(inp, n, s) == NodeMessages(inp, n, t) == [HumanMessage(inp.answer1)]
    ensures n == Question2 ==> NodeMessages(inp, n, s) == NodeMessages(inp, n, t) == [HumanMessage(inp.answer2)]
    ensures n == Comment1 ==> NodeMessages(inp, n, s) == [AiMessage(inp.model([DinosaurPrompt] + s.messages))]
    ensures n == Comment2 ==> NodeMessages(inp, n, s) == [AiMessage(inp.model([FoodPrompt] + s.messages))]
  {
  }

  /** The four messages a full run appends. */
  function Transcript(inp: Inputs, history: seq<Message>): (added: seq<Message>)
    ensures |added| == 4
    ensures forall i :: 0 <= i < 4 ==> (added[i].HumanMessage? <==> i % 2 == 0)
    ensures forall i :: 0 <= i < 4 ==> (added[i].AiMessage? <==> i % 2 == 1)
  {
    var q1 := HumanMessage(inp.answer1);
    var c1 := AiMessage(inp.model([DinosaurPrompt] + history + [q1]));
    var q2 := HumanMessage(inp.answer2);
    var c2 := AiMessage(inp.model([FoodPrompt] + history + [q1, c1, q2]));
    [q1, c1, q2, c2]
  }

  /** Every run with enough fuel visits the four nodes in chain order, then
      stops; it appends exactly the transcript, alternating Human and AI
      messages, each reply computed on everything said before it; `birthdate`
      is untouched. */
  lemma DemoRun(inp: Inputs, s: DemoState, fuel: nat)
    requires fuel >= 4
    ensures Run(DemoGraph(inp), s, fuel)
      == Finished(Chain, s.(messages := s.messages + Transcript(inp, s.messages)))
  {
    var g := DemoGraph(inp);
    var t := Transcript(inp, s.messages);
    var s1 := AddMessages(s, t[..1]);
    var s2 := AddMessages(s, t[..2]);
    var s3 := AddMessages(s, t[..3]);
    var s4 := AddMessages(s, t);
    assert g.invoke(Question1, s) == Invoke(inp, Question1, s) == s1;
    assert g.invoke(Comment1, s1) == Invoke(inp, Comment1, s1);
    assert t[..1] == [HumanMessage(inp.answer1)];
    assert [DinosaurPrompt] + s1.messages == [DinosaurPrompt] + s.messages + t[..1];
    assert s.messages + t[..1] + [t[1]] == s.messages + t[..2];
    assert g.invoke(Comment1, s1) == s2;
    assert g.invoke(Question2, s2) == Invoke(inp, Question2, s2);
    assert s.messages + t[..2] + [t[2]] == s.messages + t[..3];
    assert g.invoke(Question2, s2) == s3;
    assert g.invoke(Comment2, s3) == Invoke(inp, Comment2, s3);
    assert t[..3] == [t[0], t[1], t[2]];
    assert [FoodPrompt] + s3.messages == [FoodPrompt] + s.messages + [t[0], t[1], t[2]];
    assert s.messages + t[..3] + [t[3]] == s.messages + t;
    assert g.invoke(Comment2, s3) == s4;
    assert Exec(g, Comment2, s3, fuel - 3) == Finished([Comment2], s4);
    assert Exec(g, Question2, s2, fuel - 2) == Finished([Question2, Comment2], s4);
    assert Exec(g, Comment1, s1, fuel - 1) == Finished([Comment1, Question2, Comment2], s4);
  }
}
