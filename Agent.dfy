/** The tool-calling agent of index.js: the `toolNode` dispatch step, the
    `shouldContinue` routing decision, and the graph that loops
    llmCall -> tools -> llmCall until the model answers without asking
    for tools. The language model and the tools themselves are abstract:
    the model is an oracle from the message history to a reply, each tool
    a function from its arguments to an observation or a thrown error. */
module Agent {
  import opened Outcomes

  datatype Role = System | User | Assistant | ToolRole

  /** A tool invocation requested by the model; `args` is the argument
      record the model supplied, in serialised form. */
  datatype ToolCall = ToolCall(id: string, name: string, args: string)

  /** A conversation message. `toolCalls` is empty for every message
      that carries none (an absent `tool_calls` behaves the same way in
      the code, which only looks at its length); `toolCallId` is set on
      tool results only. */
  datatype Message = Message(role: Role, content: string, toolCalls: seq<ToolCall>, toolCallId: Option<string>)

  function UserMessage(content: string): Message { Message(User, content, [], None) }
  function AssistantMessage(content: string): Message { Message(Assistant, content, [], None) }
  function SystemMessage(content: string): Message { Message(System, content, [], None) }
  function ToolMessage(content: string, id: string): Message { Message(ToolRole, content, [], Some(id)) }

  /** What a tool's `_call` does with its arguments. */
  datatype ToolOutcome = Returned(observation: string) | Threw(message: string)

  type Tool = string -> ToolOutcome

  /** `toolsByName`: tool name to tool. */
  type Registry = map<string, Tool>

  /** `lastMessage?.tool_calls`, empty when there is no last message. */
  function LastToolCalls(messages: seq<Message>): seq<ToolCall>
  {
    if |messages| == 0 then [] else messages[|messages| - 1].toolCalls
  }

  // ---------------------------------------------------------------------
  // toolNode
  // ---------------------------------------------------------------------

  /** The content of the result message for a registered tool. */
  function ResultContent(outcome: ToolOutcome): string
  {
    match outcome
    case Returned(observation) => observation
    case Threw(message) => "Error: " + message
  }

  /** What one tool call adds to `results`: one message carrying the
      call's id when the tool is registered, nothing otherwise. */
  function ResultFor(call: ToolCall, tools: Registry): seq<Message>
  {
    if call.name in tools then [ToolMessage(ResultContent(tools[call.name](call.args)), call.id)] else []
  }

  /** The results of processing `calls` in order. */
  function ToolResults(calls: seq<ToolCall>, tools: Registry): seq<Message>
  {
    if |calls| == 0 then []
    else ToolResults(calls[..|calls| - 1], tools) + ResultFor(calls[|calls| - 1], tools)
  }

  /** The calls whose tool name is registered, in call order. */
  function Registered(calls: seq<ToolCall>, tools: Registry): (r: seq<ToolCall>)
    ensures forall k :: 0 <= k < |r| ==> r[k].name in tools
  {
    if |calls| == 0 then []
    else
      var init := Registered(calls[..|calls| - 1], tools);
      if calls[|calls| - 1].name in tools then init + [calls[|calls| - 1]] else init
  }

  /** The dispatch step: walk the last message's tool calls and collect
      one result per registered tool, an "Error: ..." result when the
      tool throws. */
  method ToolNode(messages: seq<Message>, tools: Registry) returns (results: seq<Message>)
    ensures results == ToolResults(LastToolCalls(messages), tools)
  {
    results := [];
    var calls := LastToolCalls(messages);
    if |calls| > 0 {
      for i := 0 to |calls|
        invariant results == ToolResults(calls[..i], tools)
      {
        var call := calls[i];
        assert calls[..i + 1][..i] == calls[..i];
        if call.name in tools {
          var outcome := tools[call.name](call.args);
          match outcome {
            case Returned(observation) =>
              results := results + [ToolMessage(observation, call.id)];
            case Threw(message) =>
              results := results + [ToolMessage("Error: " + message, call.id)];
          }
        }
      }
      assert calls[..|calls|] == calls;
    }
  }

  /** Processing a list of calls is processing its two halves one after
      the other: a call, whether it succeeds, throws or is unknown, never
      stops the calls after it. */
  lemma {:induction false} ToolResultsAppend(a: seq<ToolCall>, b: seq<ToolCall>, tools: Registry)
    ensures ToolResults(a + b, tools) == ToolResults(a, tools) + ToolResults(b, tools)
    decreases |b|
  {
    if |b| > 0 {
      var b' := b[..|b| - 1];
      ToolResultsAppend(a, b', tools);
      assert (a + b)[..|a + b| - 1] == a + b';
      assert (a + b)[|a + b| - 1] == b[|b| - 1];
    } else {
      assert a + b == a;
    }
  }

  /** The results are exactly one tool message per registered call, in
      call order, each carrying that call's id and either the observation
      or "Error: " and the thrown message. */
  lemma {:induction false} ToolResultsExact(calls: seq<ToolCall>, tools: Registry)
    ensures var r, reg := ToolResults(calls, tools), Registered(calls, tools);
      |r| == |reg| <= |calls| &&
      forall k :: 0 <= k < |r| ==>
        r[k] == ToolMessage(ResultContent(tools[reg[k].name](reg[k].args)), reg[k].id)
    decreases |calls|
  {
    if |calls| > 0 {
      ToolResultsExact(calls[..|calls| - 1], tools);
    }
  }

  /** When every requested tool is registered, result k answers call k. */
  lemma AllRegisteredResults(calls: seq<ToolCall>, tools: Registry)
    requires forall k :: 0 <= k < |calls| ==> calls[k].name in tools
    ensures |ToolResults(calls, tools)| == |calls|
    ensures forall k :: 0 <= k < |calls| ==>
      ToolResults(calls, tools)[k].toolCallId == Some(calls[k].id) &&
      ToolResults(calls, tools)[k].role == ToolRole
  {
    RegisteredAll(calls, tools);
    ToolResultsExact(calls, tools);
  }

  lemma {:induction false} RegisteredAll(calls: seq<ToolCall>, tools: Registry)
    requires forall k :: 0 <= k < |calls| ==> calls[k].name in tools
    ensures Registered(calls, tools) == calls
    decreases |calls|
  {
    if |calls| > 0 {
      RegisteredAll(calls[..|calls| - 1], tools);
      assert calls[..|calls| - 1] + [calls[|calls| - 1]] == calls;
    }
  }

  /** Calls to unregistered tools produce no result at all. */
  lemma {:induction false} UnregisteredDropped(calls: seq<ToolCall>, tools: Registry)
    requires forall k :: 0 <= k < |calls| ==> calls[k].name !in tools
    ensures ToolResults(calls, tools) == []
    decreases |calls|
  {
    if |calls| > 0 {
      UnregisteredDropped(calls[..|calls| - 1], tools);
    }
  }

  /** A tool that throws yields an "Error: " result with the call's id in
      its place, and the calls after it are processed as usual. */
  lemma ThrowingToolRecovered(calls: seq<ToolCall>, i: nat, tools: Registry, message: string)
    requires i < |calls| && calls[i].name in tools
    requires tools[calls[i].name](calls[i].args) == Threw(message)
    ensures ToolResults(calls, tools) ==
      ToolResults(calls[..i], tools) + [ToolMessage("Error: " + message, calls[i].id)] + ToolResults(calls[i + 1..], tools)
  {
    assert calls == calls[..i] + ([calls[i]] + calls[i + 1..]);
    ToolResultsAppend(calls[..i], [calls[i]] + calls[i + 1..], tools);
    ToolResultsAppend([calls[i]], calls[i + 1..], tools);
    assert ToolResults([calls[i]], tools) == ToolResults([], tools) + ResultFor(calls[i], tools);
  }

  // ---------------------------------------------------------------------
  // Routing and the graph
  // ---------------------------------------------------------------------

  /** The graph's nodes; `End` is "__end__". */
  datatype Node = LlmCall | Tools | End

  /** `shouldContinue`: "tools" when the last message asks for at least
      one tool, "__end__" otherwise (also on an empty history). */
  function ShouldContinue(messages: seq<Message>): (next: Node)
    ensures next != LlmCall
    ensures next == Tools <==> |messages| > 0 && |messages[|messages| - 1].toolCalls| > 0
    ensures |messages| == 0 ==> next == End
  {
    if |LastToolCalls(messages)| > 0 then Tools else End
  }

  /** What the language model answers: text and possibly tool calls. */
  datatype LlmReply = LlmReply(content: string, toolCalls: seq<ToolCall>)

  /** The model, as an oracle on the messages it is shown. */
  type Llm = seq<Message> -> LlmReply

  /** The fixed system instruction `llmCall` puts before the history. */
  const Instruction: string :=
    "You are a phone assistant for a customer voice service company. Your role is to help users with queries related to their orders\n"
    + "                        Keep your answers short, friendly, and concise. Prefer one-line responses when possible.\n"
    + "                        Provide order information by reading from tempOrderDetails.txt. Do not make API calls.\n"
    + "                        When sharing order details, mention the user's name only in the first response. Use \"you\" or \"your\" in following messages.\n"
    + "                        Avoid repeating the phrase \"order summary\" unless the user explicitly asks for it.\n"
    + "                        Maintain a polite and helpful tone throughout the conversation."

  /** `llmCall`: the model sees the instruction and then the history; its
      reply becomes one assistant message. */
  function CallModel(messages: seq<Message>, llm: Llm): (m: Message)
    ensures m.role == Assistant && m.toolCallId == None
    ensures var reply := llm([SystemMessage(Instruction)] + messages);
      m.content == reply.content && m.toolCalls == reply.toolCalls
  {
    var reply := llm([SystemMessage(Instruction)] + messages);
    Message(Assistant, reply.content, reply.toolCalls, None)
  }

  /** The graph's state: the node about to run and the message list,
      which every node extends (the messages channel appends). */
  datatype AgentState = AgentState(node: Node, messages: seq<Message>)

  /** One node execution, following the edges llmCall -(shouldContinue)->
      tools | __end__ and tools -> llmCall. */
  function Step(s: AgentState, llm: Llm, tools: Registry): (t: AgentState)
    requires s.node != End
    ensures |t.messages| > |s.messages| || s.node == Tools
    ensures |t.messages| >= |s.messages| && t.messages[..|s.messages|] == s.messages
    ensures s.node == Tools ==> t.node == LlmCall
    ensures s.node == LlmCall ==> t.node == ShouldContinue(t.messages) && t.messages[|s.messages|].role == Assistant
    ensures s.node == LlmCall ==> t.messages == s.messages + [CallModel(s.messages, llm)]
    ensures s.node == Tools ==> t.messages == s.messages + ToolResults(LastToolCalls(s.messages), tools)
  {
    match s.node
    case LlmCall =>
      var ms := s.messages + [CallModel(s.messages, llm)];
      AgentState(ShouldContinue(ms), ms)
    case Tools =>
      AgentState(LlmCall, s.messages + ToolResults(LastToolCalls(s.messages), tools))
  }

  /** Run the graph until `__end__`, for at most `fuel` node executions
      (the graph runtime's step limit); `None` when the limit is reached
      first, which the runtime reports as an error. */
  function Run(s: AgentState, llm: Llm, tools: Registry, fuel: nat): (r: Option<AgentState>)
    ensures r.Some? ==> r.value.node == End
    ensures r.Some? ==> |r.value.messages| >= |s.messages| && r.value.messages[..|s.messages|] == s.messages
    decreases fuel
  {
    if s.node == End then Some(s)
    else if fuel == 0 then None
    else Run(Step(s, llm, tools), llm, tools, fuel - 1)
  }

  /** What holds in every state the graph reaches: the tools node runs
      only when the last message asks for tools, and the end is reached
      only after an assistant message that asks for none. */
  ghost predicate Consistent(s: AgentState)
  {
    && (s.node == Tools ==> |s.messages| > 0 && |LastToolCalls(s.messages)| > 0)
    && (s.node == End ==>
          |s.messages| > 0 && ShouldContinue(s.messages) == End &&
          s.messages[|s.messages| - 1].role == Assistant)
  }

  /** A step keeps the state consistent, only appends messages, and after
      the tools node the model is always called again. */
  lemma StepConsistent(s: AgentState, llm: Llm, tools: Registry)
    requires s.node != End && Consistent(s)
    ensures Consistent(Step(s, llm, tools))
    ensures |Step(s, llm, tools).messages| >= |s.messages|
    ensures Step(s, llm, tools).messages[..|s.messages|] == s.messages
    ensures s.node == Tools ==> Step(s, llm, tools).node == LlmCall
    ensures s.node == LlmCall ==> |Step(s, llm, tools).messages| == |s.messages| + 1
  {
  }

  /** A run that finishes ends in a consistent `__end__` state whose
      messages extend the ones it started from. */
  lemma {:induction false} RunFinishes(s: AgentState, llm: Llm, tools: Registry, fuel: nat)
    requires Consistent(s) && Run(s, llm, tools, fuel).Some?
    ensures var t := Run(s, llm, tools, fuel).value;
      t.node == End && Consistent(t) &&
      |t.messages| >= |s.messages| && t.messages[..|s.messages|] == s.messages &&
      (s.node == LlmCall ==> |t.messages| > |s.messages|)
    decreases fuel
  {
    if s.node != End {
      var s' := Step(s, llm, tools);
      StepConsistent(s, llm, tools);
      RunFinishes(s', llm, tools, fuel - 1);
      var t := Run(s, llm, tools, fuel).value;
      assert t.messages[..|s'.messages|][..|s.messages|] == t.messages[..|s.messages|];
    }
  }

  /** A larger step limit never changes a run that already finished. */
  lemma {:induction false} RunMoreFuel(s: AgentState, llm: Llm, tools: Registry, fuel: nat, more: nat)
    requires Run(s, llm, tools, fuel).Some? && fuel <= more
    ensures Run(s, llm, tools, more) == Run(s, llm, tools, fuel)
    decreases fuel
  {
    if s.node != End {
      RunMoreFuel(Step(s, llm, tools), llm, tools, fuel - 1, more - 1);
    }
  }

  /** `agent.invoke({ messages })`: start at llmCall and return the
      final message list. The input history is kept, at least the model's
      answer is added, and the last message is an assistant message that
      asks for no tools, so its content is the answer. */
  function Invoke(messages: seq<Message>, llm: Llm, tools: Registry, fuel: nat): (r: Option<seq<Message>>)
    ensures r.Some? ==>
      |r.value| > |messages| && r.value[..|messages|] == messages &&
      r.value[|r.value| - 1].role == Assistant && r.value[|r.value| - 1].toolCalls == []
  {
    var s := AgentState(LlmCall, messages);
    match Run(s, llm, tools, fuel)
    case None => None
    case Some(t) =>
      RunFinishes(s, llm, tools, fuel);
      Some(t.messages)
  }

  /** When the model answers straight away without tools, one model call
      is the whole run and its reply is the answer. */
  lemma DirectAnswer(messages: seq<Message>, llm: Llm, tools: Registry, fuel: nat)
    requires fuel >= 1
    requires llm([SystemMessage(Instruction)] + messages).toolCalls == []
    ensures Invoke(messages, llm, tools, fuel) == Some(messages + [CallModel(messages, llm)])
  {
    var s := AgentState(LlmCall, messages);
    var s' := Step(s, llm, tools);
    assert s'.node == End && s'.messages == messages + [CallModel(messages, llm)];
    assert Run(s, llm, tools, fuel) == Run(s', llm, tools, fuel - 1) == Some(s');
  }
}
