/** `LangchainAgent.run` of langchain_agent.py: one model call that may ask
    for tools, the tools run in call order, then one streamed call whose
    non-empty chunks are yielded.  Any exception ends the run with one
    `[Agent Error: ...]` string.

    The second call's history is `messages[:-len(tool_messages)-1]`, which
    is the task message alone: the model's first answer and the tool
    results are never shown to it.  The module's tool
    `search_and_scrape_web` (langchain_agent.py:73-114) is the same code as
    that of tools.py and is modelled by `WebTools.SearchAndScrape`. */
module LangchainAgent {
  import opened Text
  import opened Messages

  /** The agent as `__init__` leaves it: the system message and the tools
      by name.  A model that cannot be set up ends the process there. */
  datatype Agent = Agent(systemMessage: string, toolMap: map<string, Tool>)

  /** The text of the `TypeError` raised when a tool call is not a
      dictionary; the text is Python's and is not part of this model. */
  const NotSubscriptable: string := "tool call is not subscriptable"

  function UnknownTool(name: string): string {
    "Tool '" + name + "' not found."
  }

  function AgentError(e: string): string {
    "\n[Agent Error: " + e + "]"
  }

  /** `_format_messages(task, history)`: the system message, the history,
      then the task. */
  function Format(agent: Agent, task: string, history: seq<Message>): (r: seq<Message>)
    ensures |r| == |history| + 2
    ensures r[0] == SystemMessage(agent.systemMessage) && r[1..|r| - 1] == history
    ensures r[|r| - 1] == HumanMessage(Plain(task))
  {
    [SystemMessage(agent.systemMessage)] + history + [HumanMessage(Plain(task))]
  }

  /** The content LangChain gives the tool message of a returned value:
      a string as it is, anything else as JSON or, failing that, `str()`. */
  function ToolContent(v: PyValue): string {
    match v
      case PyString(s) => s
      case PyObject(_, _, json, str) => if json.Some? then json.value else str
  }

  /** One tool call handled: its tool message, or the exception it raised
      (a missing key raises `KeyError`, whose text is the quoted key). */
  datatype Handled = Answered(message: Message) | Failed(detail: string)

  function HandleCall(agent: Agent, call: ToolCall): (h: Handled)
    ensures call.CallDict? && call.name.Some? && call.name.value !in agent.toolMap && call.id.Some? ==>
      h == Answered(ToolMessage(UnknownTool(call.name.value), Given(call.id.value)))
    ensures call.CallDict? && call.name.Some? && call.name.value !in agent.toolMap && call.id.None? ==>
      h == Failed("'id'")
    ensures call.CallDict? && call.name.None? ==> h == Failed("'name'")
    ensures h.Answered? ==> h.message.ToolMessage?
  {
    match call
      case NotDict(_) => Failed(NotSubscriptable)
      case CallDict(name, args, id, _) =>
        if name.None? then Failed("'name'")
        else if name.value in agent.toolMap then
          match agent.toolMap[name.value](if args.Some? then args.value else map[])
            case Returned(v) => Answered(ToolMessage(ToolContent(v), Given(if id.Some? then id.value else [])))
            case Raised(e) => Failed(e)
        else if id.None? then Failed("'id'")
        else Answered(ToolMessage(UnknownTool(name.value), Given(id.value)))
  }

  /** The tool loop: every call answered, or the first exception. */
  datatype ToolsOutcome = AllAnswered(messages: seq<Message>) | Aborted(detail: string)

  /** The `i`-th call raised `detail` and every call before it was answered. */
  predicate FirstFailure(agent: Agent, calls: seq<ToolCall>, i: int, detail: string) {
    0 <= i < |calls| && HandleCall(agent, calls[i]) == Failed(detail) &&
    forall j :: 0 <= j < i ==> HandleCall(agent, calls[j]).Answered?
  }

  function ToolPhase(agent: Agent, calls: seq<ToolCall>): (r: ToolsOutcome)
    ensures r.AllAnswered? ==> (|r.messages| == |calls| &&
      forall i :: 0 <= i < |calls| ==> HandleCall(agent, calls[i]) == Answered(r.messages[i]))
    ensures r.Aborted? ==> exists i :: FirstFailure(agent, calls, i, r.detail)
  {
    if calls == [] then AllAnswered([])
    else
      var init := calls[..|calls| - 1];
      var last := calls[|calls| - 1];
      match ToolPhase(agent, init)
        case Aborted(e) =>
          var i :| FirstFailure(agent, init, i, e);
          assert forall j :: 0 <= j < |init| ==> init[j] == calls[j];
          assert FirstFailure(agent, calls, i, e);
          Aborted(e)
        case AllAnswered(ms) =>
          match HandleCall(agent, last)
            case Failed(e) =>
              assert forall j :: 0 <= j < |init| ==> HandleCall(agent, calls[j]) == Answered(ms[j]) by {
                assert forall j :: 0 <= j < |init| ==> init[j] == calls[j];
              }
              assert FirstFailure(agent, calls, |init|, e);
              Aborted(e)
            case Answered(m) =>
              assert forall i :: 0 <= i < |init| ==> init[i] == calls[i];
              AllAnswered(ms + [m])
  }

  /** Once a call has raised, the later calls change nothing. */
  lemma {:induction false} AbortedStays(agent: Agent, calls: seq<ToolCall>, i: nat)
    requires i <= |calls| && ToolPhase(agent, calls[..i]).Aborted?
    ensures ToolPhase(agent, calls) == ToolPhase(agent, calls[..i])
    decreases |calls| - i
  {
    if i < |calls| {
      assert calls[..i + 1][..i] == calls[..i];
      AbortedStays(agent, calls, i + 1);
    } else {
      assert calls[..i] == calls;
    }
  }

  /** Calls naming tools the agent does not have, each with a name and an
      id, are all answered with the not-found message under their own id,
      in call order, and the run goes on. */
  lemma {:induction false} UnknownToolsAnswered(agent: Agent, calls: seq<ToolCall>)
    requires forall c :: c in calls ==> c.CallDict? && c.name.Some? && c.id.Some? && c.name.value !in agent.toolMap
    ensures ToolPhase(agent, calls).AllAnswered?
    ensures forall i :: 0 <= i < |calls| ==>
      ToolPhase(agent, calls).messages[i] == ToolMessage(UnknownTool(calls[i].name.value), Given(calls[i].id.value))
    decreases |calls|
  {
    if calls != [] {
      var init := calls[..|calls| - 1];
      assert forall c :: c in init ==> c in calls;
      UnknownToolsAnswered(agent, init);
      assert calls[|calls| - 1] in calls;
    }
  }

  /** What a streamed call yields: its non-empty chunks, then the error if
      the stream raised. */
  function StreamOut(r: Response): (out: seq<string>)
    ensures r.failure.None? ==> out == Streamed(r.chunks)
    ensures r.failure.Some? ==> out == Streamed(r.chunks) + [AgentError(r.failure.value)]
  {
    Streamed(r.chunks) + (if r.failure.Some? then [AgentError(r.failure.value)] else [])
  }

  /** The strings `run` yields.  Call 0 is the `invoke`, call 1 the stream. */
  function RunSpec(agent: Agent, llm: Llm, task: string): seq<string> {
    var first := llm(0, Format(agent, task, []));
    if first.failure.Some? then [AgentError(first.failure.value)]
    else if first.toolCalls == [] then StreamOut(llm(1, Format(agent, task, [])))
    else match ToolPhase(agent, first.toolCalls)
      case Aborted(e) => [AgentError(e)]
      case AllAnswered(_) => StreamOut(llm(1, Format(agent, task, [HumanMessage(Plain(task))])))
  }

  /** The tool loop of `run`: each call is handled in order, and the first
      one that raises ends the run. */
  method RunTools(agent: Agent, calls: seq<ToolCall>) returns (outcome: ToolsOutcome)
    ensures outcome == ToolPhase(agent, calls)
  {
    var toolMessages: seq<Message> := [];
    for i := 0 to |calls|
      invariant ToolPhase(agent, calls[..i]) == AllAnswered(toolMessages)
    {
      assert calls[..i + 1][..i] == calls[..i];
      var handled := HandleCall(agent, calls[i]);
      if handled.Failed? {
        AbortedStays(agent, calls, i + 1);
        assert calls[..|calls|] == calls;
        return Aborted(handled.detail);
      }
      toolMessages := toolMessages + [handled.message];
    }
    assert calls[..|calls|] == calls;
    return AllAnswered(toolMessages);
  }

  /** The `stream` loop of `run`: every non-empty AI chunk, then the error
      if the stream raised. */
  method StreamCall(r: Response) returns (out: seq<string>)
    ensures out == StreamOut(r)
  {
    out := [];
    for i := 0 to |r.chunks|
      invariant out == Streamed(r.chunks[..i])
    {
      AIContentsStep(r.chunks, i);
      var chunk := r.chunks[i];
      if chunk.AIChunk? && chunk.content != "" {
        out := out + [chunk.content];
      }
    }
    assert r.chunks[..|r.chunks|] == r.chunks;
    if r.failure.Some? {
      out := out + [AgentError(r.failure.value)];
    }
  }

  /** `LangchainAgent.run`, with the message list it keeps. */
  method Run(agent: Agent, llm: Llm, task: string) returns (out: seq<string>)
    ensures out == RunSpec(agent, llm, task)
  {
    var messages: seq<Message> := [HumanMessage(Plain(task))];
    var first := llm(0, [SystemMessage(agent.systemMessage)] + [] + [HumanMessage(Plain(task))]);
    if first.failure.Some? {
      return [AgentError(first.failure.value)];
    }
    messages := messages + [AIMessage(StreamText(first.chunks), first.toolCalls)];
    var second: Response;
    if first.toolCalls != [] {
      var outcome := RunTools(agent, first.toolCalls);
      if outcome.Aborted? {
        return [AgentError(outcome.detail)];
      }
      messages := messages + outcome.messages;
      var history := messages[..|messages| - |outcome.messages| - 1];
      assert history == [HumanMessage(Plain(task))];
      second := llm(1, Format(agent, task, history));
    } else {
      second := llm(1, Format(agent, task, []));
    }
    out := StreamCall(second);
  }

  // ---------------------------------------------------------------------
  // What a run promises

  /** Without tool calls the same request is sent again and streamed. */
  lemma {:induction false} DirectAnswerRepeatsRequest(agent: Agent, llm: Llm, task: string)
    requires llm(0, Format(agent, task, [])).failure.None?
    requires llm(0, Format(agent, task, [])).toolCalls == []
    ensures RunSpec(agent, llm, task) == StreamOut(llm(1, Format(agent, task, [])))
  {
  }

  /** After the tools ran, the streamed call is sent the system message and
      the task twice (once as history, once as the input), and neither the
      first answer nor any tool result: two agents with the same system
      message whose tools all answered yield the same strings, whatever
      their tools returned. */
  lemma {:induction false} ToolResultsNotSent(a: Agent, b: Agent, llm: Llm, task: string)
    requires a.systemMessage == b.systemMessage
    requires llm(0, Format(a, task, [])).failure.None?
    requires llm(0, Format(a, task, [])).toolCalls != []
    requires ToolPhase(a, llm(0, Format(a, task, [])).toolCalls).AllAnswered?
    requires ToolPhase(b, llm(0, Format(a, task, [])).toolCalls).AllAnswered?
    ensures RunSpec(a, llm, task) == RunSpec(b, llm, task)
    ensures RunSpec(a, llm, task) == StreamOut(llm(1, [SystemMessage(a.systemMessage), HumanMessage(Plain(task)), HumanMessage(Plain(task))]))
  {
    assert Format(a, task, []) == Format(b, task, []);
    assert Format(a, task, [HumanMessage(Plain(task))])
        == [SystemMessage(a.systemMessage), HumanMessage(Plain(task)), HumanMessage(Plain(task))];
  }

  /** An exception yields one error string and nothing else is yielded
      after it: every string but the last is a non-empty chunk of the
      streamed call. */
  lemma {:induction false} ErrorComesLast(agent: Agent, llm: Llm, task: string)
    ensures var out := RunSpec(agent, llm, task);
      forall i :: 0 <= i < |out| - 1 ==> out[i] != [] && out[i] in Streamed(llm(1, Format(agent, task, if llm(0, Format(agent, task, [])).toolCalls == [] then [] else [HumanMessage(Plain(task))])).chunks)
  {
  }
}
