/** The planning agent's tool-calling loop (planner_agent.py, `PlannerAgent`).

    `Run` is the generator `run`: it yields strings, grows the message list
    the model sees, and calls the model at most `maxIterations` times.  Its
    meaning is `RunSpec`, a definition by recursion over the iterations; the
    lemmas below say what that definition promises: how the message list
    grows, which prompt each model call receives, what is yielded and how
    the run ends. */
module PlannerAgent {
  import opened Text
  import opened Messages
  import opened AgentLoop

  /** The agent as `__init__` leaves it: the system prompt, the tools by
      name, the iteration bound, and whether the model could be set up
      (`llm_with_tools` is not `None`). */
  datatype Agent = Agent(systemMessage: string, toolMap: map<string, Tool>, maxIterations: int, llmReady: bool)

  const NotInitialized: string := "[Planner Agent Error: LLM not initialized. Cannot process task. Please check Ollama connection and model name.]"
  const EmptyStreamError: string := "\n[Planner Agent Error: LLM response stream was empty or invalid.]"
  const MissingName: string := "Error: Tool call missing name."
  const TruncationMark: string := "... [output truncated]"

  function MaxIterationsWarning(n: int): string {
    "\n[Planner Agent Warning: Reached maximum iterations (" + IntToString(n) + "). The plan might be incomplete or stuck.]"
  }

  function CrashNotice(e: string): string {
    "\n[Planner Agent Error: An unexpected error occurred during execution. Cannot continue. Details: " + e + "]"
  }

  function UnknownTool(name: string): string {
    "Error: Tool '" + name + "' not found or not active in agent."
  }

  function ToolFailed(name: string, e: string): string {
    "Error executing tool '" + name + "': " + e
  }

  function MalformedCall(repr: string): string {
    "Error: Agent received malformed tool call structure from LLM: " + repr
  }

  // ---------------------------------------------------------------------
  // _invoke_tool

  /** Tool output longer than 4000 characters keeps its first 3950 and is
      marked as truncated; shorter output is kept whole. */
  function Truncated(s: string): (r: string)
    ensures |r| <= 4000
    ensures |s| <= 4000 ==> r == s
    ensures |s| > 4000 ==> |r| == 3950 + |TruncationMark| && r[..3950] == s[..3950] && r[3950..] == TruncationMark
  {
    if |s| > 4000 then s[..3950] + TruncationMark else s
  }

  /** `_invoke_tool` for a well-formed call: a missing name or an unknown
      tool gives an error message and the tool is not consulted; otherwise
      the tool's `str()` output, truncated, or the exception message.  The
      answer always carries the call's own id. */
  function InvokeTool(agent: Agent, call: ToolCall): (m: Message)
    requires WellFormed(call)
    ensures m.ToolMessage? && m.callId == Given(call.id.value)
    ensures call.name.value == [] ==> m.text == MissingName
    ensures call.name.value != [] && call.name.value !in agent.toolMap ==> m.text == UnknownTool(call.name.value)
    ensures call.name.value in agent.toolMap && call.name.value != [] ==>
      match agent.toolMap[call.name.value](call.args.value)
        case Returned(v) => m.text == Truncated(PyStr(v))
        case Raised(e) => m.text == ToolFailed(call.name.value, e)
  {
    var name := call.name.value;
    var id := Given(call.id.value);
    if name == [] then ToolMessage(MissingName, id)
    else if name !in agent.toolMap then ToolMessage(UnknownTool(name), id)
    else match agent.toolMap[name](call.args.value)
      case Returned(v) => ToolMessage(Truncated(PyStr(v)), id)
      case Raised(e) => ToolMessage(ToolFailed(name, e), id)
  }

  /** The tool message one entry of `tool_calls` gets: the tool's answer
      for a well-formed call, an error naming the entry otherwise. */
  function ToolResult(agent: Agent, call: ToolCall): (m: Message)
    ensures m.ToolMessage?
    ensures call.CallDict? && call.id.Some? ==> m.callId == Given(call.id.value)
    ensures !WellFormed(call) ==> m.text == MalformedCall(call.repr)
  {
    if WellFormed(call) then InvokeTool(agent, call)
    else ToolMessage(MalformedCall(call.repr), MalformedId(call))
  }

  function ToolResults(agent: Agent, calls: seq<ToolCall>): (r: seq<Message>)
    ensures |r| == |calls|
  {
    seq(|calls|, i requires 0 <= i < |calls| => ToolResult(agent, calls[i]))
  }

  /** The loop over `tool_calls`: one tool message per call, in call order. */
  method InvokeAll(agent: Agent, calls: seq<ToolCall>) returns (toolMessages: seq<Message>)
    ensures |toolMessages| == |calls|
    ensures forall j :: 0 <= j < |calls| ==> toolMessages[j] == ToolResult(agent, calls[j])
  {
    toolMessages := [];
    for j := 0 to |calls|
      invariant |toolMessages| == j
      invariant forall k :: 0 <= k < j ==> toolMessages[k] == ToolResult(agent, calls[k])
    {
      var call := calls[j];
      var m: Message;
      if WellFormed(call) {
        m := InvokeTool(agent, call);
      } else {
        m := ToolMessage(MalformedCall(call.repr), MalformedId(call));
      }
      toolMessages := toolMessages + [m];
    }
  }

  // ---------------------------------------------------------------------
  // One iteration

  /** The `"\n"` yielded after a final answer that does not end in one. */
  function FinalNewline(text: string): (r: seq<string>)
    ensures r == ["\n"] <==> text != [] && !EndsWith(text, "\n")
    ensures r != ["\n"] ==> r == []
  {
    if text != [] && !EndsWith(text, "\n") then ["\n"] else []
  }

  /** What one model response does to the run: every non-empty chunk is
      streamed as it arrives; a failed stream ends the run with the crash
      notice, a stream without AI chunks with the empty-stream error, an
      answer without tool calls with the closing newline, and a request for
      tools appends the AI message and one tool message per call. */
  function Iterate(agent: Agent, r: Response): Turn {
    if r.failure.Some? then
      Turn(Streamed(r.chunks), [CrashNotice(r.failure.value)], [], Some(Crashed(r.failure.value)))
    else if AIContents(r.chunks) == [] then
      Turn(Streamed(r.chunks), [EmptyStreamError], [], Some(EmptyStream))
    else if r.toolCalls == [] then
      Turn(Streamed(r.chunks), FinalNewline(StreamText(r.chunks)), [AIMessage(StreamText(r.chunks), [])], Some(Answered))
    else
      Turn(Streamed(r.chunks), [], [AIMessage(StreamText(r.chunks), r.toolCalls)] + ToolResults(agent, r.toolCalls), None)
  }

  /** The prompt of each call: the system message, then the history. */
  function Prompt(agent: Agent, messages: seq<Message>): seq<Message> {
    [SystemMessage(agent.systemMessage)] + messages
  }

  /** The planner's instance of the shared loop. */
  function PlannerLoop(agent: Agent): Loop {
    Loop(r => Iterate(agent, r), m => Prompt(agent, m), agent.maxIterations,
         last => [MaxIterationsWarning(agent.maxIterations)])
  }

  /** An iteration goes on exactly when the stream did not fail, held an AI
      chunk, and the combined message asks for tools; it then appends the
      AI message and exactly one tool message per call, in call order, and
      streams every non-empty chunk, as every iteration does. */
  lemma {:induction false} IterateContinues(agent: Agent, r: Response)
    ensures Continues(PlannerLoop(agent), r) <==> r.failure.None? && AIContents(r.chunks) != [] && r.toolCalls != []
    ensures PlannerLoop(agent).step(r).pieces == Streamed(r.chunks)
    ensures Continues(PlannerLoop(agent), r) ==>
      var a := PlannerLoop(agent).step(r).appended;
      |a| == 1 + |r.toolCalls| && a[0] == AIMessage(StreamText(r.chunks), r.toolCalls) &&
      (forall j :: 0 <= j < |r.toolCalls| ==> a[1 + j] == ToolResult(agent, r.toolCalls[j]))
  {
    assert PlannerLoop(agent).step(r) == Iterate(agent, r);
  }

  /** How a stopping iteration ends the output: a failed stream with its
      crash notice after the pieces streamed before the failure, an empty
      stream with the error alone, and an answer with a newline exactly when
      its text is non-empty and does not end in one. */
  lemma {:induction false} IterateStops(agent: Agent, r: Response)
    ensures r.failure.Some? ==>
      PlannerLoop(agent).step(r).notice == [CrashNotice(r.failure.value)]
    ensures r.failure.None? && AIContents(r.chunks) == [] ==>
      PlannerLoop(agent).step(r).pieces == [] &&
      PlannerLoop(agent).step(r).notice == [EmptyStreamError] &&
      PlannerLoop(agent).step(r).appended == []
    ensures r.failure.None? && AIContents(r.chunks) != [] && r.toolCalls == [] ==>
      (PlannerLoop(agent).step(r).notice == ["\n"] <==>
         StreamText(r.chunks) != [] && !EndsWith(StreamText(r.chunks), "\n"))
  {
    assert PlannerLoop(agent).step(r) == Iterate(agent, r);
    if r.failure.None? && AIContents(r.chunks) == [] {
      EmptyStreamStreamsNothing(r.chunks);
    }
  }

  /** A stream without AI chunks streams nothing. */
  lemma {:induction false} EmptyStreamStreamsNothing(chunks: seq<Chunk>)
    requires AIContents(chunks) == []
    ensures Streamed(chunks) == []
  {
    if chunks != [] {
      assert chunks[0].OtherChunk?;
      assert AIContents(chunks[1..]) == [];
      EmptyStreamStreamsNothing(chunks[1..]);
    }
  }

  // ---------------------------------------------------------------------
  // The run

  /** The history a run starts from: the given history, then the task. */
  function Start(task: string, chatHistory: seq<Message>): seq<Message> {
    chatHistory + [HumanMessage(Plain(task))]
  }

  function RunSpec(agent: Agent, llm: Llm, task: string, chatHistory: seq<Message>): Trace {
    if !agent.llmReady then Trace([NotInitialized], [], [], NotStarted)
    else AgentLoop.Run(PlannerLoop(agent), llm, Start(task, chatHistory))
  }

  /** One pass of the loop body of `PlannerAgent.run` on the response to
      its call: what it yields, whether it leaves the loop, and the message
      list after it. */
  method IterateOnce(agent: Agent, response: Response, messages: seq<Message>)
    returns (stopped: bool, yielded: seq<string>, next: seq<Message>)
    ensures var turn := Iterate(agent, response);
      stopped == turn.stop.Some? &&
      yielded == (if stopped then turn.pieces + turn.notice else turn.pieces) &&
      next == messages + turn.appended
  {
    var aiCount, text, pieces := ConsumeStream(response.chunks);
    if response.failure.Some? {
      return true, pieces + [CrashNotice(response.failure.value)], messages;
    }
    if aiCount == 0 {
      EmptyStreamStreamsNothing(response.chunks);
      return true, [EmptyStreamError], messages;
    }
    next := messages + [AIMessage(text, response.toolCalls)];
    if response.toolCalls == [] {
      if text != "" && !EndsWith(text, "\n") {
        yielded := pieces + ["\n"];
      } else {
        yielded := pieces;
      }
      return true, yielded, next;
    }
    var toolMessages := InvokeAll(agent, response.toolCalls);
    assert toolMessages == ToolResults(agent, response.toolCalls);
    AppendAssoc(messages, [AIMessage(text, response.toolCalls)], toolMessages);
    return false, pieces, next + toolMessages;
  }

  /** `PlannerAgent.run`: the strings it yields, and the message list it
      leaves behind. */
  method Run(agent: Agent, llm: Llm, task: string, chatHistory: seq<Message>)
    returns (out: seq<string>, messages: seq<Message>)
    ensures out == RunSpec(agent, llm, task, chatHistory).out
    ensures messages == RunSpec(agent, llm, task, chatHistory).messages
  {
    if !agent.llmReady {
      return [NotInitialized], [];
    }
    ghost var loop := PlannerLoop(agent);
    messages := Start(task, chatHistory);
    out := [];
    var iteration: nat := 0;
    ghost var last: Option<Response> := None;
    while iteration < agent.maxIterations
      invariant RunSpec(agent, llm, task, chatHistory).out == out + RunFrom(loop, llm, iteration, messages, last).out
      invariant RunSpec(agent, llm, task, chatHistory).messages == RunFrom(loop, llm, iteration, messages, last).messages
      decreases agent.maxIterations - iteration
    {
      var response := llm(iteration, [SystemMessage(agent.systemMessage)] + messages);
      assert loop.prompt(messages) == [SystemMessage(agent.systemMessage)] + messages;
      assert loop.step(response) == Iterate(agent, response);
      var stopped, yielded, next := IterateOnce(agent, response, messages);
      if stopped {
        RunFromStop(loop, llm, iteration, messages, last);
        out, messages := out + yielded, next;
        return;
      }
      RunFromContinue(loop, llm, iteration, messages, last);
      AppendAssoc(out, yielded, RunFrom(loop, llm, iteration + 1, next, Some(response)).out);
      out, messages := out + yielded, next;
      iteration := iteration + 1;
      last := Some(response);
    }
    out := out + [MaxIterationsWarning(agent.maxIterations)];
  }

  // ---------------------------------------------------------------------
  // What a run promises

  /** If the model could not be set up, the run yields exactly one error
      string and never calls the model. */
  lemma {:induction false} NotReadyYieldsOneError(agent: Agent, llm: Llm, task: string, chatHistory: seq<Message>)
    requires !agent.llmReady
    ensures RunSpec(agent, llm, task, chatHistory).out == [NotInitialized]
    ensures RunSpec(agent, llm, task, chatHistory).responses == []
  {
  }

  /** A run of a ready planner: at most `maxIterations` model calls, the
      `k`-th prompted with the system message, the given history, the task,
      and everything appended by the first `k` responses; the final list is
      that start followed by all that was appended; every response but the
      last asked for tools; the output is every non-empty chunk of every
      response in call order, then exactly one closing notice: the
      max-iterations warning when every response asked for tools, otherwise
      what the last response yields after its chunks. */
  lemma {:induction false} RunTrace(agent: Agent, llm: Llm, task: string, chatHistory: seq<Message>)
    requires agent.llmReady
    ensures var t := RunSpec(agent, llm, task, chatHistory);
      t.responses == [] || |t.responses| <= agent.maxIterations
    ensures var t := RunSpec(agent, llm, task, chatHistory);
      t.messages == Start(task, chatHistory) + Exchange(PlannerLoop(agent), t.responses)
    ensures var t := RunSpec(agent, llm, task, chatHistory);
      forall k :: 0 <= k < |t.responses| ==>
        t.responses[k] == llm(k, Prompt(agent, Start(task, chatHistory) + Exchange(PlannerLoop(agent), t.responses[..k])))
    ensures var t := RunSpec(agent, llm, task, chatHistory);
      forall k :: 0 <= k < |t.responses| - 1 ==> Continues(PlannerLoop(agent), t.responses[k])
    ensures var t := RunSpec(agent, llm, task, chatHistory);
      t.ending == Exhausted ==>
        t.out == Pieces(PlannerLoop(agent), t.responses) + [MaxIterationsWarning(agent.maxIterations)]
    ensures var t := RunSpec(agent, llm, task, chatHistory);
      t.ending != Exhausted ==> StoppedBy(PlannerLoop(agent), t)
  {
    var loop := PlannerLoop(agent);
    var start := Start(task, chatHistory);
    var t := AgentLoop.Run(loop, llm, start);
    assert RunSpec(agent, llm, task, chatHistory) == t;
    AgentLoop.RunTrace(loop, llm, start);
    forall k | 0 <= k < |t.responses|
      ensures t.responses[k] == llm(k, Prompt(agent, start + Exchange(loop, t.responses[..k])))
    {
      assert loop.prompt(start + Exchange(loop, t.responses[..k])) == Prompt(agent, start + Exchange(loop, t.responses[..k]));
    }
    assert loop.exhausted(LastOf(t.responses, None)) == [MaxIterationsWarning(agent.maxIterations)];
  }
}
