/** The search agent's tool-calling loop (optimized_langchain_agent.py,
    `OptimizedLangchainAgent`).

    Unlike the planner it streams nothing while tools are being called: only
    the iteration that needs no tools yields its chunks, after its stream is
    consumed.  Reaching the bound yields the last iteration's text with a
    warning, or an error when that text is empty.

    The prompt the code builds repeats the history from the second
    iteration on (`PromptAsWritten`), and `Run` sends that prompt.  The
    prompt the code's comments describe, the system message followed by
    the history once, is `Prompt`; `CorrectedLoop` is the loop with it. */
module OptimizedAgent {
  import opened Text
  import opened Messages
  import opened AgentLoop

  /** The agent as `__init__` leaves it.  A model that cannot be set up ends
      the process in `__init__`, so a constructed agent always has one. */
  datatype Agent = Agent(systemMessage: string, toolMap: map<string, Tool>, optimizationsEnabled: bool, maxIterations: int)

  const MissingName: string := "Error: Tool call missing name."
  const EfficiencyMark: string := "... [truncated for efficiency]"
  const EmptyStreamError: string := "[Agent Error: LLM response stream was empty or did not contain AI message chunks]"

  /** The message of the `UnboundLocalError` raised when the loop ran no
      iteration and `full_response_content` was never assigned. */
  const UnboundDetail: string := "cannot access local variable 'full_response_content' where it is not associated with a value"

  function UnknownTool(name: string): string {
    "Error: Tool '" + name + "' not found."
  }

  function ToolFailed(name: string, e: string): string {
    "Error executing tool '" + name + "': " + e
  }

  function MalformedCall(repr: string): string {
    "Error: Received malformed tool call from LLM: " + repr
  }

  function CrashNotice(e: string): string {
    "\n[Agent Error: An unexpected error occurred during execution. Details: " + e + "]"
  }

  function MaxIterationsWarning(n: int): string {
    "\n[Agent Warning: Reached maximum iterations (" + IntToString(n) + "). The response might be incomplete or waiting for tool results.]"
  }

  function NoAnswerError(n: int): string {
    "[Agent Error: Reached maximum iterations (" + IntToString(n) + ") without a final answer or text response. The last step might have been tool calls.]"
  }

  // ---------------------------------------------------------------------
  // _invoke_tool

  /** The text of a tool's result: a string as it is; a dict or list as
      indented JSON; anything else as JSON; `str()` when JSON fails. */
  function Serialise(v: PyValue): (r: string)
    ensures v.PyString? ==> r == v.s
    ensures v.PyObject? && v.isDictOrList && v.indentedJson.Some? ==> r == v.indentedJson.value
    ensures v.PyObject? && !v.isDictOrList && v.json.Some? ==> r == v.json.value
    ensures v.PyObject? && (if v.isDictOrList then v.indentedJson.None? else v.json.None?) ==> r == PyStr(v)
  {
    match v
      case PyString(s) => s
      case PyObject(isDictOrList, indented, compact, str) =>
        var rendered := if isDictOrList then indented else compact;
        if rendered.Some? then rendered.value else str
  }

  /** With optimizations on, output over 1500 characters keeps its first
      1500 and is marked; otherwise it is kept whole. */
  function Shortened(enabled: bool, s: string): (r: string)
    ensures !enabled || |s| <= 1500 ==> r == s
    ensures enabled ==> |r| <= 1500 + |EfficiencyMark|
    ensures enabled && |s| > 1500 ==>
      |r| == 1500 + |EfficiencyMark| && r[..1500] == s[..1500] && r[1500..] == EfficiencyMark
  {
    if enabled && |s| > 1500 then s[..1500] + EfficiencyMark else s
  }

  /** A falsy id is replaced by a fresh one before anything else. */
  function EffectiveId(id: string): (r: CallId)
    ensures r.Given? <==> id != []
    ensures r.Given? ==> r.id == id
  {
    if id == [] then Fresh("tool_call_") else Given(id)
  }

  /** `_invoke_tool` for a well-formed call. */
  function InvokeTool(agent: Agent, call: ToolCall): (m: Message)
    requires WellFormed(call)
    ensures m.ToolMessage? && m.callId == EffectiveId(call.id.value)
    ensures call.name.value == [] ==> m.text == MissingName
    ensures call.name.value != [] && call.name.value !in agent.toolMap ==> m.text == UnknownTool(call.name.value)
    ensures call.name.value in agent.toolMap && call.name.value != [] ==>
      match agent.toolMap[call.name.value](call.args.value)
        case Returned(v) => m.text == Shortened(agent.optimizationsEnabled, Serialise(v))
        case Raised(e) => m.text == ToolFailed(call.name.value, e)
  {
    var name := call.name.value;
    var id := EffectiveId(call.id.value);
    if name == [] then ToolMessage(MissingName, id)
    else if name !in agent.toolMap then ToolMessage(UnknownTool(name), id)
    else match agent.toolMap[name](call.args.value)
      case Returned(v) => ToolMessage(Shortened(agent.optimizationsEnabled, Serialise(v)), id)
      case Raised(e) => ToolMessage(ToolFailed(name, e), id)
  }

  /** The tool message one entry of `tool_calls` gets. */
  function ToolResult(agent: Agent, call: ToolCall): (m: Message)
    ensures m.ToolMessage?
    ensures WellFormed(call) ==> m.callId == EffectiveId(call.id.value)
    ensures !WellFormed(call) ==> m.text == MalformedCall(call.repr) && m.callId == MalformedId(call)
  {
    if WellFormed(call) then InvokeTool(agent, call)
    else ToolMessage(MalformedCall(call.repr), MalformedId(call))
  }

  function ToolResults(agent: Agent, calls: seq<ToolCall>): (r: seq<Message>)
    ensures |r| == |calls|
  {
    seq(|calls|, i requires 0 <= i < |calls| => ToolResult(agent, calls[i]))
  }

  /** The loop over `tool_calls`: one tool message per call, in call order,
      malformed calls included. */
  method InvokeAll(agent: Agent, calls: seq<ToolCall>) returns (toolMessages: seq<Message>)
    ensures |toolMessages| == |calls|
    ensures forall j :: 0 <= j < |calls| ==> toolMessages[j] == ToolResult(agent, calls[j])
  {
    toolMessages := [];
    for j := 0 to |calls|
      invariant |toolMessages| == j
      invariant forall k :: 0 <= k < j ==> toolMessages[k] == ToolResult(agent, calls[k])
    {
      var call := calls[j];
      var m: Message;
      if WellFormed(call) {
        m := InvokeTool(agent, call);
      } else {
        m := ToolMessage(MalformedCall(call.repr), MalformedId(call));
      }
      toolMessages := toolMessages + [m];
    }
  }

  // ---------------------------------------------------------------------
  // The prompt

  /** The prompt as the code builds it: the template filled with all
      messages but the last, followed by all messages. */
  function PromptAsWritten(agent: Agent, messages: seq<Message>): seq<Message> {
    [SystemMessage(agent.systemMessage)] + (if messages == [] then [] else messages[..|messages| - 1]) + messages
  }

  /** The prompt as intended: the system message, then each message once. */
  function Prompt(agent: Agent, messages: seq<Message>): (r: seq<Message>)
    ensures |r| == |messages| + 1 && r[0] == SystemMessage(agent.systemMessage) && r[1..] == messages
  {
    [SystemMessage(agent.systemMessage)] + messages
  }

  // ---------------------------------------------------------------------
  // One iteration and the bound

  /** What one model response does: a failed or empty stream ends the run
      with its error and nothing streamed; an answer without tool calls
      yields its non-empty chunks; a request for tools yields nothing and
      appends the AI message and one tool message per call. */
  function Iterate(agent: Agent, r: Response): Turn {
    if r.failure.Some? then
      Turn([], [CrashNotice(r.failure.value)], [], Some(Crashed(r.failure.value)))
    else if AIContents(r.chunks) == [] then
      Turn([], [EmptyStreamError], [], Some(EmptyStream))
    else if r.toolCalls == [] then
      Turn(Streamed(r.chunks), [], [AIMessage(StreamText(r.chunks), [])], Some(Answered))
    else
      Turn([], [], [AIMessage(StreamText(r.chunks), r.toolCalls)] + ToolResults(agent, r.toolCalls), None)
  }

  /** What reaching the bound yields, given the last iteration's response:
      its text and the warning, or the error when its text is empty; with
      no iteration at all the unassigned text variable raises. */
  function ExhaustedOutput(agent: Agent, last: Option<Response>): seq<string> {
    match last
      case None => [CrashNotice(UnboundDetail)]
      case Some(r) =>
        if StreamText(r.chunks) != [] then [StreamText(r.chunks), MaxIterationsWarning(agent.maxIterations)]
        else [NoAnswerError(agent.maxIterations)]
  }

  /** The loop as the code runs it, with the repeating prompt. */
  function OptimizedLoop(agent: Agent): Loop {
    Loop(r => Iterate(agent, r), m => PromptAsWritten(agent, m), agent.maxIterations, last => ExhaustedOutput(agent, last))
  }

  /** The same loop with the intended prompt. */
  function CorrectedLoop(agent: Agent): Loop {
    OptimizedLoop(agent).(prompt := m => Prompt(agent, m))
  }

  /** Tool-calling iterations yield nothing; an iteration goes on exactly
      when its stream did not fail, held an AI chunk and asks for tools, and
      then appends the AI message and one tool message per call. */
  lemma {:induction false} IterateContinues(agent: Agent, r: Response)
    ensures Continues(OptimizedLoop(agent), r) <==> r.failure.None? && AIContents(r.chunks) != [] && r.toolCalls != []
    ensures Continues(OptimizedLoop(agent), r) ==>
      var t := OptimizedLoop(agent).step(r);
      t.pieces == [] && t.notice == [] &&
      |t.appended| == 1 + |r.toolCalls| && t.appended[0] == AIMessage(StreamText(r.chunks), r.toolCalls) &&
      (forall j :: 0 <= j < |r.toolCalls| ==> t.appended[1 + j] == ToolResult(agent, r.toolCalls[j]))
  {
    assert OptimizedLoop(agent).step(r) == Iterate(agent, r);
  }

  /** An iteration that keeps the loop going streams nothing. */
  lemma {:induction false} ContinuingStreamsNothing(agent: Agent, r: Response)
    requires Continues(OptimizedLoop(agent), r)
    ensures OptimizedLoop(agent).step(r).pieces == []
  {
    IterateContinues(agent, r);
  }

  /** Only the final answer is streamed, and then all its non-empty chunks. */
  lemma {:induction false} IterateStreams(agent: Agent, r: Response)
    ensures OptimizedLoop(agent).step(r).pieces != [] ==> r.failure.None? && r.toolCalls == []
    ensures r.failure.None? && AIContents(r.chunks) != [] && r.toolCalls == [] ==>
      OptimizedLoop(agent).step(r).pieces == Streamed(r.chunks) &&
      OptimizedLoop(agent).step(r).notice == []
  {
    assert OptimizedLoop(agent).step(r) == Iterate(agent, r);
  }

  // ---------------------------------------------------------------------
  // The run

  function RunSpec(agent: Agent, llm: Llm, task: string): Trace {
    AgentLoop.Run(OptimizedLoop(agent), llm, [HumanMessage(Plain(task))])
  }

  /** `OptimizedLangchainAgent.run` (the loop; folder clearing is not part
      of this model): the strings it yields and the final message list. */
  method Run(agent: Agent, llm: Llm, task: string) returns (out: seq<string>, messages: seq<Message>)
    ensures out == RunSpec(agent, llm, task).out
    ensures messages == RunSpec(agent, llm, task).messages
  {
    ghost var loop := OptimizedLoop(agent);
    messages := [HumanMessage(Plain(task))];
    out := [];
    var fullResponseContent: Option<string> := None;
    var iteration: nat := 0;
    ghost var last: Option<Response> := None;
    while iteration < agent.maxIterations
      invariant RunSpec(agent, llm, task).out == RunFrom(loop, llm, iteration, messages, last).out
      invariant RunSpec(agent, llm, task).messages == RunFrom(loop, llm, iteration, messages, last).messages
      invariant last.None? <==> fullResponseContent.None?
      invariant last.Some? ==> fullResponseContent.value == StreamText(last.value.chunks)
      decreases agent.maxIterations - iteration
    {
      var response := llm(iteration, PromptAsWritten(agent, messages));
      assert loop.prompt(messages) == PromptAsWritten(agent, messages);
      ghost var before := messages;
      ghost var turn := loop.step(response);
      assert turn == Iterate(agent, response);
      var aiCount, text, pieces := ConsumeStream(response.chunks);
      fullResponseContent := Some(text);
      if response.failure.Some? {
        RunFromStop(loop, llm, iteration, messages, last);
        assert turn.pieces + turn.notice == [CrashNotice(response.failure.value)];
        out := [CrashNotice(response.failure.value)];
        return;
      }
      if aiCount == 0 {
        RunFromStop(loop, llm, iteration, messages, last);
        assert turn.pieces + turn.notice == [EmptyStreamError];
        out := [EmptyStreamError];
        return;
      }
      messages := messages + [AIMessage(text, response.toolCalls)];
      if response.toolCalls == [] {
        RunFromStop(loop, llm, iteration, before, last);
        assert turn.pieces + turn.notice == pieces;
        out := pieces;
        return;
      }
      var toolMessages := InvokeAll(agent, response.toolCalls);
      assert toolMessages == ToolResults(agent, response.toolCalls);
      RunFromContinue(loop, llm, iteration, before, last);
      assert turn.pieces == [] && [] + RunFrom(loop, llm, iteration + 1, before + turn.appended, Some(response)).out
        == RunFrom(loop, llm, iteration + 1, before + turn.appended, Some(response)).out;
      AppendAssoc(before, [AIMessage(text, response.toolCalls)], toolMessages);
      messages := messages + toolMessages;
      iteration := iteration + 1;
      last := Some(response);
    }
    RunFromDone(loop, llm, iteration, messages, last);
    assert loop.exhausted(last) == ExhaustedOutput(agent, last);
    match fullResponseContent
    case None =>
      out := [CrashNotice(UnboundDetail)];
    case Some(content) =>
      if content != "" {
        out := [content, MaxIterationsWarning(agent.maxIterations)];
      } else {
        out := [NoAnswerError(agent.maxIterations)];
      }
  }

  // ---------------------------------------------------------------------
  // What a run promises

  /** When only the last response may stop the loop and tool-calling
      iterations stream nothing, the streamed pieces of a run are those of
      its last response alone. */
  lemma {:induction false} OnlyLastStreams(agent: Agent, rs: seq<Response>)
    requires forall k :: 0 <= k < |rs| - 1 ==> Continues(OptimizedLoop(agent), rs[k])
    ensures Pieces(OptimizedLoop(agent), rs) == if rs == [] then [] else OptimizedLoop(agent).step(rs[|rs| - 1]).pieces
    decreases |rs|
  {
    if |rs| > 1 {
      var loop := OptimizedLoop(agent);
      var init := rs[..|rs| - 1];
      assert forall k :: 0 <= k < |init| - 1 ==> init[k] == rs[k];
      OnlyLastStreams(agent, init);
      ContinuingStreamsNothing(agent, init[|init| - 1]);
      assert Pieces(loop, init) == [];
      assert Pieces(loop, rs) == Pieces(loop, init) + loop.step(rs[|rs| - 1]).pieces;
    } else if |rs| == 1 {
      assert rs[..0] == [];
    }
  }

  /** A run: the list starts as the task alone and ends as the task
      followed by what the iterations appended; at most `maxIterations`
      calls, each prompted as the code builds the prompt from the list so
      far, which repeats every message but the last. */
  lemma {:induction false} RunTrace(agent: Agent, llm: Llm, task: string)
    ensures var t := RunSpec(agent, llm, task);
      t.responses == [] || |t.responses| <= agent.maxIterations
    ensures var t := RunSpec(agent, llm, task);
      t.messages == [HumanMessage(Plain(task))] + Exchange(OptimizedLoop(agent), t.responses)
    ensures var t := RunSpec(agent, llm, task);
      forall k :: 0 <= k < |t.responses| ==>
        t.responses[k] == llm(k, PromptAsWritten(agent, [HumanMessage(Plain(task))] + Exchange(OptimizedLoop(agent), t.responses[..k])))
  {
    var loop := OptimizedLoop(agent);
    var start := [HumanMessage(Plain(task))];
    var t := AgentLoop.Run(loop, llm, start);
    AgentLoop.RunTrace(loop, llm, start);
    forall k | 0 <= k < |t.responses|
      ensures t.responses[k] == llm(k, PromptAsWritten(agent, start + Exchange(loop, t.responses[..k])))
    {
      assert loop.prompt(start + Exchange(loop, t.responses[..k])) == PromptAsWritten(agent, start + Exchange(loop, t.responses[..k]));
    }
  }

  /** The run with the intended prompt: at most `maxIterations` calls,
      each prompted with the system message and the list so far, so every
      message reaches the model once. */
  lemma {:induction false} CorrectedRunTrace(agent: Agent, llm: Llm, task: string)
    ensures var t := AgentLoop.Run(CorrectedLoop(agent), llm, [HumanMessage(Plain(task))]);
      t.responses == [] || |t.responses| <= agent.maxIterations
    ensures var t := AgentLoop.Run(CorrectedLoop(agent), llm, [HumanMessage(Plain(task))]);
      t.messages == [HumanMessage(Plain(task))] + Exchange(CorrectedLoop(agent), t.responses)
    ensures var t := AgentLoop.Run(CorrectedLoop(agent), llm, [HumanMessage(Plain(task))]);
      forall k :: 0 <= k < |t.responses| ==>
        t.responses[k] == llm(k, Prompt(agent, [HumanMessage(Plain(task))] + Exchange(CorrectedLoop(agent), t.responses[..k])))
  {
    var loop := CorrectedLoop(agent);
    var start := [HumanMessage(Plain(task))];
    var t := AgentLoop.Run(loop, llm, start);
    AgentLoop.RunTrace(loop, llm, start);
    forall k | 0 <= k < |t.responses|
      ensures t.responses[k] == llm(k, Prompt(agent, start + Exchange(loop, t.responses[..k])))
    {
      assert loop.prompt(start + Exchange(loop, t.responses[..k])) == Prompt(agent, start + Exchange(loop, t.responses[..k]));
    }
  }

  /** What a run yields: nothing but the last response's streamed pieces
      and notice when it stopped the loop; on reaching the bound only what
      is due then, from the last response's text. */
  lemma {:induction false} RunOutput(agent: Agent, llm: Llm, task: string)
    ensures var t := RunSpec(agent, llm, task);
      t.ending == Exhausted ==> t.out == ExhaustedOutput(agent, LastOf(t.responses, None))
    ensures var t := RunSpec(agent, llm, task);
      t.ending != Exhausted ==> (t.responses != [] &&
        var turn := Iterate(agent, t.responses[|t.responses| - 1]);
        turn.stop.Some? && t.ending == Stopped(turn.stop.value) && t.out == turn.pieces + turn.notice)
  {
    var loop := OptimizedLoop(agent);
    var start := [HumanMessage(Plain(task))];
    var t := AgentLoop.Run(loop, llm, start);
    AgentLoop.RunEnding(loop, llm, start);
    OnlyLastStreams(agent, t.responses);
    if t.ending == Exhausted {
      if t.responses != [] {
        var lastR := t.responses[|t.responses| - 1];
        assert Continues(loop, lastR);
        ContinuingStreamsNothing(agent, lastR);
      }
      assert Pieces(loop, t.responses) == [];
      assert loop.exhausted(LastOf(t.responses, None)) == ExhaustedOutput(agent, LastOf(t.responses, None));
    } else {
      var lastR := t.responses[|t.responses| - 1];
      assert loop.step(lastR) == Iterate(agent, lastR);
    }
  }

  // ---------------------------------------------------------------------
  // The repeated history

  /** With two or more messages, the prompt as written carries every
      message but the last twice: the first message (the task) sits both
      right after the system message and after the repeated part. */
  lemma {:induction false} PromptAsWrittenRepeats(agent: Agent, messages: seq<Message>)
    requires |messages| >= 2
    ensures |PromptAsWritten(agent, messages)| == 2 * |messages|
    ensures PromptAsWritten(agent, messages)[1] == messages[0]
    ensures PromptAsWritten(agent, messages)[|messages|] == messages[0]
  {
  }

  /** As written, the second call of a run whose first response asked for
      tools receives the task twice; the intended prompt has it once. */
  lemma {:induction false} AsWrittenSecondCallRepeatsTask(agent: Agent, llm: Llm, task: string)
    requires agent.maxIterations >= 2
    requires Continues(OptimizedLoop(agent), llm(0, PromptAsWritten(agent, [HumanMessage(Plain(task))])))
    ensures var rs := AgentLoop.Run(OptimizedLoop(agent), llm, [HumanMessage(Plain(task))]).responses;
      |rs| >= 2 &&
      var seen := [HumanMessage(Plain(task))] + OptimizedLoop(agent).step(rs[0]).appended;
      rs[1] == llm(1, PromptAsWritten(agent, seen)) &&
      PromptAsWritten(agent, seen)[1] == HumanMessage(Plain(task)) &&
      PromptAsWritten(agent, seen)[|seen|] == HumanMessage(Plain(task)) &&
      Prompt(agent, seen)[1..] == seen
  {
    var loop := OptimizedLoop(agent);
    var start := [HumanMessage(Plain(task))];
    var r0 := llm(0, loop.prompt(start));
    assert loop.prompt(start) == PromptAsWritten(agent, start);
    var seen := start + loop.step(r0).appended;
    var rest := RunFrom(loop, llm, 1, seen, Some(r0));
    assert AgentLoop.Run(loop, llm, start).responses == [r0] + rest.responses;
    var r1 := llm(1, loop.prompt(seen));
    assert rest.responses != [] && rest.responses[0] == r1;
    assert loop.step(r0) == Iterate(agent, r0);
    assert |seen| >= 2;
    assert loop.prompt(seen) == PromptAsWritten(agent, seen);
    PromptAsWrittenRepeats(agent, seen);
  }
}
