/** The chat-message vocabulary shared by the agents: LangChain messages,
    the tool calls a model asks for, what one streamed model call delivers,
    and what invoking a tool gives back.

    The model itself is an oracle: for each call it delivers a `Response`,
    the stream of chunks, the tool-call list of the combined message (the
    `+` of LangChain's message chunks is not part of this model) and,
    optionally, the message of an exception raised after those chunks. */
module Messages {
  import opened Text

  /** The `args` dictionary of a tool call, passed to the tool untouched. */
  type Args = map<string, string>

  /** The id of a tool call: the one the model gave, or one made from a
      prefix and the clock (`f"tool_call_{time.time_ns()}"`), whose digits
      are not modelled. */
  datatype CallId = Given(id: string) | Fresh(prefix: string)

  /** One entry of `tool_calls`.  For a dictionary each `Option` says whether
      the key is present; a `None` value is the empty string, which is falsy
      just like `None`.  `repr` is the entry's `str()`. */
  datatype ToolCall =
    | CallDict(name: Option<string>, args: Option<Args>, id: Option<string>, repr: string)
    | NotDict(repr: string)

  /** `isinstance(tool_call, dict) and "name" in tool_call and "args" in tool_call
      and "id" in tool_call` */
  predicate WellFormed(c: ToolCall) {
    c.CallDict? && c.name.Some? && c.args.Some? && c.id.Some?
  }

  /** The id of the error message for a malformed call:
      `tool_call.get("id", f"malformed_tc_{...}")` for a dictionary. */
  function MalformedId(c: ToolCall): (r: CallId)
    ensures c.CallDict? && c.id.Some? <==> r.Given?
  {
    if c.CallDict? && c.id.Some? then Given(c.id.value) else Fresh("malformed_tc_")
  }

  /** One part of a multi-part human message. */
  datatype ContentPart = TextPart(text: string) | ImageUrlPart(url: string)

  datatype HumanContent = Plain(text: string) | Parts(parts: seq<ContentPart>)

  datatype Message =
    | SystemMessage(text: string)
    | HumanMessage(content: HumanContent)
    | AIMessage(text: string, toolCalls: seq<ToolCall>)
    | ToolMessage(text: string, callId: CallId)

  /** A streamed chunk: an `AIMessageChunk` with its text content, or any
      other object the stream may deliver. */
  datatype Chunk = AIChunk(content: string) | OtherChunk

  /** What one streamed call of the model delivers. */
  datatype Response = Response(chunks: seq<Chunk>, toolCalls: seq<ToolCall>, failure: Option<string>)

  /** The model: the `n`-th call with the given prompt messages. */
  type Llm = (nat, seq<Message>) -> Response

  /** A value a tool returns.  Library renderings are carried as data:
      `str(v)`, and for non-strings `json.dumps(v, indent=2)` and
      `json.dumps(v)`, `None` when `json.dumps` raises `TypeError`. */
  datatype PyValue =
    | PyString(s: string)
    | PyObject(isDictOrList: bool, indentedJson: Option<string>, json: Option<string>, str: string)

  /** `str(v)` */
  function PyStr(v: PyValue): string {
    match v
      case PyString(s) => s
      case PyObject(_, _, _, s) => s
  }

  /** Invoking a tool returns a value or raises an exception, whose `str()`
      is `error`. */
  datatype ToolOutcome = Returned(value: PyValue) | Raised(error: string)

  type Tool = Args -> ToolOutcome

  /** The contents of the `AIMessageChunk`s of a stream, in order. */
  function AIContents(chunks: seq<Chunk>): (r: seq<string>)
    ensures |r| <= |chunks|
    ensures r == [] <==> forall i :: 0 <= i < |chunks| ==> chunks[i].OtherChunk?
  {
    if chunks == [] then []
    else (if chunks[0].AIChunk? then [chunks[0].content] else []) + AIContents(chunks[1..])
  }

  /** The non-empty contents of the `AIMessageChunk`s, in order: what the
      agents stream out. */
  function Streamed(chunks: seq<Chunk>): (r: seq<string>)
    ensures forall i :: 0 <= i < |r| ==> r[i] != []
    ensures forall s :: s in r <==> s in AIContents(chunks) && s != []
  {
    if chunks == [] then []
    else (if chunks[0].AIChunk? && chunks[0].content != [] then [chunks[0].content] else [])
         + Streamed(chunks[1..])
  }

  /** The text of the combined message: all chunk contents joined. */
  function StreamText(chunks: seq<Chunk>): string {
    Concat(AIContents(chunks))
  }

  /** Leaving out the empty chunks does not change the text: the streamed
      pieces join up to exactly the combined message's text. */
  lemma {:induction false} StreamedJoinsToText(chunks: seq<Chunk>)
    ensures Concat(Streamed(chunks)) == StreamText(chunks)
  {
    if chunks != [] {
      var head := if chunks[0].AIChunk? && chunks[0].content != [] then [chunks[0].content] else [];
      var aiHead := if chunks[0].AIChunk? then [chunks[0].content] else [];
      StreamedJoinsToText(chunks[1..]);
      ConcatAppend(head, Streamed(chunks[1..]));
      ConcatAppend(aiHead, AIContents(chunks[1..]));
      assert Concat(head) == Concat(aiHead) by {
        if chunks[0].AIChunk? {
          assert [chunks[0].content][..0] == [];
          assert Concat(aiHead) == chunks[0].content;
          if chunks[0].content != [] {
            assert Concat(head) == chunks[0].content;
          }
        }
      }
    }
  }

  /** The stream prefix of the first `i` chunks extends by the `i`-th. */
  lemma {:induction false} AIContentsStep(chunks: seq<Chunk>, i: nat)
    requires i < |chunks|
    ensures AIContents(chunks[..i + 1])
         == AIContents(chunks[..i]) + (if chunks[i].AIChunk? then [chunks[i].content] else [])
    ensures Streamed(chunks[..i + 1])
         == Streamed(chunks[..i]) + (if chunks[i].AIChunk? && chunks[i].content != [] then [chunks[i].content] else [])
  {
    assert chunks[..i + 1] == chunks[..i] + [chunks[i]];
    AIContentsAppend(chunks[..i], [chunks[i]]);
    StreamedAppend(chunks[..i], [chunks[i]]);
  }

  lemma {:induction false} AIContentsAppend(a: seq<Chunk>, b: seq<Chunk>)
    ensures AIContents(a + b) == AIContents(a) + AIContents(b)
  {
    if a == [] {
      assert a + b == b;
    } else {
      assert (a + b)[1..] == a[1..] + b;
      AIContentsAppend(a[1..], b);
    }
  }

  lemma {:induction false} StreamedAppend(a: seq<Chunk>, b: seq<Chunk>)
    ensures Streamed(a + b) == Streamed(a) + Streamed(b)
  {
    if a == [] {
      assert a + b == b;
    } else {
      assert (a + b)[1..] == a[1..] + b;
      StreamedAppend(a[1..], b);
    }
  }

  /** The stream loop the agents share: collect the `AIMessageChunk`s, join
      their text, and collect the non-empty contents in arrival order.
      Returns the number of AI chunks, the joined text and the pieces. */
  method ConsumeStream(chunks: seq<Chunk>) returns (aiCount: nat, text: string, pieces: seq<string>)
    ensures aiCount == |AIContents(chunks)|
    ensures text == StreamText(chunks)
    ensures pieces == Streamed(chunks)
  {
    aiCount, text, pieces := 0, "", [];
    assert chunks[..0] == [];
    for i := 0 to |chunks|
      invariant aiCount == |AIContents(chunks[..i])|
      invariant text == Concat(AIContents(chunks[..i]))
      invariant pieces == Streamed(chunks[..i])
    {
      AIContentsStep(chunks, i);
      var chunk := chunks[i];
      if chunk.AIChunk? {
        aiCount := aiCount + 1;
        ConcatSnoc(AIContents(chunks[..i]), chunk.content);
        if chunk.content != "" {
          text := text + chunk.content;
          pieces := pieces + [chunk.content];
        } else {
          assert text + chunk.content == text;
        }
      } else {
        assert AIContents(chunks[..i + 1]) == AIContents(chunks[..i]);
      }
    }
    assert chunks[..|chunks|] == chunks;
  }
}
