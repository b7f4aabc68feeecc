/** The request handling of the Flask front end (api.py): the `/search`
    prompt that flattens the chat history into `User:` / `Assistant:` lines,
    the `/plan` history with the date message in front, the 400 answer to a
    request without a query, and the extension filter of `/images_list`.

    The current date and time are parameters (the already formatted
    `strftime` strings), and so is the agent that `/plan` streams from. */
module Api {
  import opened Text
  import ThinkFilter

  /** One chat-history entry as the front end posts it: `{'role', 'content'}`. */
  datatype Entry = Entry(role: string, content: string)

  /** The JSON body of a POST; `query` is `None` when the key is absent or null,
      and a missing `chat_history` is the empty list. */
  datatype Request = Request(query: Option<string>, chatHistory: seq<Entry>)

  /** What a handler answers: an error status with its message, or the
      accepted work (a prompt, a token stream). */
  datatype Reply<T> = Rejected(status: nat, error: string) | Accepted(value: T)

  const MissingQueryError: string := "Missing query parameter"

  /** `not query`: the key is absent, null or the empty string. */
  predicate MissingQuery(q: Option<string>) {
    q.None? || q.value == []
  }

  // ---------------------------------------------------------------------
  // /search: the flattened prompt

  const HistoryIntro: string := "Below is the conversation history between a user and an assistant. Use this context to answer coherently and relevantly in the user's language.\n"
  const HistoryHeader: string := "--- Conversation History ---\n"
  const HistoryFooter: string := "--- End of History ---\n"
  const PromptIntro: string := "Now, this is the user prompt.\n"

  function SystemDate(today: string, time: string): string {
    "Today is " + today + ", and the current time is " + time + "."
  }

  /** The one line an entry contributes: user and assistant turns are
      labelled, every other role contributes nothing. */
  function Line(e: Entry): string {
    if e.role == "user" then "User: " + e.content + "\n"
    else if e.role == "assistant" then "Assistant: " + e.content + "\n"
    else []
  }

  /** The lines of a history, one per entry, in order: a user or an
      assistant turn gives its labelled line, any other entry an empty one. */
  function Lines(history: seq<Entry>): (r: seq<string>)
    ensures |r| == |history|
    ensures forall i :: 0 <= i < |r| && history[i].role == "user" ==> r[i] == "User: " + history[i].content + "\n"
    ensures forall i :: 0 <= i < |r| && history[i].role == "assistant" ==> r[i] == "Assistant: " + history[i].content + "\n"
    ensures forall i :: 0 <= i < |r| && history[i].role != "user" && history[i].role != "assistant" ==> r[i] == []
  {
    seq(|history|, i requires 0 <= i < |history| => Line(history[i]))
  }

  /** The history part of the prompt. */
  function Transcript(history: seq<Entry>): string {
    Concat(Lines(history))
  }

  function Opening(systemDate: string): string {
    systemDate + "\n" + HistoryIntro + HistoryHeader
  }

  function Closing(query: string): string {
    HistoryFooter + PromptIntro + "User: " + query + "\n"
  }

  /** The whole prompt handed to the layout agent. */
  function SearchPrompt(systemDate: string, history: seq<Entry>, query: string): string {
    Opening(systemDate) + Transcript(history) + Closing(query)
  }

  /** The user and assistant turns of a history, in order. */
  function Conversation(history: seq<Entry>): (r: seq<Entry>)
    ensures forall i :: 0 <= i < |r| ==> r[i].role == "user" || r[i].role == "assistant"
    ensures forall e :: e in r <==> e in history && (e.role == "user" || e.role == "assistant")
  {
    if history == [] then []
    else if history[0].role == "user" || history[0].role == "assistant"
    then [history[0]] + Conversation(history[1..])
    else Conversation(history[1..])
  }

  /** The transcript of a concatenation is the concatenation of the
      transcripts: the lines keep the order of the entries. */
  lemma {:induction false} TranscriptAppend(a: seq<Entry>, b: seq<Entry>)
    ensures Transcript(a + b) == Transcript(a) + Transcript(b)
  {
    assert Lines(a + b) == Lines(a) + Lines(b);
    ConcatAppend(Lines(a), Lines(b));
  }

  /** A single entry's transcript is its line. */
  lemma {:induction false} TranscriptOne(e: Entry)
    ensures Transcript([e]) == Line(e)
  {
    assert Lines([e]) == [Line(e)];
    assert [Line(e)][..0] == [];
    assert Concat([Line(e)]) == Concat([]) + Line(e);
  }

  /** Extending the history by one entry extends the transcript by its line. */
  lemma {:induction false} TranscriptStep(history: seq<Entry>, i: nat)
    requires i < |history|
    ensures Transcript(history[..i + 1]) == Transcript(history[..i]) + Line(history[i])
  {
    assert Lines(history[..i + 1]) == Lines(history[..i]) + [Line(history[i])];
  }

  /** Entries whose role is neither user nor assistant are dropped: the
      transcript is that of the conversation turns alone. */
  lemma {:induction false} TranscriptOfConversation(history: seq<Entry>)
    ensures Transcript(history) == Transcript(Conversation(history))
    decreases |history|
  {
    if history != [] {
      var e, rest := history[0], history[1..];
      assert history == [e] + rest;
      TranscriptAppend([e], rest);
      TranscriptOne(e);
      TranscriptOfConversation(rest);
      if e.role == "user" || e.role == "assistant" {
        assert Conversation(history) == [e] + Conversation(rest);
        TranscriptAppend([e], Conversation(rest));
      } else {
        assert Line(e) == [];
      }
    }
  }

  /** The accumulating loop of `search` that builds the prompt. */
  method BuildSearchPrompt(systemDate: string, history: seq<Entry>, query: string) returns (prompt: string)
    ensures prompt == SearchPrompt(systemDate, history, query)
  {
    var opening := systemDate + "\n" + HistoryIntro + HistoryHeader;
    prompt := opening;
    assert Transcript(history[..0]) == [] by {
      assert Lines(history[..0]) == [];
    }
    for i := 0 to |history|
      invariant prompt == opening + Transcript(history[..i])
    {
      var msg := history[i];
      if msg.role == "user" {
        var line := "User: " + msg.content + "\n";
        assert line == Line(msg);
        prompt := prompt + line;
      } else if msg.role == "assistant" {
        var line := "Assistant: " + msg.content + "\n";
        assert line == Line(msg);
        prompt := prompt + line;
      }
      TranscriptStep(history, i);
      AppendAssoc(opening, Transcript(history[..i]), Line(msg));
    }
    assert history[..|history|] == history;
    var closing := HistoryFooter + PromptIntro + "User: " + query + "\n";
    prompt := prompt + closing;
  }

  /** The `/search` handler: a request without a query is answered with
      status 400 before anything else; otherwise the prompt for the layout
      agent is built from the date, the history and the query. */
  method Search(req: Request, today: string, time: string) returns (reply: Reply<string>)
    ensures MissingQuery(req.query) <==> reply.Rejected?
    ensures MissingQuery(req.query) ==> reply == Rejected(400, MissingQueryError)
    ensures !MissingQuery(req.query) ==>
      reply == Accepted(SearchPrompt(SystemDate(today, time), req.chatHistory, req.query.value))
  {
    if MissingQuery(req.query) {
      return Rejected(400, MissingQueryError);
    }
    var prompt := BuildSearchPrompt(SystemDate(today, time), req.chatHistory, req.query.value);
    reply := Accepted(prompt);
  }

  // ---------------------------------------------------------------------
  // /plan: the history with the date message, and the filtered stream

  /** The history the planner receives: the date message first, then the
      posted history unchanged. */
  function PlanHistory(today: string, history: seq<Entry>): (r: seq<Entry>)
    ensures |r| == |history| + 1
    ensures r[0] == Entry("system", "Today is " + today + ".")
    ensures r[1..] == history
  {
    [Entry("system", "Today is " + today + ".")] + history
  }

  /** The `/plan` handler.  `agent(query, history)` is the planner's token
      stream; it goes through the think filter as the handler writes it,
      which decides on the first token alone (`ThinkFilter.Filtered`). */
  method Plan(req: Request, today: string, agent: (string, seq<Entry>) -> seq<string>)
    returns (reply: Reply<seq<string>>)
    ensures MissingQuery(req.query) <==> reply.Rejected?
    ensures MissingQuery(req.query) ==> reply == Rejected(400, MissingQueryError)
    ensures !MissingQuery(req.query) ==>
      reply == Accepted(ThinkFilter.Filtered(agent(req.query.value, PlanHistory(today, req.chatHistory))))
  {
    if MissingQuery(req.query) {
      return Rejected(400, MissingQueryError);
    }
    var tokens := agent(req.query.value, PlanHistory(today, req.chatHistory));
    var out := ThinkFilter.StripLeadingThinkAsWritten(tokens);
    reply := Accepted(out);
  }

  // ---------------------------------------------------------------------
  // /images_list

  /** One entry of the directory listing. */
  datatype DirEntry = DirEntry(name: string, isFile: bool)

  const ImageExtensions: seq<string> := [".png", ".jpg", ".jpeg", ".gif", ".webp"]

  /** `f.lower().endswith(('.png', '.jpg', '.jpeg', '.gif', '.webp'))` */
  predicate IsImageName(f: string) {
    exists i :: 0 <= i < |ImageExtensions| && EndsWith(Lower(f), ImageExtensions[i])
  }

  /** The names of the regular files of a listing, in listing order. */
  function FileNames(listing: seq<DirEntry>): (r: seq<string>)
    ensures forall x :: x in r <==> exists e :: e in listing && e.isFile && e.name == x
  {
    if listing == [] then []
    else (if listing[0].isFile then [listing[0].name] else []) + FileNames(listing[1..])
  }

  /** The regular files of two listings, one after the other, are those of
      each listing in the same order. */
  lemma {:induction false} FileNamesAppend(a: seq<DirEntry>, b: seq<DirEntry>)
    ensures FileNames(a + b) == FileNames(a) + FileNames(b)
  {
    if a == [] {
      assert a + b == b;
    } else {
      assert (a + b)[0] == a[0];
      assert (a + b)[1..] == a[1..] + b;
      FileNamesAppend(a[1..], b);
    }
  }

  /** The image names among `files`, in order. */
  function ImageNames(files: seq<string>): (r: seq<string>)
    ensures forall x :: x in r <==> x in files && IsImageName(x)
    ensures |r| <= |files|
  {
    if files == [] then []
    else (if IsImageName(files[0]) then [files[0]] else []) + ImageNames(files[1..])
  }

  /** Filtering commutes with concatenation: the kept names stay in listing order. */
  lemma {:induction false} ImageNamesAppend(a: seq<string>, b: seq<string>)
    ensures ImageNames(a + b) == ImageNames(a) + ImageNames(b)
  {
    if a == [] {
      assert a + b == b;
    } else {
      assert (a + b)[0] == a[0];
      assert (a + b)[1..] == a[1..] + b;
      ImageNamesAppend(a[1..], b);
    }
  }

  /** The `/images_list` handler; `None` is a missing `images` directory. */
  function ImagesList(listing: Option<seq<DirEntry>>): (r: seq<string>)
    ensures listing.None? ==> r == []
    ensures listing.Some? ==> forall x :: x in r <==>
      (exists e :: e in listing.value && e.isFile && e.name == x) && IsImageName(x)
  {
    match listing
      case None => []
      case Some(entries) => ImageNames(FileNames(entries))
  }
}
