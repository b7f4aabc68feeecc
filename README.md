# brave-search-agent, modelled in Dafny

brave-search-agent is a set of LangChain agents behind a small Flask
server. A user's request goes either to a web-search agent, whose answer is
re-laid-out by a multimodal "layout" model, or to a travel planner, whose
token stream loses its leading `<think>` block before it reaches the
client. The agents call tools over the Brave Search, OpenWeatherMap and
OpenRouteService APIs.

This project models the deterministic code around the language models and
the HTTP calls, and proves what that code promises:

- `Text` holds the string operations the Python code relies on (`strip`,
  `find`, `partition`, `replace`, `str(n)`).
- `ThinkFilter` models the `/plan` stream filter, as written and corrected.
- `Api` models the prompt flattening, the date message and the image listing.
- `Messages` holds LangChain messages and streams.
- `AgentLoop` is the bounded tool-calling loop the agents share.
- `PlannerAgent`, `OptimizedAgent` and `LangchainAgent` model the three agents.
- `LangchainScript` models langchain.py.
- `WebText` and `WebTools` model the scraping and link tools.
- `Brave` models the Brave client.
- `PlannerTools` models the planner's tools.
- `LayoutChat` models the layout chat, a class whose `chatHistory` field is
  updated in place.

Everything outside the code is a parameter:

- a language model is a function from the call's index and its prompt to its
  chunks, the combined message's tool calls, and an optional exception;
- a tool is a partial function;
- a web page is what its fetch returned;
- an HTTP API is a function from its request to its reply;
- `float()`, `datetime.fromisoformat` and the geocoder are functions that may
  fail.

Loops are methods proved equal to a specification function. The
specification functions carry the lemmas.

## Model

| member | source | states |
|---|---|---|
| Text.StripEmptyIffBlank | planner_tools.py:72 | `s.strip()` is empty exactly when every character of `s` is whitespace |
| Text.IndexOfFirst | api.py:119-120 | `s.find(p)` is an occurrence of `p` and no earlier index holds one |
| Text.AfterFirst | api.py:120 | the third part of `partition` is a suffix of the text |
| Text.AfterFirstFollows | api.py:120 | that suffix follows an occurrence of the separator, and no occurrence comes earlier |
| Text.RemoveFirst | tools.py:151 | `replace(p, "", 1)` leaves `s` unchanged when `p` does not occur, and otherwise removes exactly `|p|` characters |
| Text.RemoveFirstRestores | tools.py:151 | putting `p` back at its first occurrence gives `s` again |
| Text.ReplaceChar | planner_tools.py:418 | `replace(a, b)` keeps the length, puts `b` wherever `a` was and changes nothing else |
| Text.NatToStringInjective | brave_search_api.py:183 | different indices give different decimal strings |
| ThinkFilter.CloseIndex | api.py:140-150 | the index of a token with which the buffered text holds `</think>`, or none when the whole text never does |
| ThinkFilter.CloseIndexFirst | api.py:140-150 | no earlier token completes `</think>` |
| ThinkFilter.CloseIndexIffHasClose | api.py:119-143 | the buffered text ever holds `</think>` exactly when some token completes it |
| ThinkFilter.CloseCheck | api.py:119-149 | the shared close check: closed exactly when the buffer holds `</think>`; it emits the non-blank remainder |
| ThinkFilter.StepFirst | api.py:114-128 | a first token that opens `<think>` starts the buffer, which is checked for `</think>` at once |
| ThinkFilter.StepOpen | api.py:140-150 | a token inside an open block joins the buffer, and nothing else is yielded |
| ThinkFilter.StepDone | api.py:152-155 | once decided, a token is yielded unchanged |
| ThinkFilter.StepAsWritten | api.py:106-155 | one token of the loop as written keeps the state the code reaches after the tokens seen so far |
| ThinkFilter.StripLeadingThinkAsWritten | api.py:98-162 | the filter as written yields exactly `Filtered(tokens)`: the input unchanged unless the first token opens `<think>`, in which case the output is the block's remainder followed by the later tokens |
| ThinkFilter.FilteredOnline | api.py:104-155 | what is yielded for a prefix of the stream is a prefix of what is yielded for the whole stream |
| ThinkFilter.FilteredSilentWhileOpen | api.py:114-150 | nothing is yielded while a leading block has not been closed |
| ThinkFilter.BlockRemainderText | api.py:119-155 | the text yielded for a closed block is what follows the first `</think>`, less at most a blank piece at its start |
| ThinkFilter.FilteredClosedBlock | api.py:112-155 | a stream opening with `<think>` is reduced to what follows the first `</think>`, and to exactly that when it starts with a visible character |
| ThinkFilter.SplitOpenLeaks | api.py:112-138 | a `<think>` split over two tokens lets the whole block through unchanged |
| ThinkFilter.DecisionIndex | api.py:130-138 | the index at which the text stops being a partial `<think>` |
| ThinkFilter.Pending | api.py:159-161 | the end-of-stream flush yields the text of a buffer that is still undecided, unchanged |
| ThinkFilter.FeedUndecided | api.py:108-138 | the corrected first phase: the buffer opens the block, keeps waiting as a partial `<think>`, or is yielded with the token |
| ThinkFilter.Feed | api.py:104-155 | one token of the corrected loop keeps the state equal to the specification applied to the tokens seen |
| ThinkFilter.StripLeadingThink | api.py:98-162 | the corrected filter yields exactly `Intended(tokens)` |
| ThinkFilter.IntendedPassThrough | api.py:130-161 | a text that does not open `<think>` passes with its text intact, wherever the chunk boundaries fall |
| ThinkFilter.IntendedUnclosed | api.py:159-162 | an unclosed leading block yields nothing |
| ThinkFilter.IntendedClosedBlock | api.py:119-155 | a closed leading block is reduced to what follows the first `</think>` |
| ThinkFilter.IntendedAgreesWhenFirstTokenDecides | api.py:112-114 | when the first token already decides, the correction changes nothing |
| ThinkFilter.SplitStreamFixed | api.py:130-138 | the corrected filter removes the split block that the code lets through |
| Api.Lines | api.py:37-42 | one piece per history entry, in order: `User: {content}` or `Assistant: {content}` with a newline, and an empty piece for any other role |
| Api.Conversation | api.py:38-42 | the user and assistant turns of a history, in order, and nothing else |
| Api.TranscriptAppend | api.py:38-42 | the transcript of a concatenation is the concatenation of the transcripts |
| Api.TranscriptOfConversation | api.py:38-42 | entries of any other role are dropped: the transcript is that of the conversation turns alone |
| Api.BuildSearchPrompt | api.py:33-45 | the accumulating loop builds the date line, the header, one line per turn, the end marker, the instruction and `User: {query}` |
| Api.Search | api.py:22-45 | a missing, null or empty query is answered with status 400 before any agent call; otherwise the layout agent receives the flattened prompt |
| Api.PlanHistory | api.py:88-91 | the planner receives the date system message first, then the posted history unchanged |
| Api.Plan | api.py:81-164 | a missing query gets status 400; otherwise the planner's stream for the history with the date message, through the think filter as written, which decides on the first token alone |
| Api.FileNames | api.py:172 | exactly the names of the regular files in the listing |
| Api.FileNamesAppend | api.py:172 | the regular-file filter commutes with concatenation, so listing order is kept |
| Api.ImageNames | api.py:174 | exactly the names whose lower-cased form ends in one of the five image extensions |
| Api.ImageNamesAppend | api.py:174 | filtering commutes with concatenation, so listing order is kept |
| Api.ImagesList | api.py:167-175 | an empty list without the directory, otherwise the image names among the regular files |
| Messages.MalformedId | planner_agent.py:248 | a malformed call's error message uses its own id when it has one, otherwise a fresh placeholder (also optimized_langchain_agent.py:234) |
| Messages.AIContents | planner_agent.py:187-189 | at most one content per chunk, and none exactly when the stream holds no AI chunk |
| Messages.Streamed | planner_agent.py:187-192 | exactly the non-empty AI chunk contents, and no empty piece |
| Messages.StreamedJoinsToText | planner_agent.py:190-191 | leaving out empty chunks does not change the joined text |
| Messages.ConsumeStream | planner_agent.py:182-200 | the stream loop collects the AI chunks, their joined text and the non-empty contents in order (also optimized_langchain_agent.py:178-189) |
| AgentLoop.RunFromStop | planner_agent.py:225-230 | an iteration that stops the loop contributes its pieces and notice last, and its messages last |
| AgentLoop.RunFromContinue | planner_agent.py:232-252 | a continuing iteration's pieces come first, then what the later iterations produce from the list it extended |
| AgentLoop.RunFromDone | planner_agent.py:255-257 | past the bound nothing more is called; only the exhaustion notice follows |
| AgentLoop.RunFromGrows | planner_agent.py:161-165 | at most `maxIterations` model calls, and the message list only grows by appends (also planner_agent.py:215-252) |
| AgentLoop.RunFromPrompts | planner_agent.py:170-180 | the k-th call is prompted with the start list plus everything the first k responses appended |
| AgentLoop.RunFromStops | planner_agent.py:225-255 | only the last response can stop the loop, and the run is exhausted exactly when none did |
| AgentLoop.RunFromOutput | planner_agent.py:187-257 | the output is every response's pieces in order, then one closing notice |
| AgentLoop.RunEnding | planner_agent.py:187-257 | only the last response can stop a run; it is exhausted exactly when every response continued, and then yields their pieces and the exhaustion notice |
| AgentLoop.RunTrace | planner_agent.py:161-257 | the whole run: call bound, prompts, final list and output together |
| PlannerAgent.Truncated | planner_agent.py:117-120 | output over 4000 characters becomes its first 3950 plus `... [output truncated]`; shorter output is kept whole |
| PlannerAgent.InvokeTool | planner_agent.py:96-137 | a missing name or an unknown tool gives its error without invoking anything; otherwise `str()` of the output, truncated, or `Error executing tool '<name>': <e>`; always under the call's id |
| PlannerAgent.ToolResult | planner_agent.py:237-249 | every call is answered by one tool message, under its own id when it has one; a malformed call gets the malformed-call error |
| PlannerAgent.InvokeAll | planner_agent.py:236-252 | one tool message per tool call, in call order |
| PlannerAgent.FinalNewline | planner_agent.py:229 | a `"\n"` is yielded exactly when the streamed text is non-empty and does not end in a newline |
| PlannerAgent.IterateContinues | planner_agent.py:203-252 | an iteration goes on exactly when the stream held an AI chunk and asked for tools; it then appends the AI message and exactly one tool message per call |
| PlannerAgent.IterateStops | planner_agent.py:203-230 | an empty stream ends with its one error, a final answer with its newline, and a crash with its error after the pieces streamed before it (also planner_agent.py:262-266) |
| PlannerAgent.EmptyStreamStreamsNothing | planner_agent.py:187-206 | a stream without AI chunks streams nothing before its error |
| PlannerAgent.IterateOnce | planner_agent.py:180-252 | one pass of the loop body yields, stops and extends the list exactly as the specified iteration does |
| PlannerAgent.Run | planner_agent.py:140-266 | the loop method yields exactly the specified output and leaves the specified message list |
| PlannerAgent.NotReadyYieldsOneError | planner_agent.py:147-149 | an agent whose model failed to initialise yields exactly one error and calls nothing |
| PlannerAgent.RunTrace | planner_agent.py:161-257 | `messages` starts as history plus the task and only grows; at most `maxIterations` calls, each prompted with the system message and the list so far |
| OptimizedAgent.Serialise | optimized_langchain_agent.py:101-112 | a string is kept; a dict or list becomes indented JSON; anything else becomes JSON, or `str()` when JSON fails |
| OptimizedAgent.Shortened | optimized_langchain_agent.py:114-116 | truncated to 1500 characters plus the marker exactly when optimisations are on and the output is longer |
| OptimizedAgent.EffectiveId | optimized_langchain_agent.py:79-84 | a falsy id is replaced by a fresh one; a truthy id is kept |
| OptimizedAgent.InvokeTool | optimized_langchain_agent.py:75-126 | missing name or unknown tool: error, nothing invoked; otherwise the serialised and shortened output, or the tool's error; always under the effective id |
| OptimizedAgent.ToolResult | optimized_langchain_agent.py:224-235 | a well-formed call is answered under its effective id; a malformed one gets the malformed-call error under its own or a placeholder id |
| OptimizedAgent.InvokeAll | optimized_langchain_agent.py:223-239 | one tool message per call, malformed ones included, in call order |
| OptimizedAgent.Prompt | optimized_langchain_agent.py:164-168 | the corrected prompt: the system message, then each message exactly once |
| OptimizedAgent.IterateContinues | optimized_langchain_agent.py:193-239 | tool-calling iterations yield nothing; one goes on exactly when its stream held an AI chunk and asked for tools, appending the AI message and one tool message per call |
| OptimizedAgent.IterateStreams | optimized_langchain_agent.py:211-218 | only a final answer yields pieces, and it yields all its non-empty chunks in order |
| OptimizedAgent.Run | optimized_langchain_agent.py:150-259 | the loop method, prompting each call as the code builds the prompt, yields exactly the specified output and leaves the specified message list |
| OptimizedAgent.OnlyLastStreams | optimized_langchain_agent.py:182-218 | the pieces of a run are those of its last response alone |
| OptimizedAgent.RunTrace | optimized_langchain_agent.py:158-168 | the list starts as the task alone and only grows; at most `maxIterations` calls, the k-th prompted with the template over all messages but the last, followed by all messages (also optimized_langchain_agent.py:206-239) |
| OptimizedAgent.CorrectedRunTrace | optimized_langchain_agent.py:164-168 | with the intended prompt, the k-th call gets the system message and the list so far, each message once |
| OptimizedAgent.RunOutput | optimized_langchain_agent.py:193-250 | a run yields only its last response's output; when exhausted, the last text and a warning, or one error when that text is empty |
| OptimizedAgent.PromptAsWrittenRepeats | optimized_langchain_agent.py:166-168 | as written, the prompt repeats every message but the last, so the task appears twice |
| OptimizedAgent.AsWrittenSecondCallRepeatsTask | optimized_langchain_agent.py:166-168 | as written, the second call receives the task twice, and the corrected prompt has it once |
| LangchainAgent.Format | langchain_agent.py:165-169 | the prompt is the system message, the history, then the task |
| LangchainAgent.HandleCall | langchain_agent.py:196-205 | a known tool's message, `Tool '<name>' not found.` under the call's id, or the `KeyError` of a missing key |
| LangchainAgent.ToolPhase | langchain_agent.py:194-206 | the tool loop answers the calls in order until one raises |
| LangchainAgent.UnknownToolsAnswered | langchain_agent.py:195-206 | calls to unknown tools are each answered with the not-found message under their own id, in order, and the run goes on |
| LangchainAgent.StreamOut | langchain_agent.py:213-225 | a streamed call yields its non-empty AI chunks, then the error if it raised |
| LangchainAgent.RunTools | langchain_agent.py:194-206 | the tool loop ends with exactly the outcome the specified tool phase gives: all messages in call order, or the first error |
| LangchainAgent.StreamCall | langchain_agent.py:213-225 | the stream loop yields exactly the non-empty AI chunks, then the error if the stream raised |
| LangchainAgent.Run | langchain_agent.py:171-230 | the method yields exactly the strings the two-call specification gives |
| LangchainAgent.DirectAnswerRepeatsRequest | langchain_agent.py:216-225 | without tool calls the same request is streamed again |
| LangchainAgent.ToolResultsNotSent | langchain_agent.py:206-215 | after tools ran, the second call gets the system message and the task twice, and neither the first answer nor any tool result |
| LangchainAgent.ErrorComesLast | langchain_agent.py:213-230 | every string but the last is a non-empty chunk of the second call's stream, so an `[Agent Error: …]` string can only come last |
| WebText.CollapseRuns | tools.py:48 | `re.sub(r'\s+', ' ', s)` is empty exactly for empty text; a leading visible character is kept and a leading whitespace run becomes one space (also langchain_agent.py:51) |
| WebText.CollapseRunsShape | tools.py:48 | no adjacent whitespace, only plain spaces, every visible character kept in order |
| WebText.CollapseRunsFixed | tools.py:48 | text whose whitespace is lone plain spaces is left unchanged, and only such text is |
| WebText.CollapseRunsIdempotent | tools.py:48 | collapsing twice is collapsing once |
| WebText.CollapseLongRuns | langchain.py:54 | `re.sub(r'\s\s+', ' ', s)` is empty exactly for empty text; a leading visible character is kept and leading whitespace stays whitespace |
| WebText.CollapseLongRunsShape | langchain.py:54 | no adjacent whitespace and every visible character kept in order |
| WebText.CollapseLongRunsFixed | langchain.py:54 | text without adjacent whitespace is left unchanged, and only such text is: a lone newline survives |
| WebText.ScrapeTailShape | tools.py:47-49 | the scraped text is at most `maxChars` long, starts visibly, has only lone plain spaces, and is a prefix of the collapsed, stripped text (also langchain_agent.py:50-52) |
| WebText.LooseScrapeTailShape | langchain.py:53-57 | at most `maxChars`, no adjacent whitespace, starts visibly |
| WebText.HitUrls | tools.py:77 | the truthy URLs of the hits, in order (also langchain_agent.py:89) |
| WebText.HitUrlsNone | tools.py:77-78 | hits without URLs give nothing to scrape |
| WebTools.ScrapeCount | tools.py:71 | `min(k, 5)` |
| WebTools.ScrapeContent | tools.py:27-55 | `None` exactly for a page that is not HTML or failed; otherwise at most 4000 characters |
| WebTools.SearchAndScrape | tools.py:61-102 | no client or `min(k, 5) <= 0` raise their `ToolException`; a search `ToolException` is re-raised, any other search exception is wrapped, and a search that answers gives results (also langchain_agent.py:74-114) |
| WebTools.ScrapeAll | tools.py:81-90 | the completion loop gives exactly one content per URL |
| WebTools.SearchAndScrapeWeb | tools.py:61-102 | the method's answer is the specified one |
| WebTools.SearchAndScrapeEntries | tools.py:84-95 | one entry per URL-bearing hit, in search order whatever the completion order; content `None` exactly when scraping failed (also langchain_agent.py:96-109) |
| WebTools.NoUrlsNoResults | tools.py:77-78 | no URLs answers `{"results": []}` |
| WebTools.LinkTarget | tools.py:124-137 | empty, `javascript:` and `#` hrefs are skipped; `/` gets `scheme://netloc`; other non-http(s) hrefs are skipped |
| WebTools.LinkTitle | tools.py:140-141 | the anchor text when there is one; the title is never empty |
| WebTools.Description | tools.py:144-153 | the parent text with the first title occurrence cut out and stripped; over 200 characters becomes 197 plus `...` |
| WebTools.AnchorLink | tools.py:123-159 | an anchor gives a link exactly when its href is kept, with title cut to 100 characters |
| WebTools.AnchorLinks | tools.py:123-159 | at most one link per anchor |
| WebTools.AnchorLinksMembers | tools.py:123-159 | a link is extracted exactly when some anchor of the page contributes it |
| WebTools.AnchorLinksAppend | tools.py:123-159 | the links of two runs of anchors are those of each, in page order |
| WebTools.Dedup | tools.py:161-167 | distinct URLs, only links of the input, and every URL of the input still present |
| WebTools.DedupKeepsFirsts | tools.py:161-167 | exactly the first link of each URL is kept |
| WebTools.DedupPrefix | tools.py:161-167 | de-duplicating a longer list keeps the shorter list's result in front |
| WebTools.DedupDistinct | tools.py:161-167 | a list of distinct URLs is kept whole |
| WebTools.DedupLinks | tools.py:162-167 | the `seen_urls` loop computes `Dedup` |
| WebTools.PageLinks | tools.py:106-178 | nothing for a failed or non-HTML page; at most ten links, with distinct URLs |
| WebTools.ExtractLinksAndMetadata | tools.py:119-169 | the anchor loop, de-duplication and cap give `PageLinks` |
| WebTools.AnchorLinksShape | tools.py:140-157 | each link passes the href rules, with a title of at most 100 and a description of at most 200 characters |
| WebTools.DirectLinks | tools.py:214-224 | at most one link per hit, each with a URL and tagged `search_result` |
| WebTools.DirectLinksMembers | tools.py:214-224 | the direct links are exactly the URL-bearing hits with their title and description, tagged `search_result` |
| WebTools.DirectLinksAppend | tools.py:214-224 | the direct links of two runs of hits are those of each, in search order |
| WebTools.Tagged | tools.py:238-242 | each of a page's links, in order, tagged `extracted_from_<url>` and otherwise unchanged |
| WebTools.FindInterestingLinks | tools.py:182-266 | no client or `min(k, 5) <= 0` give their error; an answer holds at most ten links, with distinct URLs, whatever the completion order |
| WebTools.DirectLinksFirst | tools.py:210-255 | the distinct search hits come first, in search order, up to ten, whatever the completion order |
| WebTools.InterestingLinksMessage | tools.py:258-261 | the message counts the links returned |
| WebTools.FindInterestingLinksRun | tools.py:204-261 | the loops compute `FindInterestingLinks` |
| LangchainScript.LooseContent | langchain.py:29-68 | `None` exactly for a non-HTML or failed page; otherwise at most 4000 characters |
| LangchainScript.ScrapeHits | langchain.py:124-136 | one entry per URL-bearing hit, in order, content from that URL's page |
| LangchainScript.SearchAndScrape | langchain.py:90-148 | no client or `min(k, 5) <= 0` fail with their message; any search exception is wrapped in the "unexpected error" message |
| LangchainScript.SearchAndScrapeWeb | langchain.py:105-148 | the sequential loop's answer is the specified one |
| LangchainScript.LooseContentKeepsTidyText | langchain.py:54-57 | tidy text without adjacent whitespace comes back whole when it fits |
| LangchainScript.Outputs | langchain.py:229-234 | exactly the truthy `output` values, none empty |
| LangchainScript.Run | langchain.py:219-247 | the text written is the headers, the outputs, the error line if any, and a newline; `full_response` is the outputs joined |
| LangchainScript.StdoutShape | langchain.py:229-247 | the output always ends with a newline, and after the headers come the outputs |
| LayoutChat.MimeTypeCases | layout_chat.py:89-111 | JPEG, PNG, GIF and WEBP map to their types; anything else, including errors, maps to `image/png` |
| LayoutChat.ImagePartsOf | layout_chat.py:159-191 | an encoded image adds its data-URL part and its label; a failed one adds one note |
| LayoutChat.ImageParts | layout_chat.py:159-171 | one part per image and one more per encoded image: twice the encoded count plus the failures |
| LayoutChat.ImagePartsAt | layout_chat.py:159-171 | the k-th image's parts sit right after those of the images before it |
| LayoutChat.SectionParts | layout_chat.py:156-178 | a header and the parts for a non-empty list, nothing for an empty one |
| LayoutChat.HumanParts | layout_chat.py:142-153 | the content starts with exactly one text part embedding the agent output |
| LayoutChat.HumanPartsSections | layout_chat.py:155-191 | the content images' section follows the main text, and the screenshots' section closes the message |
| LayoutChat.AppendImageParts | layout_chat.py:157-172 | the loop appends `ImageParts` and counts the encoded images |
| LayoutChat.BuildHumanParts | layout_chat.py:142-192 | the assembled content is `HumanParts` |
| LayoutChat.Trimmed | layout_chat.py:225-226 | the last ten entries, or all of them when there are ten or fewer |
| LayoutChat.Prompt | layout_chat.py:196-202 | the system prompt, then the history, then the new human message |
| LayoutChat.RecordedKeepsPairs | layout_chat.py:216-239 | the history keeps alternating request/answer pairs, on success and on failure |
| LayoutChat.SuccessKeepsLatestTen | layout_chat.py:214-226 | on success at most ten entries, the latest, ending with the summary and the joined answer |
| LayoutChat.FailureKeepsAll | layout_chat.py:228-240 | on failure nothing is dropped: two entries are added, the second holding the yielded error |
| LayoutChat.FailuresGrowHistory | layout_chat.py:228-240 | repeated failures grow the history past ten entries |
| LayoutChat.LayoutChat.constructor | layout_chat.py:24-29 | a new chat has an empty history |
| LayoutChat.LayoutChat.Record | layout_chat.py:214-240 | the history becomes `Recorded(old history, …)` and stays paired |
| LayoutChat.LayoutChat.Run | layout_chat.py:114-240 | yields the non-empty chunks and then one error marker if the stream raised; records the exchange |
| Brave.NewClient | brave_search_api.py:26-35 | an empty key raises `ValueError`; any other key gives a client |
| Brave.Capped | brave_search_api.py:52 | `min(count, 20)` (also brave_search_api.py:96, brave_search_api.py:152) |
| Brave.Sanitize | brave_search_api.py:65-69 | never more results than were given (also brave_search_api.py:110-117) |
| Brave.SanitizeMembers | brave_search_api.py:69 | exactly the results with a URL are kept |
| Brave.SanitizeAppend | brave_search_api.py:65-69 | sanitising a concatenation is concatenating the sanitised parts |
| Brave.SanitizeKeepsUrlResults | brave_search_api.py:65-69 | when every result has a URL, nothing is dropped or reordered |
| Brave.SanitizeIdempotent | brave_search_api.py:65-69 | sanitising twice is sanitising once |
| Brave.SearchWeb | brave_search_api.py:37-84 | a payload gives its sanitised results; request, parse and other failures each become their `ToolException` |
| Brave.SearchNews | brave_search_api.py:86-123 | only a failed request becomes a `ToolException`; other errors propagate unchanged |
| Brave.SearchSeesCappedCount | brave_search_api.py:52 | the request never asks for more than 20 results |
| Brave.EntryOf | brave_search_api.py:165-176 | one result's five fields, or `None` when a nested object is `null` |
| Brave.SanitizeImages | brave_search_api.py:163-176 | one entry per result, none dropped, in order, or a failure |
| Brave.SanitizeImageLoop | brave_search_api.py:164-176 | the loop computes `SanitizeImages` |
| Brave.FileName | brave_search_api.py:183 | starts with the basename, or with `img_` when it is empty, and ends in `.jpg` |
| Brave.FileNamesDistinct | brave_search_api.py:183 | different indices never share a file name |
| Brave.JoinPath | brave_search_api.py:184 | POSIX `os.path.join`: an absolute name replaces the directory, and a relative one ends the path |
| Brave.Planned | brave_search_api.py:180-185 | at most one download per entry |
| Brave.PlannedFiles | brave_search_api.py:180-183 | every planned file is named after an entry's index |
| Brave.PlannedFilesDistinct | brave_search_api.py:180-185 | no two downloads of one search write the same file |
| Brave.SaveAll | brave_search_api.py:180-210 | the i-th written path is the i-th planned file under the directory; without a failure every planned file is written |
| Brave.SaveImages | brave_search_api.py:179-185 | the download loop computes `SaveAll` |
| Brave.SearchImages | brave_search_api.py:125-194 | the method's answer is the specified one |
| Brave.ImageSearchShape | brave_search_api.py:148 | a basename without a directory fails the assertion; success keeps every result; files are written only with a directory, and never twice (also brave_search_api.py:179-194) |
| PlannerTools.Split | planner_tools.py:36 | `s.split(c)`: at least one part, and no part contains `c` |
| PlannerTools.SplitCount | planner_tools.py:36-37 | one more part than separators |
| PlannerTools.SplitJoin | planner_tools.py:36 | joining the parts with the separator gives the string back |
| PlannerTools.Ordered | planner_tools.py:48-58 | the two numbers in one of their two orders, and only when that order is a valid latitude and longitude |
| PlannerTools.ParseCoordinates | planner_tools.py:29-62 | a result is always a valid latitude and longitude |
| PlannerTools.ParseCoordinatesShape | planner_tools.py:34-62 | parses only with exactly one comma and two numbers; equals `Ordered`, so the ambiguous branch never changes the result |
| PlannerTools.Resolve | planner_tools.py:65-109 | blank input gives `None`; parsed coordinates are returned; otherwise the key is needed and the stripped string is geocoded |
| PlannerTools.CoordinatesNeedNoGeocoding | planner_tools.py:76-80 | a coordinate string needs neither the key nor the geocoder |
| PlannerTools.ForecastDays | planner_tools.py:139 | clamped into 1..5, and unchanged inside that range |
| PlannerTools.WeatherRequest | planner_tools.py:131-139 | the missing-key error, the coordinates error naming the city, or a forecast at the resolved position for 1..5 days |
| PlannerTools.ModeOf | planner_tools.py:273-298 | measured exactly when a summary has positive distance or duration, in km and minutes |
| PlannerTools.Recommended | planner_tools.py:302-303 | a measured mode with the least duration, none before it as short; `None` exactly when no mode is measured |
| PlannerTools.ModesFor | planner_tools.py:269-298 | one mode per profile, in profile order, each from its own request |
| PlannerTools.Segments | planner_tools.py:259-312 | one leg per consecutive pair, from and to the right locations, recommending the fastest mode |
| PlannerTools.ResolveAll | planner_tools.py:229-241 | all positions in `[lon, lat]` order, or the first location that does not resolve |
| PlannerTools.PlanRoute | planner_tools.py:216-225 | the missing ORS key error, then the under-two-locations error |
| PlannerTools.PlanShape | planner_tools.py:243-320 | once all resolve there is a plan; one leg per pair; totals sum the recommended modes; totals shown exactly when positive |
| PlannerTools.UnresolvedStopsPlanning | planner_tools.py:239-241 | planning stops at the first unresolved location and names it with its index |
| PlannerTools.SegmentAsksLonLat | planner_tools.py:233-272 | each request gets the two positions longitude first |
| PlannerTools.AskProfiles | planner_tools.py:269-298 | the profile loop computes `ModesFor` |
| PlannerTools.SegmentLoop | planner_tools.py:259-312 | the segment loop computes `Segments` and the running totals |
| PlannerTools.ResolveLoop | planner_tools.py:229-241 | the resolving loop computes `ResolveAll` |
| PlannerTools.PlanRouteOrs | planner_tools.py:204-322 | the method's answer is `PlanRoute` |
| PlannerTools.ModuleClient | planner_tools.py:326-333 | a client exists exactly when the Brave key is set |
| PlannerTools.ResultLines | planner_tools.py:354-356 | the header, then one block per result, in order |
| PlannerTools.WebSearch | planner_tools.py:341-362 | without a client, the unavailable error; with one, the sanitised results under their header, the no-results text for an empty answer, or the failure's message after its prefix |
| PlannerTools.WebSearchAsksAtMostFive | planner_tools.py:352 | at most five results are requested |
| PlannerTools.WebSearchFailuresAreMarked | planner_tools.py:349-362 | every failure starts with `Error:`, and an empty answer starts with "No web search results found" |
| PlannerTools.OperationalDetails | planner_tools.py:371-395 | with a client, the search text is returned exactly when it contains neither marker; in every other case the placeholder |
| PlannerTools.FailedSearchFallsBack | planner_tools.py:378-395 | a failed or empty search falls back to the placeholder |
| PlannerTools.IsoText | planner_tools.py:418-427 | the text parsed has no spaces and the same length |
| PlannerTools.CalendarDetails | planner_tools.py:423-436 | details in the order Event, Starts, Ends?, Location?, Notes?, each present exactly when truthy |
| PlannerTools.AddCalendarEvent | planner_tools.py:408-438 | rejects an unparsable start or end and an end before the start; a naive/aware comparison raises; an end before the start gets its own message; otherwise confirms with the details |
| PlannerTools.SeparatorsReadAlike | planner_tools.py:417-418 | a space or a `T` between date and time are parsed alike |

## Left out

- The language models and LangChain internals are left out: `AIMessageChunk.__add__`, prompt templates, `bind_tools`, tool argument coercion and `AgentExecutor`. A model is a function giving chunks, the combined tool calls and an optional exception. A LangChain tool is a partial function.
- Network I/O is left out: the Brave, OpenWeatherMap and OpenRouteService requests and the image download body (brave_search_api.py:196-210). Each is a parameter returning its reply or its failure.
- HTML parsing, PIL and base64 encoding (layout_chat.py:64-87), `json.dumps` and `datetime.fromisoformat` are parameters or given values. So are `float()` and its NaN/infinity cases, which fail every range check.
- Whitespace and `lower()` are ASCII only. Whitespace is the ASCII set of `str.isspace`: space, `\t`, `\n`, `\v`, `\f`, `\r` and `\x1c` to `\x1f`. Non-ASCII whitespace and case folding are not modelled.
- Floating point is not modelled. Distances and durations are reals. The weather aggregation (planner_tools.py:140-196) and the `:.2f`/`:.1f` formatting of the route summary are not modelled. A plan's legs carry the location strings; the formatted coordinates are not part of this model.
- `PlannerTools.Segment`: the leg text lines and the route summary's final string (planner_tools.py:264-322) are represented by the plan datatype, not rendered.
- The thread pools are left out (tools.py:81-90, tools.py:231-244, langchain_agent.py:93-102). The scrape results are reassembled by URL. The extraction order is an arbitrary given completion order.
- The file system and Flask plumbing are left out: folder clearing (optimized_langchain_agent.py:128-149), `serve_image`, `send_from_directory`, CORS, `Response` objects and the `/news` and `/links` endpoints.
- api.py:47 calls `run_layout`, which optimized_langchain_agent.py does not define, and tools.py:206 calls `.search`, which the client does not define. These calls are not resolved. The model takes the agent and the search as given functions.
- `time.time_ns()` ids and the current date are opaque values: a fresh id, and a given date string.
- Logging, `verbose` printing and `print()` to standard error are not modelled. The one `print()` in the final answer of optimized_langchain_agent.py:217 goes to standard output, not the stream, and is not modelled either.
- `sys.exit` in the constructors is not modelled. A constructed agent always has a model.
- The layout system prompt literal (layout_chat.py:41-62) is a constructor parameter of `LayoutChat.LayoutChat` rather than a constant.
- Key-value data is typed. A tool-call key holding `None` holds the empty string, which is falsy like `None`. A result key holding `None` is treated as absent, since `.get` answers `None` for both. Values of unexpected types, non-dict results and non-list chat histories are not modelled.
- `PlannerTools.WebSearch`: result fields are strings or missing, shown as `None` when missing. A non-string value's `str()` is not modelled.
- `Brave.SearchNews`, `Brave.SearchWeb` and `Brave.SearchImages`: the `JSONDecodeError` of `requests` is a `RequestException` in some versions; the model treats a malformed body as not a request failure, so those versions' "request failed" message for it is not modelled (brave_search_api.py:74-80, brave_search_api.py:189-192).
- `PlannerTools.Resolve`: the geocoder's reply is not range-checked, as in the code, and its request URL is not modelled.
- The request headers and HTTP timeouts of every client are not modelled.
- planner_apis_example.py and old_files/old_tools.py are not part of this model: the first is an interactive script, and every line of the second is commented out.

## Findings

| source | as written | input that shows it | evidently intended | confidence | as-written member | corrected member |
|---|---|---|---|---|---|---|
| api.py:112-138 | The strip decision is taken on the first token alone: `buffer` is always empty there, so a token that is only part of `<think>` makes the whole stream pass through. | tokens `["<th", "ink>hidden</think>", "Visible answer"]`: the think block is yielded. | Keep buffering while the text is a partial `<think>`, as the comment at api.py:132-134 and the flush at api.py:159-161 describe. | medium; not executed | ThinkFilter.SplitOpenLeaks | ThinkFilter.StripLeadingThink |
| optimized_langchain_agent.py:166-168 | The prompt is the template over `messages[:-1]` plus `messages` again, so every message but the last is sent twice. | a run whose first response asks for a tool: the second call receives the task twice. | The system prompt followed by the history once, as the comment "Pass the full history" says. | medium; not executed | OptimizedAgent.AsWrittenSecondCallRepeatsTask | OptimizedAgent.CorrectedRunTrace |
