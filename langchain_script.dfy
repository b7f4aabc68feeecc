/** langchain.py: its `search_and_scrape_web` tool, which scrapes the hits
    one after the other and turns every failure of the search into a
    `ToolException` of its own, and `LangchainAgent.run`, which writes the
    executor's `output` chunks to standard output and always ends the
    output with a newline.

    The `AgentExecutor` is not part of this model: `run` is given the
    `output` value of each chunk the executor streams (`None` when the
    chunk has none) and, optionally, the text of the exception that ended
    the stream. */
module LangchainScript {
  import opened Text
  import opened WebText

  const ClientMissing: string := "Brave search client not available (check API key and import). Cannot perform search."
  const KNotPositive: string := "Number of results to scrape (k) must be positive."

  function Unexpected(e: string): string {
    "An unexpected error occurred within the search/scrape tool: " + e
  }

  /** What this file's `_scrape_and_extract_text(url)` returns: only runs
      of two or more whitespace characters are collapsed. */
  function LooseContent(page: Page): (r: Option<string>)
    ensures r.Some? <==> page.Html?
    ensures r.Some? ==> |r.value| <= 4000
  {
    match page
      case Html(text) => Some(LooseScrapeTail(text, 4000))
      case _ => None
  }

  /** One entry per hit with a URL, in hit order; hits without one are
      skipped. */
  function ScrapeHits(hits: seq<Hit>, fetch: string -> Page): (r: seq<Scraped>)
    ensures |r| == |HitUrls(hits)|
    ensures forall i :: 0 <= i < |r| ==> r[i] == Scraped(HitUrls(hits)[i], LooseContent(fetch(HitUrls(hits)[i])))
  {
    if hits == [] then []
    else
      var h := hits[|hits| - 1];
      ScrapeHits(hits[..|hits| - 1], fetch) + (if h.url != [] then [Scraped(h.url, LooseContent(fetch(h.url)))] else [])
  }

  /** `search_and_scrape_web`: the client and `k` checks, then the search;
      any exception of the search, `ToolException` included, comes back
      wrapped in the "unexpected error" message. */
  function SearchAndScrape(clientAvailable: bool, query: string, k: int,
                           search: (string, nat) -> SearchReply, fetch: string -> Page): (r: ToolReply<seq<Scraped>>)
    ensures !clientAvailable ==> r == ToolError(ClientMissing)
    ensures clientAvailable && k <= 0 ==> r == ToolError(KNotPositive)
    ensures clientAvailable && k > 0 ==>
      match search(query, if k < 5 then k else 5)
        case SearchFailed(_, message) => r == ToolError(Unexpected(message))
        case Found(hits) => r == Done(ScrapeHits(hits, fetch))
  {
    var count := if k < 5 then k else 5;
    if !clientAvailable then ToolError(ClientMissing)
    else if count <= 0 then ToolError(KNotPositive)
    else match search(query, count)
      case SearchFailed(_, message) => ToolError(Unexpected(message))
      case Found(hits) => Done(ScrapeHits(hits, fetch))
  }

  /** The sequential scraping loop; `Done(entries)` stands for the
      dictionary `{"results": entries}`. */
  method SearchAndScrapeWeb(clientAvailable: bool, query: string, k: int,
                            search: (string, nat) -> SearchReply, fetch: string -> Page)
    returns (reply: ToolReply<seq<Scraped>>)
    ensures reply == SearchAndScrape(clientAvailable, query, k, search, fetch)
  {
    if !clientAvailable {
      return ToolError(ClientMissing);
    }
    var count := if k < 5 then k else 5;
    if count <= 0 {
      return ToolError(KNotPositive);
    }
    var answer := search(query, count);
    if answer.SearchFailed? {
      return ToolError(Unexpected(answer.message));
    }
    var hits := answer.hits;
    var scraped: seq<Scraped> := [];
    for i := 0 to |hits|
      invariant scraped == ScrapeHits(hits[..i], fetch)
    {
      assert hits[..i + 1][..i] == hits[..i];
      var url := hits[i].url;
      if url != [] {
        var content := LooseContent(fetch(url));
        scraped := scraped + [Scraped(url, content)];
      }
    }
    assert hits[..|hits|] == hits;
    reply := Done(scraped);
  }

  /** Single whitespace characters are kept as they are (a lone newline
      stays a newline): text without adjacent whitespace and without
      leading or trailing whitespace comes back whole when it fits. */
  lemma {:induction false} LooseContentKeepsTidyText(text: string)
    requires NoAdjacentSpace(text) && |text| <= 4000
    requires text == [] || (!IsSpace(text[0]) && !IsSpace(text[|text| - 1]))
    ensures LooseContent(Html(text)) == Some(text)
  {
    CollapseLongRunsFixed(text);
    assert LeadingSpace(text) == 0;
    assert text[0..] == text;
    assert TrailingSpace(text) == 0;
    assert text[..|text|] == text;
  }

  // ---------------------------------------------------------------------
  // run

  /** The truthy `output` values, in order. */
  function Outputs(chunks: seq<Option<string>>): (r: seq<string>)
    ensures |r| <= |chunks|
    ensures forall i :: 0 <= i < |r| ==> r[i] != []
    ensures forall s :: s in r <==> Some(s) in chunks && s != []
  {
    if chunks == [] then []
    else
      var c := chunks[|chunks| - 1];
      assert forall x :: x in chunks <==> x in chunks[..|chunks| - 1] || x == c;
      Outputs(chunks[..|chunks| - 1]) + (if c.Some? && c.value != [] then [c.value] else [])
  }

  /** The `print` of an exception: the message and `print`'s newline. */
  function ErrorLine(e: string): string {
    "\n[Agent Error: " + e + "]\n"
  }

  /** The two headers `run` prints before streaming. */
  function Headers(task: string): string {
    "\n--- Task Received ---\n" + task + "\n" + "\n--- Agent Response ---\n"
  }

  /** The text `run` writes to standard output: the headers, the outputs,
      the error line if the stream raised, and the final newline. */
  function Stdout(task: string, chunks: seq<Option<string>>, failure: Option<string>): string {
    Headers(task) + Concat(Outputs(chunks)) + (if failure.Some? then ErrorLine(failure.value) else []) + "\n"
  }

  /** `run`: the text written, and `full_response`. */
  method Run(task: string, chunks: seq<Option<string>>, failure: Option<string>) returns (written: string, fullResponse: string)
    ensures written == Stdout(task, chunks, failure)
    ensures fullResponse == Concat(Outputs(chunks))
  {
    var headers := Headers(task);
    written, fullResponse := headers, [];
    for i := 0 to |chunks|
      invariant fullResponse == Concat(Outputs(chunks[..i]))
      invariant written == headers + fullResponse
    {
      var output := chunks[i];
      OutputsStep(chunks, i);
      if output.Some? && output.value != [] {
        ConcatSnoc(Outputs(chunks[..i]), output.value);
        fullResponse := fullResponse + output.value;
        AppendAssoc(headers, Concat(Outputs(chunks[..i])), output.value);
        written := written + output.value;
      }
    }
    assert chunks[..|chunks|] == chunks;
    var newline := "\n";
    if failure.Some? {
      written := written + ErrorLine(failure.value) + newline;
    } else {
      written := written + newline;
    }
  }

  /** One more chunk adds its output when it is truthy, and nothing otherwise. */
  lemma {:induction false} OutputsStep(chunks: seq<Option<string>>, i: nat)
    requires i < |chunks|
    ensures chunks[i].Some? && chunks[i].value != [] ==> Outputs(chunks[..i + 1]) == Outputs(chunks[..i]) + [chunks[i].value]
    ensures !(chunks[i].Some? && chunks[i].value != []) ==> Outputs(chunks[..i + 1]) == Outputs(chunks[..i])
  {
    assert chunks[..i + 1][..i] == chunks[..i];
    assert Outputs(chunks[..i]) + [] == Outputs(chunks[..i]);
  }

  /** The output always ends with a newline, and after the headers come
      the streamed outputs, in order. */
  lemma {:induction false} StdoutShape(task: string, chunks: seq<Option<string>>, failure: Option<string>)
    ensures EndsWith(Stdout(task, chunks, failure), "\n")
    ensures StartsWith(Stdout(task, chunks, failure), Headers(task) + Concat(Outputs(chunks)))
  {
    var s := Stdout(task, chunks, failure);
    assert s[|s| - 1] == '\n';
  }
}
