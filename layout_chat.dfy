/** layout_chat.py: `LayoutChat` sends a text and two optional lists of
    images to a vision model, streams the model's answer and keeps a
    bounded history of its own exchanges.

    An image is given as what the libraries make of it: the format the
    imaging library reports (`None` when there is none or the file cannot
    be opened) and the base64 encoding `_encode_image` returns (empty when
    encoding failed).  A list given as `None` is the empty list. */
module LayoutChat {
  import opened Text
  import opened Messages

  datatype Image = Image(format: Option<string>, encoding: string)

  /** `_get_image_mime_type` */
  function MimeType(format: Option<string>): string {
    if format == Some("JPEG") then "image/jpeg"
    else if format == Some("PNG") then "image/png"
    else if format == Some("GIF") then "image/gif"
    else if format == Some("WEBP") then "image/webp"
    else "image/png"
  }

  /** Each of the four known formats has its own type, and everything else
      (another format, no format, an image that cannot be opened) is taken
      for PNG. */
  lemma {:induction false} MimeTypeCases(format: Option<string>)
    ensures MimeType(format) == "image/jpeg" <==> format == Some("JPEG")
    ensures MimeType(format) == "image/gif" <==> format == Some("GIF")
    ensures MimeType(format) == "image/webp" <==> format == Some("WEBP")
    ensures MimeType(format) == "image/png" <==> format != Some("JPEG") && format != Some("GIF") && format != Some("WEBP")
  {
  }

  function DataUrl(image: Image): string {
    "data:" + MimeType(image.format) + ";base64," + image.encoding
  }

  // ---------------------------------------------------------------------
  // The human message

  /** The text part that opens the human message. */
  const Intro: string :=
    "Please reformat and enhance the following main content. "
    + "If 'content images' are provided (see below), integrate their context. "
    + "Use any 'layout inspiration screenshots' (also below) to guide the visual style. "
    + "Respond only with the enhanced markdown content.\n\n"

  function MainText(agentOutput: string): string {
    Intro + "Main Content:\n---\n" + agentOutput + "\n---"
  }

  /** The two image lists, with their own header, label and note texts. */
  datatype Section = ContentImages | LayoutInspiration

  const ContentHeader: string := "\n\n--- Content Images (for integration) ---"
  const LayoutHeader: string := "\n\n--- Layout Inspiration Screenshots (for visual style guidance only) ---"

  function Header(section: Section): string {
    match section
      case ContentImages => ContentHeader
      case LayoutInspiration => LayoutHeader
  }

  const ContentLabel: string := "[Content Image "
  const LayoutLabel: string := "[Layout Inspiration Screenshot "
  const ContentLabelEnd: string := " provided for context]"
  const LayoutLabelEnd: string := " provided for style]"
  const ContentNote: string := "[Note: Content Image "
  const LayoutNote: string := "[Note: Layout Inspiration Screenshot "
  const NoteEnd: string := " could not be processed.]"

  /** The label after the `n`-th image (counting from 1). */
  function Label(section: Section, n: nat): string {
    match section
      case ContentImages => ContentLabel + NatToString(n) + ContentLabelEnd
      case LayoutInspiration => LayoutLabel + NatToString(n) + LayoutLabelEnd
  }

  /** The note that replaces the `n`-th image when it could not be encoded. */
  function Note(section: Section, n: nat): string {
    match section
      case ContentImages => ContentNote + NatToString(n) + NoteEnd
      case LayoutInspiration => LayoutNote + NatToString(n) + NoteEnd
  }

  /** The parts the `n`-th image adds: the image and its label, or the note. */
  function ImagePartsOf(section: Section, n: nat, image: Image): (r: seq<ContentPart>)
    ensures image.encoding != [] ==> r == [ImageUrlPart(DataUrl(image)), TextPart(Label(section, n))]
    ensures image.encoding == [] ==> r == [TextPart(Note(section, n))]
  {
    if image.encoding != [] then [ImageUrlPart(DataUrl(image)), TextPart(Label(section, n))]
    else [TextPart(Note(section, n))]
  }

  /** How many of the images were encoded. */
  function Processed(images: seq<Image>): (n: nat)
    ensures n <= |images|
  {
    if images == [] then 0
    else Processed(images[..|images| - 1]) + (if images[|images| - 1].encoding != [] then 1 else 0)
  }

  /** The parts of all images, in order. */
  function ImageParts(section: Section, images: seq<Image>): (r: seq<ContentPart>)
    ensures |r| == |images| + Processed(images)
  {
    if images == [] then []
    else ImageParts(section, images[..|images| - 1]) + ImagePartsOf(section, |images|, images[|images| - 1])
  }

  /** One more image adds its own parts at the end. */
  lemma {:induction false} ImagePartsStep(section: Section, images: seq<Image>, k: nat)
    requires k < |images|
    ensures ImageParts(section, images[..k + 1]) == ImageParts(section, images[..k]) + ImagePartsOf(section, k + 1, images[k])
  {
    assert images[..k + 1][..k] == images[..k];
  }

  /** The parts of the first images come first. */
  lemma {:induction false} ImagePartsPrefix(section: Section, images: seq<Image>, k: nat)
    requires k <= |images|
    ensures var p := ImageParts(section, images[..k]);
      |p| <= |ImageParts(section, images)| && ImageParts(section, images)[..|p|] == p
    decreases |images| - k
  {
    if k < |images| {
      ImagePartsPrefix(section, images, k + 1);
      ImagePartsStep(section, images, k);
      var p := ImageParts(section, images[..k]);
      var q := ImageParts(section, images[..k + 1]);
      var whole := ImageParts(section, images);
      assert q[..|p|] == p;
      assert whole[..|p|] == whole[..|q|][..|p|];
    } else {
      assert images[..k] == images;
    }
  }

  /** The `k`-th image's parts sit right after those of the images before
      it: at offset `k` plus the number of those that were encoded. */
  lemma {:induction false} ImagePartsAt(section: Section, images: seq<Image>, k: nat)
    requires k < |images|
    ensures var at := k + Processed(images[..k]);
      var mine := ImagePartsOf(section, k + 1, images[k]);
      at + |mine| <= |ImageParts(section, images)| &&
      ImageParts(section, images)[at..at + |mine|] == mine
  {
    ImagePartsPrefix(section, images, k + 1);
    ImagePartsStep(section, images, k);
    var p := ImageParts(section, images[..k]);
    var mine := ImagePartsOf(section, k + 1, images[k]);
    var q := ImageParts(section, images[..k + 1]);
    var whole := ImageParts(section, images);
    assert |p| == k + Processed(images[..k]);
    assert whole[..|q|] == q == p + mine;
    assert whole[|p|..|p| + |mine|] == q[|p|..] == mine;
  }

  /** An image list adds its header and its parts, and nothing when empty. */
  function SectionParts(section: Section, images: seq<Image>): (r: seq<ContentPart>)
    ensures images == [] ==> r == []
    ensures |r| == (if images == [] then 0 else 1 + |ImageParts(section, images)|)
    ensures images != [] ==> r[0] == TextPart(Header(section)) && r[1..] == ImageParts(section, images)
  {
    if images == [] then [] else [TextPart(Header(section))] + ImageParts(section, images)
  }

  /** The content of the human message: the main text (`MainText` of the
      agent's output), then the content images' section, then the
      screenshots' section. */
  function HumanParts(mainText: string, content: seq<Image>, layout: seq<Image>): (r: seq<ContentPart>)
    ensures |r| == 1 + |SectionParts(ContentImages, content)| + |SectionParts(LayoutInspiration, layout)|
    ensures r[0] == TextPart(mainText)
  {
    [TextPart(mainText)] + SectionParts(ContentImages, content) + SectionParts(LayoutInspiration, layout)
  }

  /** The content images' section comes right after the main text, and the
      screenshots' section closes the message. */
  lemma {:induction false} HumanPartsSections(mainText: string, content: seq<Image>, layout: seq<Image>)
    ensures var r := HumanParts(mainText, content, layout);
      var c := SectionParts(ContentImages, content);
      r[1..1 + |c|] == c && r[1 + |c|..] == SectionParts(LayoutInspiration, layout)
  {
    var c := SectionParts(ContentImages, content);
    var l := SectionParts(LayoutInspiration, layout);
    AppendAssoc([TextPart(mainText)], c, l);
    SliceOfSecond([TextPart(mainText)], c + l, 0, |c|);
    SliceOfFirst(c, l, 0, |c|);
    SliceOfSecond([TextPart(mainText)] + c, l, 0, |l|);
  }

  /** The loop that adds one list's parts, with the count it keeps. */
  method AppendImageParts(section: Section, images: seq<Image>) returns (parts: seq<ContentPart>, processed: nat)
    ensures parts == ImageParts(section, images)
    ensures processed == Processed(images)
  {
    parts, processed := [], 0;
    for i := 0 to |images|
      invariant parts == ImageParts(section, images[..i])
      invariant processed == Processed(images[..i])
    {
      assert images[..i + 1][..i] == images[..i];
      var image := images[i];
      if image.encoding != [] {
        parts := parts + [ImageUrlPart(DataUrl(image)), TextPart(Label(section, i + 1))];
        processed := processed + 1;
      } else {
        parts := parts + [TextPart(Note(section, i + 1))];
      }
    }
    assert images[..|images|] == images;
  }

  /** The part of `run` that assembles the human message. */
  method BuildHumanParts(agentOutput: string, contentImages: seq<Image>, layoutImages: seq<Image>)
    returns (parts: seq<ContentPart>)
    ensures parts == HumanParts(MainText(agentOutput), contentImages, layoutImages)
  {
    var mainText := MainText(agentOutput);
    var content: seq<ContentPart> := [];
    if contentImages != [] {
      var imageParts, processed := AppendImageParts(ContentImages, contentImages);
      content := [TextPart(Header(ContentImages))] + imageParts;
    }
    assert content == SectionParts(ContentImages, contentImages);
    var layout: seq<ContentPart> := [];
    if layoutImages != [] {
      var imageParts, processed := AppendImageParts(LayoutInspiration, layoutImages);
      layout := [TextPart(Header(LayoutInspiration))] + imageParts;
    }
    assert layout == SectionParts(LayoutInspiration, layoutImages);
    parts := [TextPart(mainText)] + content + layout;
  }

  // ---------------------------------------------------------------------
  // The history

  const ErrorKind: string := "Error processing text"
  const SuccessKind: string := "Reformatted text"

  /** What one run records about its request. */
  function Summary(kind: string, agentOutput: string, content: seq<Image>, layout: seq<Image>): string {
    kind + ". Input length: " + NatToString(|agentOutput|) + ". "
    + "Content images: " + NatToString(|content|) + ". "
    + "Layout inspiration: " + NatToString(|layout|) + "."
  }

  function StreamError(e: string): string {
    "[LayoutChat Error: Error during layout model streaming: " + e + "]"
  }

  /** The last ten entries, or all when there are no more than ten. */
  function Trimmed(history: seq<Message>): (r: seq<Message>)
    ensures |r| <= 10 && |r| <= |history|
    ensures r == history[|history| - |r|..]
    ensures |history| <= 10 ==> r == history
  {
    if |history| > 10 then history[|history| - 10..] else history
  }

  /** The prompt of one run: the system prompt, the history, the request. */
  function Prompt(systemPrompt: string, history: seq<Message>, agentOutput: string, content: seq<Image>, layout: seq<Image>): (r: seq<Message>)
    ensures |r| == |history| + 2 && r[1..|r| - 1] == history
    ensures r[0] == SystemMessage(systemPrompt)
    ensures r[|r| - 1] == HumanMessage(Parts(HumanParts(MainText(agentOutput), content, layout)))
  {
    [SystemMessage(systemPrompt)] + history + [HumanMessage(Parts(HumanParts(MainText(agentOutput), content, layout)))]
  }

  /** What a run yields for the model's answer. */
  function Yielded(r: Response): seq<string> {
    Streamed(r.chunks) + (if r.failure.Some? then [StreamError(r.failure.value)] else [])
  }

  /** The history after a run that got the answer `r`. */
  function Recorded(history: seq<Message>, agentOutput: string, content: seq<Image>, layout: seq<Image>, r: Response): seq<Message> {
    if r.failure.Some? then
      history + [HumanMessage(Plain(Summary(ErrorKind, agentOutput, content, layout))),
                 AIMessage(StreamError(r.failure.value), [])]
    else
      Trimmed(history + [HumanMessage(Plain(Summary(SuccessKind, agentOutput, content, layout))),
                         AIMessage(StreamText(r.chunks), [])])
  }

  /** The history holds request/answer pairs: a human entry, then an AI
      entry, and so on. */
  predicate Paired(history: seq<Message>)
    decreases |history|
  {
    history == [] ||
    (|history| >= 2 && history[0].HumanMessage? && history[1].AIMessage? && Paired(history[2..]))
  }

  lemma {:induction false} PairedEven(history: seq<Message>)
    requires Paired(history)
    ensures |history| % 2 == 0
    decreases |history|
  {
    if history != [] {
      PairedEven(history[2..]);
    }
  }

  /** A request and its answer appended keep the pairs. */
  lemma {:induction false} PairedAppend(history: seq<Message>, request: Message, answer: Message)
    requires Paired(history) && request.HumanMessage? && answer.AIMessage?
    ensures Paired(history + [request, answer])
    decreases |history|
  {
    if history != [] {
      PairedAppend(history[2..], request, answer);
      assert (history + [request, answer])[2..] == history[2..] + [request, answer];
    } else {
      assert ([request, answer])[2..] == [];
    }
  }

  /** Dropping an even number of oldest entries keeps the pairs. */
  lemma {:induction false} PairedDrop(history: seq<Message>, d: nat)
    requires Paired(history) && d <= |history| && d % 2 == 0
    ensures Paired(history[d..])
    decreases d
  {
    if d > 0 {
      PairedDrop(history[2..], d - 2);
      assert history[2..][d - 2..] == history[d..];
    }
  }

  /** A run keeps the pairs, on success and on failure. */
  lemma {:induction false} RecordedKeepsPairs(history: seq<Message>, agentOutput: string, content: seq<Image>, layout: seq<Image>, r: Response)
    requires Paired(history)
    ensures Paired(Recorded(history, agentOutput, content, layout, r))
  {
    var summary := Summary(if r.failure.Some? then ErrorKind else SuccessKind, agentOutput, content, layout);
    var reply := if r.failure.Some? then StreamError(r.failure.value) else StreamText(r.chunks);
    var whole := history + [HumanMessage(Plain(summary)), AIMessage(reply, [])];
    PairedAppend(history, HumanMessage(Plain(summary)), AIMessage(reply, []));
    PairedEven(whole);
    if r.failure.None? && |whole| > 10 {
      PairedDrop(whole, |whole| - 10);
    }
  }

  /** On success the history keeps at most ten entries, the latest, ending
      with the new request and the answer's full text. */
  lemma {:induction false} SuccessKeepsLatestTen(history: seq<Message>, agentOutput: string, content: seq<Image>, layout: seq<Image>, r: Response)
    requires r.failure.None?
    ensures var h := Recorded(history, agentOutput, content, layout, r);
      var whole := history + [HumanMessage(Plain(Summary(SuccessKind, agentOutput, content, layout))), AIMessage(StreamText(r.chunks), [])];
      |h| == (if |whole| > 10 then 10 else |whole|) && h == whole[|whole| - |h|..] &&
      h[|h| - 1] == AIMessage(Concat(Yielded(r)), [])
  {
    StreamedJoinsToText(r.chunks);
    assert Yielded(r) == Streamed(r.chunks);
  }

  /** On failure nothing is dropped: the history grows by two entries, the
      second holding the error that was yielded last. */
  lemma {:induction false} FailureKeepsAll(history: seq<Message>, agentOutput: string, content: seq<Image>, layout: seq<Image>, r: Response)
    requires r.failure.Some?
    ensures var h := Recorded(history, agentOutput, content, layout, r);
      |h| == |history| + 2 && h[..|history|] == history &&
      h[|h| - 1] == AIMessage(Yielded(r)[|Yielded(r)| - 1], [])
  {
  }

  /** Repeated failures grow the history past ten entries. */
  lemma {:induction false} FailuresGrowHistory(history: seq<Message>, agentOutput: string, content: seq<Image>, layout: seq<Image>, r: Response, n: nat)
    requires r.failure.Some?
    ensures |Repeat(history, agentOutput, content, layout, r, n)| == |history| + 2 * n
  {
    if n > 0 {
      FailuresGrowHistory(history, agentOutput, content, layout, r, n - 1);
    }
  }

  /** The history after `n` runs with the same request and answer. */
  function Repeat(history: seq<Message>, agentOutput: string, content: seq<Image>, layout: seq<Image>, r: Response, n: nat): seq<Message> {
    if n == 0 then history
    else Recorded(Repeat(history, agentOutput, content, layout, r, n - 1), agentOutput, content, layout, r)
  }

  // ---------------------------------------------------------------------
  // The chat

  class LayoutChat {
    const layoutSystemPrompt: string
    var chatHistory: seq<Message>

    /** The history alternates human and AI entries.  No operation needs
        it; every operation keeps it, as an invariant of the class. */
    predicate Valid()
      reads this
    {
      Paired(chatHistory)
    }

    /** `__init__`, given the system prompt it sets up. */
    constructor(systemPrompt: string)
      ensures layoutSystemPrompt == systemPrompt
      ensures chatHistory == [] && Valid()
    {
      layoutSystemPrompt := systemPrompt;
      chatHistory := [];
    }

    /** The end of `run`: the summary of the request and the answer (or the
        error) are appended, and on success only the last ten entries are
        kept. */
    method Record(agentOutput: string, contentImages: seq<Image>, layoutImages: seq<Image>, response: Response)
      modifies this
      ensures chatHistory == Recorded(old(chatHistory), agentOutput, contentImages, layoutImages, response)
      ensures old(Valid()) ==> Valid()
    {
      if Paired(chatHistory) {
        RecordedKeepsPairs(chatHistory, agentOutput, contentImages, layoutImages, response);
      }
      if response.failure.Some? {
        var error := StreamError(response.failure.value);
        var summary := Summary(ErrorKind, agentOutput, contentImages, layoutImages);
        chatHistory := chatHistory + [HumanMessage(Plain(summary)), AIMessage(error, [])];
        return;
      }
      StreamedJoinsToText(response.chunks);
      var finalResponse := Concat(Streamed(response.chunks));
      var summary := Summary(SuccessKind, agentOutput, contentImages, layoutImages);
      chatHistory := chatHistory + [HumanMessage(Plain(summary)), AIMessage(finalResponse, [])];
      if |chatHistory| > 10 {
        chatHistory := chatHistory[|chatHistory| - 10..];
      }
    }

    /** `run`: builds the request, streams the answer and records the
        exchange.  `stream` is the layout model. */
    method Run(agentOutput: string, contentImages: seq<Image>, layoutImages: seq<Image>, stream: seq<Message> -> Response)
      returns (out: seq<string>)
      modifies this
      ensures out == Yielded(stream(Prompt(layoutSystemPrompt, old(chatHistory), agentOutput, contentImages, layoutImages)))
      ensures chatHistory == Recorded(old(chatHistory), agentOutput, contentImages, layoutImages,
                                      stream(Prompt(layoutSystemPrompt, old(chatHistory), agentOutput, contentImages, layoutImages)))
      ensures old(Valid()) ==> Valid()
    {
      var parts := BuildHumanParts(agentOutput, contentImages, layoutImages);
      ghost var before := chatHistory;
      var prompt := [SystemMessage(layoutSystemPrompt)] + chatHistory + [HumanMessage(Parts(parts))];
      assert prompt == Prompt(layoutSystemPrompt, before, agentOutput, contentImages, layoutImages);
      var response := stream(prompt);
      out := [];
      for i := 0 to |response.chunks|
        invariant out == Streamed(response.chunks[..i])
        invariant chatHistory == before
      {
        AIContentsStep(response.chunks, i);
        var chunk := response.chunks[i];
        if chunk.AIChunk? && chunk.content != [] {
          out := out + [chunk.content];
        }
      }
      assert response.chunks[..|response.chunks|] == response.chunks;
      if response.failure.Some? {
        out := out + [StreamError(response.failure.value)];
      }
      Record(agentOutput, contentImages, layoutImages, response);
    }
  }
}
