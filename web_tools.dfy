/** The search tools of tools.py: `search_and_scrape_web` (search, scrape
    every hit that has a URL, answer one entry per URL in search order),
    `_extract_links_and_metadata` (the links of a page, normalised,
    described, de-duplicated and capped) and `find_interesting_links`
    (search hits first, then the links extracted from their pages, merged,
    de-duplicated and capped).

    The search client, the page fetches and the thread pool are inputs: the
    client's answer, what each URL's page gave, and the order in which the
    extraction threads finished. */
module WebTools {
  import opened Text
  import opened WebText

  // ---------------------------------------------------------------------
  // search_and_scrape_web

  const ClientMissing: string := "Brave search client not available."
  const KNotPositive: string := "k must be positive."

  /** `min(k, 5)` */
  function ScrapeCount(k: int): (n: int)
    ensures n <= 5 && n <= k && (n == 5 || n == k)
  {
    if k < 5 then k else 5
  }

  /** What `_scrape_and_extract_text(url)` returns for the page it fetched. */
  function ScrapeContent(page: Page): (r: Option<string>)
    ensures r.Some? <==> page.Html?
    ensures r.Some? ==> |r.value| <= 4000
  {
    match page
      case Html(text) => Some(ScrapeTail(text, 4000))
      case _ => None
  }

  /** The tool's answer: `{"results": [...]}`, or the `ToolException`. */
  function SearchAndScrape(clientAvailable: bool, query: string, k: int,
                           search: (string, nat) -> SearchReply, fetch: string -> Page): (r: ToolReply<seq<Scraped>>)
    ensures !clientAvailable ==> r == ToolError(ClientMissing)
    ensures clientAvailable && k <= 0 ==> r == ToolError(KNotPositive)
    ensures clientAvailable && k > 0 ==>
      match search(query, ScrapeCount(k))
        case SearchFailed(reraised, message) =>
          r == ToolError(if reraised then message else "Unexpected error in search/scrape tool: " + message)
        case Found(_) => r.Done?
  {
    if !clientAvailable then ToolError(ClientMissing)
    else if ScrapeCount(k) <= 0 then ToolError(KNotPositive)
    else match search(query, ScrapeCount(k))
      case SearchFailed(true, message) => ToolError(message)
      case SearchFailed(false, message) => ToolError("Unexpected error in search/scrape tool: " + message)
      case Found(hits) =>
        var urls := HitUrls(hits);
        if urls == [] then Done([])
        else Done(seq(|urls|, i requires 0 <= i < |urls| => Scraped(urls[i], ScrapeContent(fetch(urls[i])))))
  }

  /** The loop over the finished futures: one content per URL. */
  method ScrapeAll(urls: seq<string>, fetch: string -> Page) returns (contents: map<string, Option<string>>)
    ensures forall u :: u in contents <==> u in urls
    ensures forall u :: u in contents ==> contents[u] == ScrapeContent(fetch(u))
  {
    contents := map[];
    for i := 0 to |urls|
      invariant forall u :: u in contents <==> u in urls[..i]
      invariant forall u :: u in contents ==> contents[u] == ScrapeContent(fetch(u))
    {
      assert urls[..i + 1] == urls[..i] + [urls[i]];
      contents := contents[urls[i] := ScrapeContent(fetch(urls[i]))];
    }
    assert urls[..|urls|] == urls;
  }

  /** `search_and_scrape_web`, with the contents gathered in a map and the
      entries listed in the order of the URLs. */
  method SearchAndScrapeWeb(clientAvailable: bool, query: string, k: int,
                            search: (string, nat) -> SearchReply, fetch: string -> Page)
    returns (reply: ToolReply<seq<Scraped>>)
    ensures reply == SearchAndScrape(clientAvailable, query, k, search, fetch)
  {
    if !clientAvailable {
      return ToolError(ClientMissing);
    }
    var count := if k < 5 then k else 5;
    if count <= 0 {
      return ToolError(KNotPositive);
    }
    var answer := search(query, count);
    if answer.SearchFailed? {
      if answer.toolException {
        return ToolError(answer.message);
      }
      return ToolError("Unexpected error in search/scrape tool: " + answer.message);
    }
    var urls := HitUrls(answer.hits);
    if urls == [] {
      return Done([]);
    }
    var contents := ScrapeAll(urls, fetch);
    var results: seq<Scraped> := [];
    for i := 0 to |urls|
      invariant |results| == i
      invariant forall j :: 0 <= j < i ==> results[j] == Scraped(urls[j], ScrapeContent(fetch(urls[j])))
    {
      results := results + [Scraped(urls[i], contents[urls[i]])];
    }
    assert results == seq(|urls|, i requires 0 <= i < |urls| => Scraped(urls[i], ScrapeContent(fetch(urls[i]))));
    reply := Done(results);
  }

  /** The answer has exactly one entry per search hit that has a URL, in
      search order, whatever order the scrapes finished in; each entry's
      content is `None` exactly when its page was not scraped, and
      otherwise the page's cleaned text. */
  lemma {:induction false} SearchAndScrapeEntries(query: string, k: int, search: (string, nat) -> SearchReply, fetch: string -> Page)
    requires 0 < k && search(query, ScrapeCount(k)).Found?
    ensures var r := SearchAndScrape(true, query, k, search, fetch);
      var urls := HitUrls(search(query, ScrapeCount(k)).hits);
      r.Done? && |r.value| == |urls| &&
      forall i :: 0 <= i < |urls| ==>
        r.value[i].url == urls[i] && r.value[i].url != [] &&
        (r.value[i].content.None? <==> !fetch(urls[i]).Html?) &&
        (fetch(urls[i]).Html? ==> r.value[i].content == Some(ScrapeTail(fetch(urls[i]).text, 4000)))
  {
  }

  /** A hit list without URLs answers `{"results": []}`. */
  lemma {:induction false} NoUrlsNoResults(query: string, k: int, search: (string, nat) -> SearchReply, fetch: string -> Page)
    requires 0 < k && search(query, ScrapeCount(k)).Found?
    requires forall h :: h in search(query, ScrapeCount(k)).hits ==> h.url == []
    ensures SearchAndScrape(true, query, k, search, fetch) == Done([])
  {
    HitUrlsNone(search(query, ScrapeCount(k)).hits);
  }

  // ---------------------------------------------------------------------
  // _extract_links_and_metadata

  /** An `<a href>` of a page: its `href`, its stripped text, and the
      stripped text of its nearest `p`, `div` or `li` parent, if any. */
  datatype Anchor = Anchor(href: string, text: string, parentText: Option<string>)

  /** What fetching a page for its links gave. */
  datatype Fetched = NotHtmlPage | FetchFailed | Anchors(anchors: seq<Anchor>)

  /** One link: `url`, `title`, `description`, and `source` once tagged. */
  datatype Link = Link(url: string, title: string, description: string, source: Option<string>)

  /** The URL an `href` leads to, if it is kept: empty, `javascript:` and
      `#` links are skipped; a link starting with `/` is prefixed with the
      page's `scheme://netloc` (`origin`); other links are kept only when
      they start with `http://` or `https://`. */
  function LinkTarget(origin: string, href: string): (r: Option<string>)
    ensures var h := Strip(href);
      (h == [] || StartsWith(h, "javascript:") || StartsWith(h, "#")) ==> r.None?
    ensures var h := Strip(href);
      h != [] && !StartsWith(h, "javascript:") && !StartsWith(h, "#") && StartsWith(h, "/") ==> r == Some(origin + h)
    ensures var h := Strip(href);
      !StartsWith(h, "/") ==> (r.Some? <==> StartsWith(h, "http://") || StartsWith(h, "https://"))
    ensures var h := Strip(href);
      !StartsWith(h, "/") && r.Some? ==> r.value == h
  {
    var h := Strip(href);
    if h == [] || StartsWith(h, "javascript:") || StartsWith(h, "#") then None
    else if StartsWith(h, "/") then Some(origin + h)
    else if StartsWith(h, "http://") || StartsWith(h, "https://") then Some(h)
    else None
  }

  /** The anchor's text, or `Link from <page url>` when it is empty. */
  function LinkTitle(pageUrl: string, text: string): (r: string)
    ensures r != []
    ensures text != [] ==> r == text
  {
    if text != [] then text else "Link from " + pageUrl
  }

  /** The parent's text with the first occurrence of the title cut out and
      stripped, shortened to 197 characters and `...` beyond 200. */
  function Description(parentText: Option<string>, title: string): (r: string)
    ensures |r| <= 200
    ensures parentText.None? || parentText.value == [] ==> r == []
    ensures parentText.Some? && parentText.value != [] && |Strip(RemoveFirst(parentText.value, title))| <= 200 ==>
      r == Strip(RemoveFirst(parentText.value, title))
    ensures parentText.Some? && parentText.value != [] && |Strip(RemoveFirst(parentText.value, title))| > 200 ==>
      r == Strip(RemoveFirst(parentText.value, title))[..197] + "..."
  {
    match parentText
      case None => []
      case Some(text) =>
        if text == [] then []
        else
          var d := Strip(RemoveFirst(text, title));
          if |d| > 200 then d[..197] + "..." else d
  }

  /** The link an anchor contributes, if its `href` is kept. */
  function AnchorLink(pageUrl: string, origin: string, a: Anchor): (r: Option<Link>)
    ensures r.Some? <==> LinkTarget(origin, a.href).Some?
    ensures r.Some? ==> (r.value.url == LinkTarget(origin, a.href).value && r.value.source.None? &&
      r.value.title == Take(LinkTitle(pageUrl, a.text), 100) &&
      r.value.description == Description(a.parentText, LinkTitle(pageUrl, a.text)))
  {
    match LinkTarget(origin, a.href)
      case None => None
      case Some(url) =>
        var title := LinkTitle(pageUrl, a.text);
        Some(Link(url, Take(title, 100), Description(a.parentText, title), None))
  }

  /** The links of the anchors, in page order. */
  function AnchorLinks(pageUrl: string, origin: string, anchors: seq<Anchor>): (r: seq<Link>)
    ensures |r| <= |anchors|
  {
    if anchors == [] then []
    else
      var a := anchors[|anchors| - 1];
      AnchorLinks(pageUrl, origin, anchors[..|anchors| - 1])
        + (if AnchorLink(pageUrl, origin, a).Some? then [AnchorLink(pageUrl, origin, a).value] else [])
  }

  // First-occurrence de-duplication by URL

  function LinkUrls(links: seq<Link>): (r: seq<string>)
    ensures |r| == |links| && forall i :: 0 <= i < |links| ==> r[i] == links[i].url
  {
    seq(|links|, i requires 0 <= i < |links| => links[i].url)
  }

  /** The links whose URL has not been seen before them, in order. */
  function Dedup(links: seq<Link>): (r: seq<Link>)
    ensures forall i, j :: 0 <= i < j < |r| ==> r[i].url != r[j].url
    ensures forall x :: x in r ==> x in links
    ensures forall u :: u in LinkUrls(r) <==> u in LinkUrls(links)
  {
    if links == [] then []
    else
      var init := links[..|links| - 1];
      var last := links[|links| - 1];
      var d := Dedup(init);
      assert links == init + [last];
      assert forall u :: u in LinkUrls(links) <==> u in LinkUrls(init) || u == last.url by {
        assert LinkUrls(links) == LinkUrls(init) + [last.url];
      }
      if last.url in LinkUrls(d) then d
      else
        assert LinkUrls(d + [last]) == LinkUrls(d) + [last.url];
        d + [last]
  }

  /** `x` occurs in `links` with a URL no earlier link has. */
  ghost predicate FirstWithUrl(links: seq<Link>, x: Link) {
    exists i :: 0 <= i < |links| && links[i] == x && links[i].url !in LinkUrls(links[..i])
  }

  /** `Dedup` of a non-empty list, one step unfolded. */
  lemma {:induction false} DedupSnoc(links: seq<Link>)
    requires links != []
    ensures var d := Dedup(links[..|links| - 1]);
      var last := links[|links| - 1];
      Dedup(links) == if last.url in LinkUrls(d) then d else d + [last]
  {
  }

  /** A link kept by the shorter list was the first with its URL in the
      longer one too. */
  lemma {:induction false} FirstWithUrlGrows(links: seq<Link>, x: Link)
    requires links != [] && FirstWithUrl(links[..|links| - 1], x)
    ensures FirstWithUrl(links, x)
  {
    var init := links[..|links| - 1];
    var i :| 0 <= i < |init| && init[i] == x && init[i].url !in LinkUrls(init[..i]);
    assert links[..i] == init[..i];
    assert links[i] == x && links[i].url !in LinkUrls(links[..i]);
  }

  /** A link first with its URL in the longer list was so in the shorter
      one, or is the added link with a new URL. */
  lemma {:induction false} FirstWithUrlShrinks(links: seq<Link>, x: Link)
    requires links != [] && FirstWithUrl(links, x)
    ensures var n := |links| - 1;
      FirstWithUrl(links[..n], x) || (x == links[n] && x.url !in LinkUrls(links[..n]))
  {
    var n := |links| - 1;
    var i :| 0 <= i < |links| && links[i] == x && links[i].url !in LinkUrls(links[..i]);
    if i < n {
      var init := links[..n];
      assert init[..i] == links[..i];
      assert init[i] == x && init[i].url !in LinkUrls(init[..i]);
    }
  }

  /** One link of the induction step of `DedupKeepsFirsts`. */
  lemma {:induction false} DedupKeepsFirstsStep(links: seq<Link>, x: Link)
    requires links != []
    requires x in Dedup(links[..|links| - 1]) <==> FirstWithUrl(links[..|links| - 1], x)
    ensures x in Dedup(links) <==> FirstWithUrl(links, x)
  {
    var n := |links| - 1;
    var d := Dedup(links[..n]);
    DedupSnoc(links);
    assert links[n].url in LinkUrls(d) <==> links[n].url in LinkUrls(links[..n]);
    if FirstWithUrl(links, x) {
      FirstWithUrlShrinks(links, x);
    }
    if x in Dedup(links) {
      if x in d {
        FirstWithUrlGrows(links, x);
      } else {
        assert links[n] == x && links[n].url !in LinkUrls(links[..n]);
      }
    }
  }

  /** The links kept are exactly those that are the first with their URL. */
  lemma {:induction false} DedupKeepsFirsts(links: seq<Link>)
    ensures forall x :: x in Dedup(links) <==> FirstWithUrl(links, x)
    decreases |links|
  {
    if links != [] {
      var n := |links| - 1;
      DedupKeepsFirsts(links[..n]);
      forall x
        ensures x in Dedup(links) <==> FirstWithUrl(links, x)
      {
        DedupKeepsFirstsStep(links, x);
      }
    }
  }

  /** De-duplicating a longer list keeps the de-duplicated shorter list
      in front. */
  lemma {:induction false} DedupPrefix(a: seq<Link>, b: seq<Link>)
    ensures |Dedup(a)| <= |Dedup(a + b)| && Dedup(a + b)[..|Dedup(a)|] == Dedup(a)
    decreases |b|
  {
    if b == [] {
      assert a + b == a;
    } else {
      var b' := b[..|b| - 1];
      DedupPrefix(a, b');
      assert (a + b)[..|a + b| - 1] == a + b';
    }
  }

  /** A list whose URLs are all different is kept whole. */
  lemma {:induction false} DedupDistinct(links: seq<Link>)
    requires forall i, j :: 0 <= i < j < |links| ==> links[i].url != links[j].url
    ensures Dedup(links) == links
    decreases |links|
  {
    if links != [] {
      var init := links[..|links| - 1];
      DedupDistinct(init);
      assert links[|links| - 1].url !in LinkUrls(init);
      assert init + [links[|links| - 1]] == links;
    }
  }

  /** The `seen_urls` loop. */
  method DedupLinks(links: seq<Link>) returns (unique: seq<Link>)
    ensures unique == Dedup(links)
  {
    var seen: set<string> := {};
    unique := [];
    for i := 0 to |links|
      invariant unique == Dedup(links[..i])
      invariant forall u :: u in seen <==> u in LinkUrls(unique)
    {
      var link := links[i];
      assert links[..i + 1][..i] == links[..i];
      if link.url !in seen {
        seen := seen + {link.url};
        assert LinkUrls(unique + [link]) == LinkUrls(unique) + [link.url];
        unique := unique + [link];
      }
    }
    assert links[..|links|] == links;
  }

  /** What `_extract_links_and_metadata(url)` returns: nothing for a page
      that is not HTML or could not be fetched, otherwise the first ten
      distinct links of its anchors. */
  function PageLinks(pageUrl: string, origin: string, page: Fetched): (r: seq<Link>)
    ensures |r| <= 10
    ensures forall i, j :: 0 <= i < j < |r| ==> r[i].url != r[j].url
    ensures !page.Anchors? ==> r == []
  {
    match page
      case Anchors(anchors) => Take(Dedup(AnchorLinks(pageUrl, origin, anchors)), 10)
      case _ => []
  }

  /** The anchor loop, the de-duplication and the cap. */
  method ExtractLinksAndMetadata(pageUrl: string, origin: string, page: Fetched) returns (links: seq<Link>)
    ensures links == PageLinks(pageUrl, origin, page)
  {
    if !page.Anchors? {
      return [];
    }
    var extracted: seq<Link> := [];
    for i := 0 to |page.anchors|
      invariant extracted == AnchorLinks(pageUrl, origin, page.anchors[..i])
    {
      var a := page.anchors[i];
      assert page.anchors[..i + 1][..i] == page.anchors[..i];
      var link := AnchorLink(pageUrl, origin, a);
      if link.Some? {
        extracted := extracted + [link.value];
      }
    }
    assert page.anchors[..|page.anchors|] == page.anchors;
    var unique := DedupLinks(extracted);
    links := Take(unique, 10);
  }

  /** A link is extracted exactly when some anchor of the page contributes
      it: no kept anchor is lost and nothing else is added. */
  lemma {:induction false} AnchorLinksMembers(pageUrl: string, origin: string, anchors: seq<Anchor>, l: Link)
    ensures l in AnchorLinks(pageUrl, origin, anchors) <==>
      exists a :: a in anchors && AnchorLink(pageUrl, origin, a) == Some(l)
    decreases |anchors|
  {
    if anchors != [] {
      var init := anchors[..|anchors| - 1];
      var last := anchors[|anchors| - 1];
      AnchorLinksMembers(pageUrl, origin, init, l);
      AnchorLinksSnoc(pageUrl, origin, anchors, l);
      if l in AnchorLinks(pageUrl, origin, anchors) {
        if l in AnchorLinks(pageUrl, origin, init) {
          var a :| a in init && AnchorLink(pageUrl, origin, a) == Some(l);
          InitOrLast(anchors, a);
        } else {
          InitOrLast(anchors, last);
        }
      }
      if exists a :: a in anchors && AnchorLink(pageUrl, origin, a) == Some(l) {
        var a :| a in anchors && AnchorLink(pageUrl, origin, a) == Some(l);
        InitOrLast(anchors, a);
      }
    }
  }

  /** One anchor more adds at most its own link. */
  lemma {:induction false} AnchorLinksSnoc(pageUrl: string, origin: string, anchors: seq<Anchor>, l: Link)
    requires anchors != []
    ensures l in AnchorLinks(pageUrl, origin, anchors) <==>
      l in AnchorLinks(pageUrl, origin, anchors[..|anchors| - 1]) || AnchorLink(pageUrl, origin, anchors[|anchors| - 1]) == Some(l)
  {
    var last := anchors[|anchors| - 1];
    var extra := if AnchorLink(pageUrl, origin, last).Some? then [AnchorLink(pageUrl, origin, last).value] else [];
    assert AnchorLinks(pageUrl, origin, anchors) == AnchorLinks(pageUrl, origin, anchors[..|anchors| - 1]) + extra;
    assert l in extra <==> AnchorLink(pageUrl, origin, last) == Some(l);
  }

  /** An element of a non-empty sequence is its last one or one before. */
  lemma {:induction false} InitOrLast<T>(s: seq<T>, x: T)
    requires s != []
    ensures x in s <==> x in s[..|s| - 1] || x == s[|s| - 1]
  {
    assert s == s[..|s| - 1] + [s[|s| - 1]];
  }

  /** The anchors' links come in page order. */
  lemma {:induction false} AnchorLinksAppend(pageUrl: string, origin: string, a: seq<Anchor>, b: seq<Anchor>)
    ensures AnchorLinks(pageUrl, origin, a + b) == AnchorLinks(pageUrl, origin, a) + AnchorLinks(pageUrl, origin, b)
    decreases |b|
  {
    if b == [] {
      assert a + b == a;
    } else {
      var b' := b[..|b| - 1];
      assert (a + b)[..|a + b| - 1] == a + b';
      assert (a + b)[|a + b| - 1] == b[|b| - 1];
      AnchorLinksAppend(pageUrl, origin, a, b');
    }
  }

  /** Every extracted link is kept by the `href` rules, carries a title of
      at most 100 characters and a description of at most 200, and no
      source tag yet. */
  lemma {:induction false} AnchorLinksShape(pageUrl: string, origin: string, anchors: seq<Anchor>)
    ensures forall l :: l in AnchorLinks(pageUrl, origin, anchors) ==>
      |l.title| <= 100 && |l.description| <= 200 && l.source.None? &&
      exists a :: a in anchors && LinkTarget(origin, a.href) == Some(l.url)
    decreases |anchors|
  {
    if anchors != [] {
      var init := anchors[..|anchors| - 1];
      AnchorLinksShape(pageUrl, origin, init);
      assert forall a :: a in init ==> a in anchors;
      assert anchors[|anchors| - 1] in anchors;
    }
  }

  // ---------------------------------------------------------------------
  // find_interesting_links

  /** `{"links": [...], "message": ...}`.  The answer without search hits
      is that dictionary itself (tools.py:208); the success answer is its
      JSON text (tools.py:257), whose encoding is not part of this model.
      Both are represented by this record. */
  datatype LinksReply = LinksReply(links: seq<Link>, message: string)

  const NoResultsMessage: string := "No results found."

  /** The search hits with a URL, as links tagged `search_result`. */
  function DirectLinks(hits: seq<Hit>): (r: seq<Link>)
    ensures |r| <= |hits|
    ensures forall l :: l in r ==> l.source == Some("search_result") && l.url != []
  {
    if hits == [] then []
    else
      var h := hits[|hits| - 1];
      DirectLinks(hits[..|hits| - 1])
        + (if h.url != [] then [Link(h.url, h.title, h.description, Some("search_result"))] else [])
  }

  /** The link a search hit contributes: one tagged `search_result`, when it
      has a URL. */
  predicate DirectLink(h: Hit, l: Link) {
    h.url != [] && l == Link(h.url, h.title, h.description, Some("search_result"))
  }

  /** The direct links are exactly the URL-bearing hits, with their title
      and description. */
  lemma {:induction false} DirectLinksMembers(hits: seq<Hit>, l: Link)
    ensures l in DirectLinks(hits) <==> exists i :: 0 <= i < |hits| && DirectLink(hits[i], l)
    decreases |hits|
  {
    if hits != [] {
      var n := |hits| - 1;
      var init := hits[..n];
      DirectLinksMembers(init, l);
      var h := hits[n];
      var extra := if h.url != [] then [Link(h.url, h.title, h.description, Some("search_result"))] else [];
      assert DirectLinks(hits) == DirectLinks(init) + extra;
      assert l in extra <==> DirectLink(h, l);
      if l in DirectLinks(hits) {
        if l in DirectLinks(init) {
          var i :| 0 <= i < |init| && DirectLink(init[i], l);
          assert hits[i] == init[i];
        } else {
          assert DirectLink(hits[n], l);
        }
      }
      if exists i :: 0 <= i < |hits| && DirectLink(hits[i], l) {
        var i :| 0 <= i < |hits| && DirectLink(hits[i], l);
        if i < n {
          assert init[i] == hits[i];
        }
      }
    }
  }

  /** The direct links come in search order. */
  lemma {:induction false} DirectLinksAppend(a: seq<Hit>, b: seq<Hit>)
    ensures DirectLinks(a + b) == DirectLinks(a) + DirectLinks(b)
    decreases |b|
  {
    if b == [] {
      assert a + b == a;
    } else {
      var b' := b[..|b| - 1];
      assert (a + b)[..|a + b| - 1] == a + b';
      assert (a + b)[|a + b| - 1] == b[|b| - 1];
      DirectLinksAppend(a, b');
    }
  }

  /** A page's links tagged with the page they were extracted from. */
  function Tagged(links: seq<Link>, url: string): (r: seq<Link>)
    ensures |r| == |links|
    ensures forall i :: 0 <= i < |r| ==> r[i] == links[i].(source := Some("extracted_from_" + url))
  {
    seq(|links|, i requires 0 <= i < |links| => links[i].(source := Some("extracted_from_" + url)))
  }

  /** The extracted links in the order the threads finished (`finished`),
      at most ten per page. */
  function Extracted(finished: seq<string>, pages: string -> seq<Link>): seq<Link> {
    if finished == [] then []
    else
      var u := finished[|finished| - 1];
      Extracted(finished[..|finished| - 1], pages) + Tagged(Take(pages(u), 10), u)
  }

  /** `find_interesting_links`.  `pages(u)` is what
      `_extract_links_and_metadata(u)` returns, and `completion` puts the
      URLs in the order their threads finished. */
  function FindInterestingLinks(clientAvailable: bool, query: string, k: int,
                                search: (string, nat) -> SearchReply, pages: string -> seq<Link>,
                                completion: seq<string> -> seq<string>): (r: ToolReply<LinksReply>)
    ensures !clientAvailable ==> r == ToolError(ClientMissing)
    ensures clientAvailable && k <= 0 ==> r == ToolError(KNotPositive)
    ensures r.Done? ==> |r.value.links| <= 10
    ensures r.Done? ==> forall i, j :: 0 <= i < j < |r.value.links| ==> r.value.links[i].url != r.value.links[j].url
  {
    if !clientAvailable then ToolError(ClientMissing)
    else if ScrapeCount(k) <= 0 then ToolError(KNotPositive)
    else match search(query, ScrapeCount(k))
      case SearchFailed(true, message) => ToolError(message)
      case SearchFailed(false, message) => ToolError("Unexpected error in find_interesting_links tool: " + message)
      case Found(hits) =>
        if hits == [] then Done(LinksReply([], NoResultsMessage))
        else
          var all := DirectLinks(hits) + Extracted(completion(HitUrls(Take(hits, 5))), pages);
          var final := Take(Dedup(all), 10);
          Done(LinksReply(final, "Found " + NatToString(|final|) + " interesting links related to '" + query + "'."))
  }

  /** The merged list starts with the distinct search hits: up to ten of
      them come first, in search order, whatever order the extraction
      threads finished in. */
  lemma {:induction false} DirectLinksFirst(query: string, k: int, search: (string, nat) -> SearchReply,
                         pages: string -> seq<Link>, completion: seq<string> -> seq<string>)
    requires 0 < k && search(query, ScrapeCount(k)).Found? && search(query, ScrapeCount(k)).hits != []
    ensures var r := FindInterestingLinks(true, query, k, search, pages, completion);
      var direct := Take(Dedup(DirectLinks(search(query, ScrapeCount(k)).hits)), 10);
      r.Done? && |direct| <= |r.value.links| && r.value.links[..|direct|] == direct
  {
    var hits := search(query, ScrapeCount(k)).hits;
    var direct := DirectLinks(hits);
    var extracted := Extracted(completion(HitUrls(Take(hits, 5))), pages);
    DedupPrefix(direct, extracted);
    var d, m := Dedup(direct), Dedup(direct + extracted);
    assert FindInterestingLinks(true, query, k, search, pages, completion).value.links == Take(m, 10);
    TakeKeepsPrefix(d, m, 10);
  }

  /** Capping a list and a longer list that starts with it keeps the
      shorter one's capped part in front. */
  lemma {:induction false} TakeKeepsPrefix(d: seq<Link>, m: seq<Link>, n: nat)
    requires |d| <= |m| && m[..|d|] == d
    ensures |Take(d, n)| <= |Take(m, n)| && Take(m, n)[..|Take(d, n)|] == Take(d, n)
  {
    var k := |Take(d, n)|;
    assert Take(m, n)[..k] == m[..k] == d[..k];
  }

  /** The message counts the links returned. */
  lemma {:induction false} InterestingLinksMessage(query: string, k: int, search: (string, nat) -> SearchReply,
                                pages: string -> seq<Link>, completion: seq<string> -> seq<string>)
    requires 0 < k && search(query, ScrapeCount(k)).Found?
    ensures var r := FindInterestingLinks(true, query, k, search, pages, completion);
      r.Done? &&
      (search(query, ScrapeCount(k)).hits == [] ==> r.value == LinksReply([], NoResultsMessage)) &&
      (search(query, ScrapeCount(k)).hits != [] ==>
        r.value.message == "Found " + NatToString(|r.value.links|) + " interesting links related to '" + query + "'.")
  {
  }

  /** The hits loop of `find_interesting_links`: one `search_result` link
      per hit that has a URL. */
  method CollectDirect(hits: seq<Hit>) returns (all: seq<Link>)
    ensures all == DirectLinks(hits)
  {
    all := [];
    for i := 0 to |hits|
      invariant all == DirectLinks(hits[..i])
    {
      assert hits[..i + 1][..i] == hits[..i];
      var h := hits[i];
      if h.url != [] {
        all := all + [Link(h.url, h.title, h.description, Some("search_result"))];
      }
    }
    assert hits[..|hits|] == hits;
  }

  /** The `as_completed` loop of `find_interesting_links`: each finished
      page adds its first ten links, tagged with the page. */
  method ExtendByPages(direct: seq<Link>, finished: seq<string>, pages: string -> seq<Link>)
    returns (all: seq<Link>)
    ensures all == direct + Extracted(finished, pages)
  {
    all := direct;
    for j := 0 to |finished|
      invariant all == direct + Extracted(finished[..j], pages)
    {
      var u := finished[j];
      assert finished[..j + 1][..j] == finished[..j];
      var links := pages(u);
      if links != [] {
        AppendAssoc(direct, Extracted(finished[..j], pages), Tagged(Take(links, 10), u));
        all := all + Tagged(Take(links, 10), u);
      } else {
        assert Tagged(Take(links, 10), u) == [];
        assert Extracted(finished[..j + 1], pages) == Extracted(finished[..j], pages);
      }
    }
    assert finished[..|finished|] == finished;
  }

  /** `find_interesting_links`: the hits loop, the extension by each
      finished page, the `seen_urls` loop and the cap. */
  method FindInterestingLinksRun(clientAvailable: bool, query: string, k: int,
                                 search: (string, nat) -> SearchReply, pages: string -> seq<Link>,
                                 completion: seq<string> -> seq<string>)
    returns (reply: ToolReply<LinksReply>)
    ensures reply == FindInterestingLinks(clientAvailable, query, k, search, pages, completion)
  {
    if !clientAvailable {
      return ToolError(ClientMissing);
    }
    var count := if k < 5 then k else 5;
    if count <= 0 {
      return ToolError(KNotPositive);
    }
    var answer := search(query, count);
    if answer.SearchFailed? {
      if answer.toolException {
        return ToolError(answer.message);
      }
      return ToolError("Unexpected error in find_interesting_links tool: " + answer.message);
    }
    var hits := answer.hits;
    if hits == [] {
      return Done(LinksReply([], NoResultsMessage));
    }
    var direct := CollectDirect(hits);
    var finished := completion(HitUrls(Take(hits, 5)));
    var all := ExtendByPages(direct, finished, pages);
    var unique := DedupLinks(all);
    var final := Take(unique, 10);
    reply := Done(LinksReply(final, "Found " + NatToString(|final|) + " interesting links related to '" + query + "'."));
  }
}
