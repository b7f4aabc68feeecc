/** What the search tools share: the clean-up at the end of
    `_scrape_and_extract_text`, the search hits they read, the scraped
    entries they return, and the way a tool fails.

    Fetching and parsing a page (requests, BeautifulSoup) is an input: a
    `Page` is what the fetch gave, with the text `get_text` extracted. */
module WebText {
  import opened Text

  // ---------------------------------------------------------------------
  // Whitespace runs

  /** No two whitespace characters stand next to each other. */
  predicate NoAdjacentSpace(s: string) {
    forall i :: 0 <= i < |s| - 1 ==> !(IsSpace(s[i]) && IsSpace(s[i + 1]))
  }

  /** The only whitespace character is the plain space. */
  predicate OnlyPlainSpace(s: string) {
    forall i :: 0 <= i < |s| ==> IsSpace(s[i]) ==> s[i] == ' '
  }

  /** The characters of `s` that are not whitespace, in order. */
  function Visible(s: string): (r: string)
    ensures |r| <= |s|
  {
    if s == [] then [] else (if IsSpace(s[0]) then [] else [s[0]]) + Visible(s[1..])
  }

  /** `re.sub(r'\s+', ' ', s)`: every run of whitespace becomes one space. */
  function CollapseRuns(s: string): (r: string)
    ensures s == [] <==> r == []
    ensures s != [] && !IsSpace(s[0]) ==> r[0] == s[0]
    ensures s != [] && IsSpace(s[0]) ==> r[0] == ' '
    decreases |s|
  {
    if s == [] then []
    else if IsSpace(s[0]) then " " + CollapseRuns(s[LeadingSpace(s)..])
    else [s[0]] + CollapseRuns(s[1..])
  }

  /** `re.sub(r'\s\s+', ' ', s)`: every run of two or more whitespace
      characters becomes one space; a lone whitespace character stays. */
  function CollapseLongRuns(s: string): (r: string)
    ensures s == [] <==> r == []
    ensures s != [] && !IsSpace(s[0]) ==> r[0] == s[0]
    ensures s != [] && IsSpace(s[0]) ==> IsSpace(r[0])
    decreases |s|
  {
    if s == [] then []
    else if |s| >= 2 && IsSpace(s[0]) && IsSpace(s[1]) then " " + CollapseLongRuns(s[LeadingSpace(s)..])
    else [s[0]] + CollapseLongRuns(s[1..])
  }

  /** Skipping a leading run of whitespace loses no visible character. */
  lemma {:induction false} VisibleSkipsSpace(s: string)
    ensures Visible(s[LeadingSpace(s)..]) == Visible(s)
    decreases |s|
  {
    if s != [] && IsSpace(s[0]) {
      assert s[LeadingSpace(s)..] == s[1..][LeadingSpace(s[1..])..];
      VisibleSkipsSpace(s[1..]);
    }
  }

  /** After the leading run the next character, if any, is visible. */
  lemma {:induction false} LeadingRunEnds(s: string)
    ensures LeadingSpace(s) < |s| ==> !IsSpace(s[LeadingSpace(s)])
  {
    LeadingSpaceIsRun(s);
  }

  /** A space, or a visible character, put in front of collapsed text whose
      first character it does not clash with keeps the whitespace lone and plain. */
  lemma {:induction false} ConsKeepsSpaces(c: char, t: string)
    requires NoAdjacentSpace(t) && OnlyPlainSpace(t)
    requires IsSpace(c) ==> c == ' ' && (t == [] || !IsSpace(t[0]))
    ensures NoAdjacentSpace([c] + t) && OnlyPlainSpace([c] + t)
  {
    var r := [c] + t;
    forall i | 0 <= i < |r| - 1 ensures !(IsSpace(r[i]) && IsSpace(r[i + 1])) {
      if i > 0 { assert r[i] == t[i - 1] && r[i + 1] == t[i]; }
    }
    forall i | 0 <= i < |r| && IsSpace(r[i]) ensures r[i] == ' ' {
      if i > 0 { assert r[i] == t[i - 1]; }
    }
  }

  /** Collapsing leaves only lone plain spaces. */
  lemma {:induction false} CollapseRunsSpaces(s: string)
    ensures NoAdjacentSpace(CollapseRuns(s)) && OnlyPlainSpace(CollapseRuns(s))
    decreases |s|
  {
    if s != [] {
      if IsSpace(s[0]) {
        var rest := s[LeadingSpace(s)..];
        CollapseRunsSpaces(rest);
        LeadingRunEnds(s);
        ConsKeepsSpaces(' ', CollapseRuns(rest));
      } else {
        CollapseRunsSpaces(s[1..]);
        ConsKeepsSpaces(s[0], CollapseRuns(s[1..]));
      }
    }
  }

  /** Collapsing keeps every visible character in its place. */
  lemma {:induction false} CollapseRunsVisible(s: string)
    ensures Visible(CollapseRuns(s)) == Visible(s)
    decreases |s|
  {
    if s != [] {
      var r := CollapseRuns(s);
      if IsSpace(s[0]) {
        var rest := s[LeadingSpace(s)..];
        CollapseRunsVisible(rest);
        VisibleSkipsSpace(s);
        assert r[1..] == CollapseRuns(rest);
      } else {
        CollapseRunsVisible(s[1..]);
        assert r[1..] == CollapseRuns(s[1..]);
      }
    }
  }

  /** Collapsing leaves no two whitespace characters together, only plain
      spaces, and every visible character in its place. */
  lemma {:induction false} CollapseRunsShape(s: string)
    ensures NoAdjacentSpace(CollapseRuns(s))
    ensures OnlyPlainSpace(CollapseRuns(s))
    ensures Visible(CollapseRuns(s)) == Visible(s)
  {
    CollapseRunsSpaces(s);
    CollapseRunsVisible(s);
  }

  /** A character put in front of text with lone whitespace keeps it lone
      unless both are whitespace. */
  lemma {:induction false} ConsKeepsLone(c: char, t: string)
    requires NoAdjacentSpace(t)
    requires IsSpace(c) ==> t == [] || !IsSpace(t[0])
    ensures NoAdjacentSpace([c] + t)
  {
    var r := [c] + t;
    forall i | 0 <= i < |r| - 1 ensures !(IsSpace(r[i]) && IsSpace(r[i + 1])) {
      if i > 0 { assert r[i] == t[i - 1] && r[i + 1] == t[i]; }
    }
  }

  /** Collapsing long runs leaves no two whitespace characters together. */
  lemma {:induction false} CollapseLongRunsLone(s: string)
    ensures NoAdjacentSpace(CollapseLongRuns(s))
    decreases |s|
  {
    if s != [] {
      if |s| >= 2 && IsSpace(s[0]) && IsSpace(s[1]) {
        var rest := s[LeadingSpace(s)..];
        CollapseLongRunsLone(rest);
        LeadingRunEnds(s);
        ConsKeepsLone(' ', CollapseLongRuns(rest));
      } else {
        CollapseLongRunsLone(s[1..]);
        ConsKeepsLone(s[0], CollapseLongRuns(s[1..]));
      }
    }
  }

  /** Collapsing long runs keeps every visible character in its place. */
  lemma {:induction false} CollapseLongRunsVisible(s: string)
    ensures Visible(CollapseLongRuns(s)) == Visible(s)
    decreases |s|
  {
    if s != [] {
      var r := CollapseLongRuns(s);
      if |s| >= 2 && IsSpace(s[0]) && IsSpace(s[1]) {
        var rest := s[LeadingSpace(s)..];
        CollapseLongRunsVisible(rest);
        VisibleSkipsSpace(s);
        assert r[1..] == CollapseLongRuns(rest);
        assert Visible(r) == Visible(r[1..]);
      } else {
        CollapseLongRunsVisible(s[1..]);
        assert r[1..] == CollapseLongRuns(s[1..]);
      }
    }
  }

  /** Collapsing long runs leaves no two whitespace characters together
      and every visible character in its place. */
  lemma {:induction false} CollapseLongRunsShape(s: string)
    ensures NoAdjacentSpace(CollapseLongRuns(s))
    ensures Visible(CollapseLongRuns(s)) == Visible(s)
  {
    CollapseLongRunsLone(s);
    CollapseLongRunsVisible(s);
  }

  /** Text with no adjacent whitespace is left exactly as it is by the
      long-run collapse, and only such text is: a lone newline survives. */
  lemma {:induction false} CollapseLongRunsFixed(s: string)
    ensures CollapseLongRuns(s) == s <==> NoAdjacentSpace(s)
    decreases |s|
  {
    CollapseLongRunsShape(s);
    if s != [] && NoAdjacentSpace(s) {
      assert NoAdjacentSpace(s[1..]) by {
        forall i | 0 <= i < |s[1..]| - 1
          ensures !(IsSpace(s[1..][i]) && IsSpace(s[1..][i + 1]))
        {
          assert s[1..][i] == s[i + 1] && s[1..][i + 1] == s[i + 2];
        }
      }
      CollapseLongRunsFixed(s[1..]);
    }
  }

  /** Text whose whitespace is lone plain spaces is left as it is by the
      full collapse, and only such text is; so collapsing twice is
      collapsing once. */
  lemma {:induction false} CollapseRunsFixed(s: string)
    ensures CollapseRuns(s) == s <==> NoAdjacentSpace(s) && OnlyPlainSpace(s)
    decreases |s|
  {
    CollapseRunsShape(s);
    if s != [] && NoAdjacentSpace(s) && OnlyPlainSpace(s) {
      SliceKeepsShape(s, 1, |s|);
      assert s[1..|s|] == s[1..];
      CollapseRunsFixed(s[1..]);
      assert CollapseRuns(s[1..]) == s[1..];
      if IsSpace(s[0]) {
        assert |s| == 1 || !IsSpace(s[1]);
        assert LeadingSpace(s) == 1;
        assert CollapseRuns(s) == [s[0]] + CollapseRuns(s[1..]);
      } else {
        assert CollapseRuns(s) == [s[0]] + CollapseRuns(s[1..]);
      }
      assert [s[0]] + s[1..] == s;
    }
  }

  lemma {:induction false} CollapseRunsIdempotent(s: string)
    ensures CollapseRuns(CollapseRuns(s)) == CollapseRuns(s)
  {
    CollapseRunsShape(s);
    CollapseRunsFixed(CollapseRuns(s));
  }

  /** A slice keeps the absence of adjacent whitespace and of other
      whitespace than the plain space. */
  lemma {:induction false} SliceKeepsShape(s: string, a: nat, b: nat)
    requires a <= b <= |s|
    ensures NoAdjacentSpace(s) ==> NoAdjacentSpace(s[a..b])
    ensures OnlyPlainSpace(s) ==> OnlyPlainSpace(s[a..b])
  {
    if NoAdjacentSpace(s) {
      forall i | 0 <= i < |s[a..b]| - 1
        ensures !(IsSpace(s[a..b][i]) && IsSpace(s[a..b][i + 1]))
      {
        assert s[a..b][i] == s[a + i] && s[a..b][i + 1] == s[a + i + 1];
      }
    }
  }

  // ---------------------------------------------------------------------
  // The scrape tail

  /** What fetching a URL gave: a page that is not HTML, a request that
      failed (timeout, HTTP error, parse error), or the text extracted from
      the page's main content. */
  datatype Page = NotHtml | Unreachable | Html(text: string)

  /** `re.sub(r'\s+', ' ', text).strip()[:max_chars]` */
  function ScrapeTail(text: string, maxChars: nat): string {
    Take(Strip(CollapseRuns(text)), maxChars)
  }

  /** `re.sub(r'\s\s+', ' ', text).strip()[:max_chars]` */
  function LooseScrapeTail(text: string, maxChars: nat): string {
    Take(Strip(CollapseLongRuns(text)), maxChars)
  }

  /** The scraped text is at most `maxChars` long, starts with a visible
      character, has whitespace only as lone plain spaces, and is a prefix
      of the collapsed, stripped text. */
  lemma {:induction false} ScrapeTailShape(text: string, maxChars: nat)
    ensures var r := ScrapeTail(text, maxChars);
      |r| <= maxChars && NoAdjacentSpace(r) && OnlyPlainSpace(r) &&
      (r == [] || !IsSpace(r[0])) &&
      r == Strip(CollapseRuns(text))[..|r|]
  {
    var c := CollapseRuns(text);
    CollapseRunsShape(text);
    StripIsSlice(c);
    var a := LeadingSpace(c);
    var b := |c| - TrailingSpace(c[a..]);
    SliceKeepsShape(c, a, b);
    var st := Strip(c);
    LeadingRunEnds(c);
    assert st == [] || st[0] == c[a];
    var r := ScrapeTail(text, maxChars);
    SliceKeepsShape(st, 0, |r|);
    assert r == st[0..|r|];
  }

  /** The looser clean-up of langchain.py: no adjacent whitespace, at most
      `maxChars`, starting with a visible character. */
  lemma {:induction false} LooseScrapeTailShape(text: string, maxChars: nat)
    ensures var r := LooseScrapeTail(text, maxChars);
      |r| <= maxChars && NoAdjacentSpace(r) && (r == [] || !IsSpace(r[0])) &&
      r == Strip(CollapseLongRuns(text))[..|r|]
  {
    var c := CollapseLongRuns(text);
    CollapseLongRunsShape(text);
    StripIsSlice(c);
    var a := LeadingSpace(c);
    var b := |c| - TrailingSpace(c[a..]);
    SliceKeepsShape(c, a, b);
    var st := Strip(c);
    LeadingRunEnds(c);
    assert st == [] || st[0] == c[a];
    var r := LooseScrapeTail(text, maxChars);
    SliceKeepsShape(st, 0, |r|);
    assert r == st[0..|r|];
  }

  // ---------------------------------------------------------------------
  // Search hits and scraped entries

  /** One search result as the tools read it: `r.get("url")`, `title` and
      `description`; an absent or null value is the empty string. */
  datatype Hit = Hit(url: string, title: string, description: string)

  /** `{"url": url, "content": content}`; `None` when scraping failed. */
  datatype Scraped = Scraped(url: string, content: Option<string>)

  /** `[r.get("url") for r in results if r.get("url")]` */
  function HitUrls(hits: seq<Hit>): (r: seq<string>)
    ensures |r| <= |hits|
    ensures forall i :: 0 <= i < |r| ==> r[i] != []
    ensures forall u :: u in r <==> exists h :: h in hits && h.url == u && u != []
  {
    if hits == [] then []
    else
      var init := hits[..|hits| - 1];
      assert forall h :: h in hits <==> h in init || h == hits[|hits| - 1];
      HitUrls(init) + (if hits[|hits| - 1].url != [] then [hits[|hits| - 1].url] else [])
  }

  /** Hits without URLs give no URL to scrape. */
  lemma {:induction false} HitUrlsNone(hits: seq<Hit>)
    requires forall h :: h in hits ==> h.url == []
    ensures HitUrls(hits) == []
  {
    if hits != [] {
      var init := hits[..|hits| - 1];
      assert forall h :: h in init ==> h in hits;
      HitUrlsNone(init);
      assert hits[|hits| - 1] in hits;
    }
  }

  /** A tool either returns its value or raises `ToolException(message)`. */
  datatype ToolReply<T> = Done(value: T) | ToolError(message: string)

  /** What the search client's call gives: the hits, or an exception;
      `toolException` tells a `ToolException` from any other. */
  datatype SearchReply = Found(hits: seq<Hit>) | SearchFailed(toolException: bool, message: string)
}
