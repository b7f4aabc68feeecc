/** brave_search_api.py: `BraveSearchManual`, the client of the Brave
    Search API.  The HTTP requests, the JSON decoding and the image
    downloads are parameters: `api(url, query, count)` is the reply of one
    search request, `download(url, path)` the outcome of one download. */
module Brave {
  import opened Text

  const BaseWebUrl: string := "https://api.search.brave.com/res/v1/web/search"
  const BaseImagesUrl: string := "https://api.search.brave.com/res/v1/images/search"
  const BaseNewsUrl: string := "https://api.search.brave.com/res/v1/news/search"

  const KeyRequired: string := "Brave API key is required."
  const BasenameNeedsDir: string := "save_basename requires save_to_dir"
  /** The `AttributeError` of `None.get(...)`. */
  const NoneHasNoGet: string := "'NoneType' object has no attribute 'get'"

  const WebRequestFailed: string := "Brave API request failed: "
  const WebParseFailed: string := "Brave API response parsing failed: "
  const WebUnexpected: string := "An unexpected error occurred during Brave search: "
  const NewsRequestFailed: string := "Brave News API request failed: "
  const ImageRequestFailed: string := "Brave Image API request failed: "
  const ImageParseFailed: string := "Brave Image API response parsing failed: "
  const ImageUnexpected: string := "Unexpected error during Brave image search: "
  const DownloadFailed: string := "Image download failed: "
  const DownloadUnexpected: string := "Unexpected error during image download: "

  /** How a call ends: with its value, with a `ToolException`, or with
      some other exception. */
  datatype Outcome<T> = Results(value: T) | ToolException(message: string) | Raised(message: string)

  /** The client as `__init__` leaves it. */
  datatype Client = Client(apiKey: string, verbose: bool)

  /** `BraveSearchManual(api_key, verbose)`: an empty key is refused. */
  function NewClient(apiKey: string, verbose: bool): (r: Outcome<Client>)
    ensures r.Results? <==> apiKey != []
    ensures r.Results? ==> r.value.apiKey == apiKey
    ensures r.Raised? ==> r.message == KeyRequired
  {
    if apiKey == [] then Raised(KeyRequired) else Results(Client(apiKey, verbose))
  }

  /** The `count` parameter sent: `min(count, 20)`. */
  function Capped(count: int): (c: int)
    ensures c <= 20 && c <= count
    ensures count <= 20 ==> c == count
    ensures count > 20 ==> c == 20
  {
    if count < 20 then count else 20
  }

  /** The reply to one search request, its JSON already decoded.  A
      request that cannot be sent or answers with an HTTP error status is
      `RequestError`; a body that is not JSON is `BadJson`. */
  datatype Reply<T> = Payload(results: T) | RequestError(error: string) | BadJson(error: string) | OtherError(error: string)

  // ---------------------------------------------------------------------
  // Web and news search

  /** The keys a web or news result is read for; the sanitised result has
      exactly these keys. */
  datatype WebHit = WebHit(title: Option<string>, url: Option<string>, description: Option<string>)

  /** `r.get("url")` is truthy. */
  predicate HasUrl(r: WebHit) {
    r.url.Some? && r.url.value != []
  }

  /** The comprehension of `search_web` and `search_news`: the results
      with a URL, in their order. */
  function Sanitize(results: seq<WebHit>): (r: seq<WebHit>)
    ensures |r| <= |results|
  {
    if results == [] then []
    else
      var last := results[|results| - 1];
      Sanitize(results[..|results| - 1]) + (if HasUrl(last) then [last] else [])
  }

  /** Exactly the results with a URL are kept. */
  lemma {:induction false} SanitizeMembers(results: seq<WebHit>)
    ensures forall x :: x in Sanitize(results) <==> x in results && HasUrl(x)
    decreases |results|
  {
    if results != [] {
      var last := results[|results| - 1];
      SanitizeMembers(results[..|results| - 1]);
      assert results == results[..|results| - 1] + [last];
    }
  }

  /** Sanitising keeps the order: that of a concatenation is the
      concatenation of the sanitised parts. */
  lemma {:induction false} SanitizeAppend(a: seq<WebHit>, b: seq<WebHit>)
    ensures Sanitize(a + b) == Sanitize(a) + Sanitize(b)
    decreases |b|
  {
    if b == [] {
      assert a + b == a;
    } else {
      var init := b[..|b| - 1];
      SanitizeAppend(a, init);
      assert b == init + [b[|b| - 1]];
      AppendAssoc(a, init, [b[|b| - 1]]);
      assert (a + b)[..|a + b| - 1] == a + init;
    }
  }

  /** When every result has a URL nothing is dropped or reordered. */
  lemma {:induction false} SanitizeKeepsUrlResults(results: seq<WebHit>)
    requires forall i :: 0 <= i < |results| ==> HasUrl(results[i])
    ensures Sanitize(results) == results
    decreases |results|
  {
    if results != [] {
      var init := results[..|results| - 1];
      SanitizeKeepsUrlResults(init);
      assert init + [results[|results| - 1]] == results;
    }
  }

  /** Sanitising twice is sanitising once. */
  lemma {:induction false} SanitizeIdempotent(results: seq<WebHit>)
    ensures Sanitize(Sanitize(results)) == Sanitize(results)
  {
    var s := Sanitize(results);
    SanitizeMembers(results);
    assert forall i :: 0 <= i < |s| ==> s[i] in s;
    SanitizeKeepsUrlResults(s);
  }

  /** `search_web`: every failure comes back as a `ToolException`. */
  function SearchWeb(client: Client, query: string, count: int, api: (string, string, int) -> Reply<seq<WebHit>>): (r: Outcome<seq<WebHit>>)
    ensures !r.Raised?
    ensures r.Results? <==> api(BaseWebUrl, query, Capped(count)).Payload?
    ensures r.Results? ==> r.value == Sanitize(api(BaseWebUrl, query, Capped(count)).results)
    ensures r.ToolException? ==> match api(BaseWebUrl, query, Capped(count))
      case RequestError(e) => r.message == WebRequestFailed + e
      case BadJson(e) => r.message == WebParseFailed + e
      case OtherError(e) => r.message == WebUnexpected + e
      case Payload(_) => false
  {
    match api(BaseWebUrl, query, Capped(count))
      case Payload(results) => Results(Sanitize(results))
      case RequestError(e) => ToolException(WebRequestFailed + e)
      case BadJson(e) => ToolException(WebParseFailed + e)
      case OtherError(e) => ToolException(WebUnexpected + e)
  }

  /** `search_news`: only a failed request becomes a `ToolException`; any
      other exception leaves the method as it is. */
  function SearchNews(client: Client, query: string, count: int, api: (string, string, int) -> Reply<seq<WebHit>>): (r: Outcome<seq<WebHit>>)
    ensures r.Results? <==> api(BaseNewsUrl, query, Capped(count)).Payload?
    ensures r.Results? ==> r.value == Sanitize(api(BaseNewsUrl, query, Capped(count)).results)
    ensures r.ToolException? <==> api(BaseNewsUrl, query, Capped(count)).RequestError?
    ensures r.ToolException? ==> r.message == NewsRequestFailed + api(BaseNewsUrl, query, Capped(count)).error
    ensures r.Raised? ==> r.message == api(BaseNewsUrl, query, Capped(count)).error
  {
    match api(BaseNewsUrl, query, Capped(count))
      case Payload(results) => Results(Sanitize(results))
      case RequestError(e) => ToolException(NewsRequestFailed + e)
      case BadJson(e) => Raised(e)
      case OtherError(e) => Raised(e)
  }

  /** Whatever count is asked for, the request carries at most 20: two
      APIs that agree on the capped request give the same answer. */
  lemma {:induction false} SearchSeesCappedCount(client: Client, query: string, count: int,
                              a: (string, string, int) -> Reply<seq<WebHit>>, b: (string, string, int) -> Reply<seq<WebHit>>)
    requires count > 20
    requires a(BaseWebUrl, query, 20) == b(BaseWebUrl, query, 20)
    ensures SearchWeb(client, query, count, a) == SearchWeb(client, query, count, b)
  {
  }

  // ---------------------------------------------------------------------
  // Image search

  /** A nested object of a result, read for one key: absent (read as
      `{}`), `null`, or an object with or without that key. */
  datatype Nested = Absent | Null | Object(field: Option<string>)

  /** The keys an image result is read for. */
  datatype ImageHit = ImageHit(title: Option<string>, url: Option<string>, properties: Nested,
                               thumbnail: Nested, source: Option<string>)

  /** A sanitised image result. */
  datatype ImageEntry = ImageEntry(title: Option<string>, pageUrl: Option<string>, imageUrl: Option<string>,
                                   thumbnailUrl: Option<string>, source: Option<string>)

  /** `nested.get(key)`, or `None` for the `AttributeError` of `null`. */
  function Field(n: Nested): Option<Option<string>> {
    match n
      case Absent => Some(None)
      case Null => None
      case Object(f) => Some(f)
  }

  /** One result sanitised, or `None` when a nested object is `null`. */
  function EntryOf(hit: ImageHit): (r: Option<ImageEntry>)
    ensures r.None? <==> hit.properties.Null? || hit.thumbnail.Null?
    ensures r.Some? ==> r.value.title == hit.title && r.value.pageUrl == hit.url && r.value.source == hit.source
    ensures r.Some? && hit.properties.Object? ==> r.value.imageUrl == hit.properties.field
    ensures r.Some? && hit.thumbnail.Object? ==> r.value.thumbnailUrl == hit.thumbnail.field
  {
    match (Field(hit.properties), Field(hit.thumbnail))
      case (Some(image), Some(thumb)) => Some(ImageEntry(hit.title, hit.url, image, thumb, hit.source))
      case _ => None
  }

  /** The loop's result: one entry per result, none dropped, or `None`. */
  function SanitizeImages(hits: seq<ImageHit>): (r: Option<seq<ImageEntry>>)
    ensures r.Some? ==> |r.value| == |hits| && forall i :: 0 <= i < |hits| ==> EntryOf(hits[i]) == Some(r.value[i])
    ensures r.None? ==> exists i :: 0 <= i < |hits| && EntryOf(hits[i]).None?
  {
    if hits == [] then Some([])
    else
      var init := hits[..|hits| - 1];
      match SanitizeImages(init)
        case None =>
          assert forall i :: 0 <= i < |init| ==> init[i] == hits[i];
          None
        case Some(entries) =>
          match EntryOf(hits[|hits| - 1])
            case None => None
            case Some(e) =>
              assert forall i :: 0 <= i < |init| ==> init[i] == hits[i];
              Some(entries + [e])
  }

  /** The sanitising loop of `search_images`. */
  method SanitizeImageLoop(hits: seq<ImageHit>) returns (r: Option<seq<ImageEntry>>)
    ensures r == SanitizeImages(hits)
  {
    var sanitized: seq<ImageEntry> := [];
    for i := 0 to |hits|
      invariant SanitizeImages(hits[..i]) == Some(sanitized)
    {
      assert hits[..i + 1][..i] == hits[..i];
      var hit := hits[i];
      var props := Field(hit.properties);
      var thumb := Field(hit.thumbnail);
      if props.None? || thumb.None? {
        NoneStays(hits, i + 1);
        return None;
      }
      sanitized := sanitized + [ImageEntry(hit.title, hit.url, props.value, thumb.value, hit.source)];
    }
    assert hits[..|hits|] == hits;
    r := Some(sanitized);
  }

  /** Once a result could not be read, the later ones change nothing. */
  lemma {:induction false} NoneStays(hits: seq<ImageHit>, k: nat)
    requires k <= |hits| && SanitizeImages(hits[..k]).None?
    ensures SanitizeImages(hits).None?
    decreases |hits| - k
  {
    if k < |hits| {
      assert hits[..k + 1][..k] == hits[..k];
      NoneStays(hits, k + 1);
    } else {
      assert hits[..k] == hits;
    }
  }

  /** `save_to_dir` is truthy. */
  predicate DirGiven(saveToDir: Option<string>) {
    saveToDir.Some? && saveToDir.value != []
  }

  /** The name of the `i`-th result's file. */
  function FileName(basename: string, i: nat): (r: string)
    ensures basename != [] ==> StartsWith(r, basename)
    ensures basename == [] ==> StartsWith(r, "img_")
    ensures EndsWith(r, ".jpg")
  {
    (if basename != [] then basename else "img") + "_" + NatToString(i) + ".jpg"
  }

  /** Different results never share a file. */
  lemma {:induction false} FileNamesDistinct(basename: string, i: nat, j: nat)
    requires i != j
    ensures FileName(basename, i) != FileName(basename, j)
  {
    var prefix := (if basename != [] then basename else "img") + "_";
    if FileName(basename, i) == FileName(basename, j) {
      var a := NatToString(i);
      var b := NatToString(j);
      assert FileName(basename, i) == prefix + a + ".jpg";
      assert FileName(basename, j) == prefix + b + ".jpg";
      assert |a| == |b|;
      assert a == FileName(basename, i)[|prefix|..|prefix| + |a|];
      assert b == FileName(basename, j)[|prefix|..|prefix| + |b|];
      NatToStringInjective(i, j);
    }
  }

  /** `os.path.join(directory, name)` on POSIX: an absolute name replaces
      the directory. */
  function JoinPath(directory: string, name: string): (r: string)
    ensures name != [] && name[0] == '/' ==> r == name
    ensures (name == [] || name[0] != '/') ==> EndsWith(r, name)
  {
    if name != [] && name[0] == '/' then name
    else if directory == [] || directory[|directory| - 1] == '/' then directory + name
    else directory + "/" + name
  }

  /** One download: the entry's image URL and its file name. */
  datatype Download = Download(url: string, file: string)

  /** The downloads `search_images` starts, in order: one per entry with a
      truthy `image_url`, named after the entry's index. */
  function Planned(entries: seq<ImageEntry>, basename: string): (r: seq<Download>)
    ensures |r| <= |entries|
  {
    if entries == [] then []
    else
      var init := entries[..|entries| - 1];
      var e := entries[|entries| - 1];
      Planned(init, basename)
        + (if e.imageUrl.Some? && e.imageUrl.value != [] then [Download(e.imageUrl.value, FileName(basename, |entries| - 1))] else [])
  }

  /** Every file is named after the index of an entry. */
  lemma {:induction false} PlannedFiles(entries: seq<ImageEntry>, basename: string)
    ensures forall d :: d in Planned(entries, basename) ==> exists i :: 0 <= i < |entries| && d.file == FileName(basename, i)
    decreases |entries|
  {
    if entries != [] {
      PlannedFiles(entries[..|entries| - 1], basename);
    }
  }

  lemma {:induction false} PlannedStep(entries: seq<ImageEntry>, basename: string, k: nat)
    requires k < |entries|
    ensures Planned(entries[..k + 1], basename) == Planned(entries[..k], basename)
      + (if entries[k].imageUrl.Some? && entries[k].imageUrl.value != [] then [Download(entries[k].imageUrl.value, FileName(basename, k))] else [])
  {
    assert entries[..k + 1][..k] == entries[..k];
  }

  /** No two downloads of one search write the same file. */
  lemma {:induction false} PlannedFilesDistinct(entries: seq<ImageEntry>, basename: string)
    ensures forall a, b :: 0 <= a < b < |Planned(entries, basename)| ==>
      Planned(entries, basename)[a].file != Planned(entries, basename)[b].file
    decreases |entries|
  {
    if entries != [] {
      var init := entries[..|entries| - 1];
      PlannedFilesDistinct(init, basename);
      var p := Planned(init, basename);
      assert forall x, y :: 0 <= x < y < |p| ==> p[x].file != p[y].file;
      var whole := Planned(entries, basename);
      var e := entries[|entries| - 1];
      assert whole == p + (if e.imageUrl.Some? && e.imageUrl.value != [] then [Download(e.imageUrl.value, FileName(basename, |entries| - 1))] else []);
      forall a, b | 0 <= a < b < |whole|
        ensures whole[a].file != whole[b].file
      {
        if b >= |p| {
          PlannedFiles(init, basename);
          assert whole[a] == p[a] && p[a] in p;
          var i :| 0 <= i < |init| && p[a].file == FileName(basename, i);
          assert whole[b].file == FileName(basename, |entries| - 1);
          FileNamesDistinct(basename, i, |entries| - 1);
          assert whole[a].file != whole[b].file;
        } else {
          assert whole[a] == p[a] && whole[b] == p[b];
          assert p[a].file != p[b].file;
        }
      }
    }
  }

  /** What `download(url, path)` reports: the file written, or the
      failure of the request or of the write. */
  datatype Fetched = Saved | FetchFailed(error: string) | WriteFailed(error: string)

  /** The files written and the first failure's `ToolException` text. */
  datatype SaveRun = SaveRun(written: seq<string>, failure: Option<string>)

  /** The downloads done one after the other until one fails. */
  function SaveAll(planned: seq<Download>, directory: string, download: (string, string) -> Fetched): (r: SaveRun)
    ensures |r.written| <= |planned|
    ensures r.failure.None? ==> |r.written| == |planned|
    ensures forall i :: 0 <= i < |r.written| ==> r.written[i] == JoinPath(directory, planned[i].file)
  {
    if planned == [] then SaveRun([], None)
    else
      var before := SaveAll(planned[..|planned| - 1], directory, download);
      var d := planned[|planned| - 1];
      var path := JoinPath(directory, d.file);
      if before.failure.Some? then before
      else match download(d.url, path)
        case Saved => SaveRun(before.written + [path], None)
        case FetchFailed(e) => SaveRun(before.written, Some(DownloadFailed + e))
        case WriteFailed(e) => SaveRun(before.written, Some(DownloadUnexpected + e))
  }

  /** After the first failure nothing more is downloaded. */
  lemma {:induction false} FailureStays(planned: seq<Download>, directory: string, download: (string, string) -> Fetched, k: nat)
    requires k <= |planned| && SaveAll(planned[..k], directory, download).failure.Some?
    ensures SaveAll(planned, directory, download) == SaveAll(planned[..k], directory, download)
    decreases |planned| - k
  {
    if k < |planned| {
      assert planned[..k + 1][..k] == planned[..k];
      FailureStays(planned, directory, download, k + 1);
    } else {
      assert planned[..k] == planned;
    }
  }

  /** Planned downloads of the first entries come first. */
  lemma {:induction false} PlannedPrefix(entries: seq<ImageEntry>, basename: string, k: nat)
    requires k <= |entries|
    ensures var p := Planned(entries[..k], basename);
      |p| <= |Planned(entries, basename)| && Planned(entries, basename)[..|p|] == p
    decreases |entries| - k
  {
    if k < |entries| {
      PlannedPrefix(entries, basename, k + 1);
      PlannedStep(entries, basename, k);
      var p := Planned(entries[..k], basename);
      var q := Planned(entries[..k + 1], basename);
      var whole := Planned(entries, basename);
      assert q[..|p|] == p;
      assert whole[..|p|] == whole[..|q|][..|p|];
    } else {
      assert entries[..k] == entries;
    }
  }

  /** The download loop of `search_images`, by index over the entries. */
  method SaveImages(entries: seq<ImageEntry>, directory: string, basename: string, download: (string, string) -> Fetched)
    returns (run: SaveRun)
    ensures run == SaveAll(Planned(entries, basename), directory, download)
  {
    run := SaveRun([], None);
    for i := 0 to |entries|
      invariant run == SaveAll(Planned(entries[..i], basename), directory, download)
      invariant run.failure.None?
    {
      PlannedStep(entries, basename, i);
      var imageUrl := entries[i].imageUrl;
      if imageUrl.Some? && imageUrl.value != [] {
        var path := JoinPath(directory, FileName(basename, i));
        SaveStep(Planned(entries[..i], basename), Download(imageUrl.value, FileName(basename, i)), directory, download);
        match download(imageUrl.value, path)
        case Saved =>
          run := SaveRun(run.written + [path], None);
        case FetchFailed(e) =>
          run := SaveRun(run.written, Some(DownloadFailed + e));
          ToEnd(entries, basename, directory, download, i + 1);
          return;
        case WriteFailed(e) =>
          run := SaveRun(run.written, Some(DownloadUnexpected + e));
          ToEnd(entries, basename, directory, download, i + 1);
          return;
      } else {
        assert Planned(entries[..i + 1], basename) == Planned(entries[..i], basename) + [];
        assert Planned(entries[..i], basename) + [] == Planned(entries[..i], basename);
      }
    }
    assert entries[..|entries|] == entries;
  }

  /** One more download after a run without failure. */
  lemma {:induction false} SaveStep(planned: seq<Download>, d: Download, directory: string, download: (string, string) -> Fetched)
    requires SaveAll(planned, directory, download).failure.None?
    ensures var before := SaveAll(planned, directory, download);
      var path := JoinPath(directory, d.file);
      SaveAll(planned + [d], directory, download) ==
        match download(d.url, path)
          case Saved => SaveRun(before.written + [path], None)
          case FetchFailed(e) => SaveRun(before.written, Some(DownloadFailed + e))
          case WriteFailed(e) => SaveRun(before.written, Some(DownloadUnexpected + e))
  {
    assert (planned + [d])[..|planned|] == planned;
  }

  /** A failure among the first entries' downloads is the whole run's. */
  lemma {:induction false} ToEnd(entries: seq<ImageEntry>, basename: string, directory: string, download: (string, string) -> Fetched, k: nat)
    requires k <= |entries|
    requires SaveAll(Planned(entries[..k], basename), directory, download).failure.Some?
    ensures SaveAll(Planned(entries, basename), directory, download) == SaveAll(Planned(entries[..k], basename), directory, download)
  {
    var whole := Planned(entries, basename);
    PlannedPrefix(entries, basename, k);
    FailureStays(whole, directory, download, |Planned(entries[..k], basename)|);
  }

  /** What `search_images` returns, and the files it wrote. */
  datatype ImageRun = ImageRun(outcome: Outcome<seq<ImageEntry>>, written: seq<string>)

  function SearchImagesSpec(client: Client, query: string, saveToDir: Option<string>, basename: string, count: int,
                            api: (string, string, int) -> Reply<seq<ImageHit>>, download: (string, string) -> Fetched): ImageRun
  {
    if basename != [] && !DirGiven(saveToDir) then ImageRun(Raised(BasenameNeedsDir), [])
    else match api(BaseImagesUrl, query, Capped(count))
      case RequestError(e) => ImageRun(ToolException(ImageRequestFailed + e), [])
      case BadJson(e) => ImageRun(ToolException(ImageParseFailed + e), [])
      case OtherError(e) => ImageRun(ToolException(ImageUnexpected + e), [])
      case Payload(hits) =>
        match SanitizeImages(hits)
          case None => ImageRun(ToolException(ImageUnexpected + NoneHasNoGet), [])
          case Some(entries) =>
            if !DirGiven(saveToDir) then ImageRun(Results(entries), [])
            else
              var run := SaveAll(Planned(entries, basename), saveToDir.value, download);
              if run.failure.Some? then ImageRun(ToolException(ImageUnexpected + run.failure.value), run.written)
              else ImageRun(Results(entries), run.written)
  }

  /** `search_images`. */
  method SearchImages(client: Client, query: string, saveToDir: Option<string>, basename: string, count: int,
                      api: (string, string, int) -> Reply<seq<ImageHit>>, download: (string, string) -> Fetched)
    returns (r: ImageRun)
    ensures r == SearchImagesSpec(client, query, saveToDir, basename, count, api, download)
  {
    if basename != [] && !DirGiven(saveToDir) {
      return ImageRun(Raised(BasenameNeedsDir), []);
    }
    var reply := api(BaseImagesUrl, query, Capped(count));
    match reply {
      case RequestError(e) => return ImageRun(ToolException(ImageRequestFailed + e), []);
      case BadJson(e) => return ImageRun(ToolException(ImageParseFailed + e), []);
      case OtherError(e) => return ImageRun(ToolException(ImageUnexpected + e), []);
      case Payload(hits) =>
        var sanitized := SanitizeImageLoop(hits);
        if sanitized.None? {
          return ImageRun(ToolException(ImageUnexpected + NoneHasNoGet), []);
        }
        if !DirGiven(saveToDir) {
          return ImageRun(Results(sanitized.value), []);
        }
        var run := SaveImages(sanitized.value, saveToDir.value, basename, download);
        if run.failure.Some? {
          return ImageRun(ToolException(ImageUnexpected + run.failure.value), run.written);
        }
        return ImageRun(Results(sanitized.value), run.written);
    }
  }

  /** The image search never drops a result: on success there is one
      entry per result, in order; files are written only when a directory
      is given, and never twice to the same path. */
  lemma {:induction false} ImageSearchShape(client: Client, query: string, saveToDir: Option<string>, basename: string, count: int,
                         api: (string, string, int) -> Reply<seq<ImageHit>>, download: (string, string) -> Fetched)
    ensures var r := SearchImagesSpec(client, query, saveToDir, basename, count, api, download);
      (r.outcome.Results? ==>
         api(BaseImagesUrl, query, Capped(count)).Payload? &&
         |r.outcome.value| == |api(BaseImagesUrl, query, Capped(count)).results|) &&
      (!DirGiven(saveToDir) ==> r.written == []) &&
      (basename != [] && !DirGiven(saveToDir) ==> r.outcome == Raised(BasenameNeedsDir)) &&
      (forall a, b :: 0 <= a < b < |r.written| ==> r.written[a] != r.written[b])
  {
    if DirGiven(saveToDir) {
      var reply := api(BaseImagesUrl, query, Capped(count));
      if reply.Payload? && SanitizeImages(reply.results).Some? {
        var entries := SanitizeImages(reply.results).value;
        var p := Planned(entries, basename);
        var w := SaveAll(p, saveToDir.value, download).written;
        PlannedFilesDistinct(entries, basename);
        forall a, b | 0 <= a < b < |w|
          ensures w[a] != w[b]
        {
          PlannedFileStart(entries, basename, p[a]);
          PlannedFileStart(entries, basename, p[b]);
          JoinPathInjective(saveToDir.value, p[a].file, p[b].file);
        }
      }
    }
  }

  /** All planned files start alike: with the basename, or with `img_`. */
  lemma {:induction false} PlannedFileStart(entries: seq<ImageEntry>, basename: string, d: Download)
    requires d in Planned(entries, basename)
    ensures d.file != [] && d.file[0] == (if basename != [] then basename[0] else 'i')
  {
    PlannedFiles(entries, basename);
    var i :| 0 <= i < |entries| && d.file == FileName(basename, i);
    if basename == [] {
      assert "img_"[0] == 'i';
    }
  }

  /** Joining one directory with two different names that are both
      absolute or both relative gives two different paths. */
  lemma {:induction false} JoinPathInjective(directory: string, a: string, b: string)
    requires a != b && a != [] && b != [] && (a[0] == '/') == (b[0] == '/')
    ensures JoinPath(directory, a) != JoinPath(directory, b)
  {
    if a[0] != '/' {
      var sep := if directory == [] || directory[|directory| - 1] == '/' then directory else directory + "/";
      assert JoinPath(directory, a) == sep + a;
      assert JoinPath(directory, b) == sep + b;
      assert (sep + a)[|sep|..] == a;
      assert (sep + b)[|sep|..] == b;
    }
  }
}
