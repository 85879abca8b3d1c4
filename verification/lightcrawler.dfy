/**
  The lightweight crawler service: enqueueing a crawl, reporting a job's
  status, cancelling, and the job processor that fetches the page once and
  extracts title, description, favicon, scripts, stylesheets and images from
  the parsed document. Every link is reported as written in the page.
 */
module LightCrawler {
  import opened Common
  import opened JsText
  import opened JsonValue
  import opened Dom
  import opened Queue
  import Config

  // ---------------------------------------------------------------------
  // Gateway composition

  /** The payload of a crawl job: `{ url }`. */
  function CrawlPayload(url: string): Json {
    JObj(map["url" := JStr(url)])
  }

  /** `enqueueCrawl(url)`: exactly one new job, named "crawl", carrying the URL. */
  function EnqueueCrawl(q: QueueState, env: Config.Env, url: string): (r: (Job, QueueState))
    requires WellFormed(q)
    ensures r.0.id !in q.jobs && r.1.jobs.Keys == q.jobs.Keys + {r.0.id}
    ensures |r.1.jobs| == |q.jobs| + 1
    ensures r.1.jobs[r.0.id] == r.0
    ensures r.0.name == "crawl" && Member(r.0.data, "url") == Some(JStr(url))
    ensures r.0.state == Waiting
    ensures forall id :: id in q.jobs ==> r.1.jobs[id] == q.jobs[id]
    ensures WellFormed(r.1)
  {
    var r := AddJob(q, env, "crawl", CrawlPayload(url));
    assert Member(CrawlPayload(url), "url") == Some(JStr(url));
    assert r.1.jobs.Keys == q.jobs.Keys + {r.0.id};
    r
  }

  /** What `getStatus` reports; `result` is present only for a completed job. */
  datatype Status = Status(
    id: string,
    name: string,
    data: Json,
    state: JobState,
    attemptsMade: nat,
    finishedOn: Option<int>,
    processedOn: Option<int>,
    result: Option<Json>)

  /** `getStatus(id)`: null for an unknown job, otherwise the record's fields and, once completed, its return value. */
  function GetStatus(q: QueueState, id: string): (r: Option<Status>)
    ensures r.None? <==> id !in q.jobs
    ensures r.Some? ==>
      var j := q.jobs[id];
      && r.value.id == j.id && r.value.name == j.name && r.value.data == j.data
      && r.value.state == j.state && r.value.attemptsMade == j.attemptsMade
      && r.value.finishedOn == j.finishedOn && r.value.processedOn == j.processedOn
    ensures r.Some? ==> (r.value.result.Some? <==> q.jobs[id].state == Completed)
    ensures r.Some? && r.value.result.Some? ==> r.value.result.value == q.jobs[id].returnValue
  {
    match GetJob(q, id)
    case None => None
    case Some(j) =>
      Some(Status(j.id, j.name, j.data, j.state, j.attemptsMade, j.finishedOn, j.processedOn,
                  if j.state == Completed then Some(j.returnValue) else None))
  }

  /** A freshly enqueued crawl reports as waiting, with its URL and no result. */
  lemma EnqueuedStatus(q: QueueState, env: Config.Env, url: string)
    requires WellFormed(q)
    ensures var (job, q') := EnqueueCrawl(q, env, url);
      GetStatus(q', job.id) == Some(Status(job.id, "crawl", CrawlPayload(url), Waiting, 0, None, None, None))
  {
  }

  /** `cancel(id)`: the answer of `removeJob(id)`. */
  function Cancel(q: QueueState, id: string, storeUp: bool, now: int, removeSucceeds: bool): (r: Removal)
    ensures id !in q.jobs ==> !r.removed && r.queue == q
    ensures id in q.jobs ==> r.removed == removeSucceeds
    ensures id in q.jobs ==> r.queue.store == SetCancelFlag(q.store, storeUp, id, now)
    ensures r.removed ==> id !in r.queue.jobs
    ensures r.queue.jobs == if r.removed then q.jobs - {id} else q.jobs
    ensures r.queue.lastId == q.lastId
  {
    RemoveJob(q, id, storeUp, now, removeSucceeds)
  }

  /** Cancelling a known job flags it, whether or not its record could be removed. */
  lemma CancelFlagsKnownJob(q: QueueState, id: string, now: int, removeSucceeds: bool)
    requires WellFormed(q) && id in q.jobs
    ensures IsCancelled(Cancel(q, id, true, now, removeSucceeds).queue.store, true, id, now)
  {
    RemoveJobLeavesFlag(q, id, now, removeSucceeds);
  }

  // ---------------------------------------------------------------------
  // Extraction

  function Href(e: Element): Option<string> { Attr(e, "href") }

  function Src(e: Element): Option<string> { Attr(e, "src") }

  /** `src || data-src`. */
  function ImageSource(e: Element): (r: Option<string>)
    ensures TruthyOpt(Attr(e, "src")) ==> r == Attr(e, "src")
    ensures !TruthyOpt(Attr(e, "src")) ==> r == Attr(e, "data-src")
  {
    if TruthyOpt(Attr(e, "src")) then Attr(e, "src") else Attr(e, "data-src")
  }

  /** The extracted fields, before the URL is added. */
  datatype Extracted = Extracted(
    title: string,
    metaDescription: string,
    favicon: Option<string>,
    scripts: seq<string>,
    styles: seq<string>,
    images: seq<string>)

  /**
    The extraction rules: trimmed text of the first `title` (or ""), trimmed
    `content` of the first description `meta` (or ""), the favicon from the
    first `rel~=icon` link, else the first `rel="shortcut icon"` link, else
    null, and the non-empty script sources, stylesheet hrefs and image
    sources in document order.
   */
  function Extract(doc: Document): (x: Extracted)
    ensures forall k :: FirstMatchAt(doc, TitleSel, k) ==> x.title == Trim(doc[k].text)
    ensures NoMatch(doc, TitleSel) ==> x.title == ""
    ensures forall k :: FirstMatchAt(doc, DescriptionSel, k) ==>
      x.metaDescription == Trim(OrElse(Attr(doc[k], "content"), ""))
    ensures NoMatch(doc, DescriptionSel) ==> x.metaDescription == ""
    ensures forall k :: FirstMatchAt(doc, IconSel, k) && TruthyOpt(Href(doc[k])) ==> x.favicon == Href(doc[k])
    ensures forall k ::
      (FirstMatchAt(doc, ShortcutIconSel, k) && TruthyOpt(Href(doc[k])) && !TruthyOpt(FirstAttr(doc, IconSel, "href")))
      ==> x.favicon == Href(doc[k])
    ensures x.favicon.None? <==>
      !TruthyOpt(FirstAttr(doc, IconSel, "href")) && !TruthyOpt(FirstAttr(doc, ShortcutIconSel, "href"))
    ensures x.favicon.Some? ==> x.favicon.value != ""
    ensures forall y :: y in x.scripts <==>
      y != "" && exists e :: e in doc && Matches(e, ScriptSel) && Src(e) == Some(y)
    ensures forall y :: y in x.styles <==>
      y != "" && exists e :: e in doc && Matches(e, StylesheetSel) && Href(e) == Some(y)
    ensures forall y :: y in x.images <==>
      y != "" && exists e :: e in doc && Matches(e, ImageSel) && ImageSource(e) == Some(y)
  {
    CollectMembers(doc, ScriptSel, Src);
    CollectMembers(doc, StylesheetSel, Href);
    CollectMembers(doc, ImageSel, ImageSource);
    var icon := FirstAttr(doc, IconSel, "href");
    var shortcut := FirstAttr(doc, ShortcutIconSel, "href");
    Extracted(
      Trim(FirstText(doc, TitleSel)),
      Trim(OrElse(FirstAttr(doc, DescriptionSel, "content"), "")),
      if TruthyOpt(icon) then icon else if TruthyOpt(shortcut) then shortcut else None,
      Collect(doc, ScriptSel, Src),
      Collect(doc, StylesheetSel, Href),
      Collect(doc, ImageSel, ImageSource))
  }

  // ---------------------------------------------------------------------
  // The job processor

  /** The request the processor sends. */
  datatype Request = Request(url: string, timeoutMs: int, userAgent: string)

  /** How the request went: a thrown error, or the parsed page. */
  datatype Fetch = FetchFailed(message: string) | Fetched(doc: Document)

  datatype LightResult = LightResult(
    title: string,
    metaDescription: string,
    favicon: Option<string>,
    scripts: seq<string>,
    styles: seq<string>,
    images: seq<string>,
    url: Json)

  /** The request made, if any, and how `processJob` ended. */
  datatype ProcessRun = ProcessRun(request: Option<Request>, outcome: Outcome<LightResult>)

  const RequestTimeoutMs: int := 15000
  const RequestUserAgent: string := "Mozilla/5.0 (compatible; NestCrawler/1.0)"
  const MissingUrl: string := "Missing URL"
  const NullPayload: string := "Cannot destructure property 'url' of 'job.data' as it is null."

  /**
    `processJob(job)`: a missing or falsy `url` fails with "Missing URL"
    before any request; otherwise one GET with a 15 s timeout and the fixed
    user agent, whose error surfaces unchanged, and on success the extracted
    fields together with the `url` from the payload.
   */
  function ProcessJob(data: Json, fetch: Fetch): (r: ProcessRun)
    ensures data.JNull? ==> r == ProcessRun(None, Threw(NullPayload))
    ensures !data.JNull? && (Member(data, "url").None? || !JsTruthy(Member(data, "url").value)) ==>
      r == ProcessRun(None, Threw(MissingUrl))
    ensures r.request.Some? ==>
      && Member(data, "url").Some? && JsTruthy(Member(data, "url").value)
      && r.request.value == Request(JsString(Member(data, "url").value), RequestTimeoutMs, RequestUserAgent)
    ensures !data.JNull? && Member(data, "url").Some? && JsTruthy(Member(data, "url").value) ==>
      r.request == Some(Request(JsString(Member(data, "url").value), RequestTimeoutMs, RequestUserAgent))
    ensures r.request.Some? && fetch.FetchFailed? ==> r.outcome == Threw(fetch.message)
    ensures r.request.Some? && fetch.Fetched? ==> r.outcome.Returned?
    ensures r.outcome.Returned? ==>
      && r.request.Some? && fetch.Fetched?
      && r.outcome.value.url == Member(data, "url").value
      && var x := Extract(fetch.doc);
         r.outcome.value == LightResult(x.title, x.metaDescription, x.favicon, x.scripts, x.styles, x.images, r.outcome.value.url)
  {
    if data.JNull? then ProcessRun(None, Threw(NullPayload))
    else
      match Member(data, "url")
      case None => ProcessRun(None, Threw(MissingUrl))
      case Some(url) =>
        if !JsTruthy(url) then ProcessRun(None, Threw(MissingUrl))
        else
          var req := Request(JsString(url), RequestTimeoutMs, RequestUserAgent);
          match fetch
          case FetchFailed(m) => ProcessRun(Some(req), Threw(m))
          case Fetched(doc) =>
            var x := Extract(doc);
            ProcessRun(Some(req), Returned(LightResult(x.title, x.metaDescription, x.favicon, x.scripts, x.styles, x.images, url)))
  }

  /** A job enqueued by `enqueueCrawl` always reaches the request, for the URL it was given. */
  lemma EnqueuedJobIsFetched(url: string, fetch: Fetch)
    requires url != ""
    ensures ProcessJob(CrawlPayload(url), fetch).request == Some(Request(url, RequestTimeoutMs, RequestUserAgent))
  {
  }

  /** A lazily loaded image without `src` is collected from `data-src`. */
  lemma DataSrcFallback(lazy: string)
    requires lazy != ""
    ensures Collect([Element("img", map["data-src" := lazy], "")], ImageSel, ImageSource) == [lazy]
  {
    var doc := [Element("img", map["data-src" := lazy], "")];
    assert QueryAll(doc, ImageSel) == doc;
    assert Pick(doc, ImageSource) == [Some(lazy)];
  }

  /** The lists follow document order: extracting from two consecutive parts concatenates their lists. */
  lemma ExtractedListsInDocumentOrder(a: Document, b: Document)
    ensures Extract(a + b).scripts == Extract(a).scripts + Extract(b).scripts
    ensures Extract(a + b).styles == Extract(a).styles + Extract(b).styles
    ensures Extract(a + b).images == Extract(a).images + Extract(b).images
  {
    CollectAppend(a, b, ScriptSel, Src);
    CollectAppend(a, b, StylesheetSel, Href);
    CollectAppend(a, b, ImageSel, ImageSource);
  }

  /** A stylesheet is reported with its `href` exactly as written in the page, relative or not. */
  lemma StylesheetHrefAsWritten(href: string)
    requires href != ""
    ensures Extract([Element("link", map["rel" := "stylesheet", "href" := href], "")]).styles == [href]
  {
    var doc := [Element("link", map["rel" := "stylesheet", "href" := href], "")];
    assert QueryAll(doc, StylesheetSel) == doc;
    assert Pick(doc, Href) == [Some(href)];
  }

  /** An icon link is the favicon, with its `href` exactly as written in the page. */
  lemma IconHrefAsWritten(href: string)
    requires href != ""
    ensures Extract([Element("link", map["rel" := "icon", "href" := href], "")]).favicon == Some(href)
  {
    IconWords();
    var doc := [Element("link", map["rel" := "icon", "href" := href], "")];
    assert Matches(doc[0], IconSel);
    assert QueryFirst(doc, IconSel) == Some(doc[0]);
  }

  /** A job enqueued for a non-empty URL whose page loads returns that page's extraction and its URL. */
  lemma EnqueuedJobExtracts(url: string, doc: Document)
    requires url != ""
    ensures var x := Extract(doc);
      ProcessJob(CrawlPayload(url), Fetched(doc)).outcome
        == Returned(LightResult(x.title, x.metaDescription, x.favicon, x.scripts, x.styles, x.images, JStr(url)))
  {
    EnqueuedJobIsFetched(url, Fetched(doc));
    assert Member(CrawlPayload(url), "url") == Some(JStr(url));
  }
}
