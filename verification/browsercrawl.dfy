/**
  The browser crawler's `crawl(jobId, url)`: the limiter, the choice of
  proxy, the browser session with its navigation fallback and cancellation
  checkpoint, the script run inside the page, the normalisation of what it
  returns, and the cleanup that follows every exit after the browser
  launched.

  The browser, the proxy helper and the limiter library are outcome
  oracles: `fails(e)` is the error that awaiting browser call `e` throws, if
  any. A run is returned as its effects, phase by phase, in the order they
  happen, together with its outcome.
 */
module BrowserCrawl {
  import opened Common
  import opened JsText
  import opened Dom
  import opened Normalize
  import opened KeyedStore
  import Queue
  import Rotation

  // ---------------------------------------------------------------------
  // The limiter

  /** `Math.max(1, requests)`. */
  function AtLeastOne(n: int): (r: int)
    ensures r >= 1 && r >= n
    ensures r == 1 || r == n
  {
    if n < 1 then 1 else n
  }

  /** `Math.ceil(intervalMs / Math.max(1, requests))`: the least spacing that fits the requests into the interval. */
  function MinTime(intervalMs: int, requests: int): (r: int)
    ensures r * AtLeastOne(requests) >= intervalMs
    ensures (r - 1) * AtLeastOne(requests) < intervalMs
  {
    var b := AtLeastOne(requests);
    var q := (-intervalMs) / b;
    assert -intervalMs == q * b + (-intervalMs) % b;
    -q
  }

  /** How jobs are run: through a freshly built limiter, or called directly when the library is missing. */
  datatype Limiter = Scheduled(maxConcurrent: int, minTime: int) | Direct

  function MakeLimiter(bottleneck: bool, maxConcurrency: int, intervalMs: int, requests: int): (l: Limiter)
    ensures l.Direct? <==> !bottleneck
    ensures l.Scheduled? ==> l.maxConcurrent == maxConcurrency
    ensures l.Scheduled? ==> l.minTime * AtLeastOne(requests) >= intervalMs
    ensures l.Scheduled? ==> (l.minTime - 1) * AtLeastOne(requests) < intervalMs
  {
    if bottleneck then Scheduled(maxConcurrency, MinTime(intervalMs, requests)) else Direct
  }

  // ---------------------------------------------------------------------
  // The proxy

  /** What `anonymizeProxy` did with a proxy URL. */
  datatype Anonymized = AnonymizeFailed(message: string) | AnonymizedAs(url: string)

  /**
    The proxy the browser is told to use: none without a (truthy) proxy; the
    anonymised URL through the proxy helper, or none when it fails; the raw
    proxy when the helper is missing.
   */
  function ChooseProxy(original: Option<string>, proxyChain: bool, anonymize: string -> Anonymized): (r: Option<string>)
    ensures !TruthyOpt(original) ==> r == None
    ensures TruthyOpt(original) && proxyChain && anonymize(original.value).AnonymizedAs?
      ==> r == Some(anonymize(original.value).url)
    ensures TruthyOpt(original) && proxyChain && anonymize(original.value).AnonymizeFailed? ==> r == None
    ensures TruthyOpt(original) && !proxyChain ==> r == original
  {
    if TruthyOpt(original) && proxyChain then
      match anonymize(original.value)
      case AnonymizedAs(u) => Some(u)
      case AnonymizeFailed(_) => None
    else if TruthyOpt(original) then original
    else None
  }

  const BaseArgs: seq<string> := [
    "--no-sandbox",
    "--disable-setuid-sandbox",
    "--disable-dev-shm-usage",
    "--disable-accelerated-2d-canvas",
    "--no-first-run",
    "--no-zygote"
  ]

  const ProxyFlag: string := "--proxy-server="

  /** A command-line argument that sets the browser's proxy. */
  predicate IsProxyArg(a: string) {
    |ProxyFlag| <= |a| && a[..|ProxyFlag|] == ProxyFlag
  }

  /** The browser's command line: the fixed arguments, then the proxy when one was chosen. */
  function LaunchArgs(proxied: Option<string>): (args: seq<string>)
    ensures |args| == |BaseArgs| + (if TruthyOpt(proxied) then 1 else 0)
    ensures args[..|BaseArgs|] == BaseArgs
    ensures TruthyOpt(proxied) ==> args[|BaseArgs|] == ProxyFlag + proxied.value
  {
    if TruthyOpt(proxied) then BaseArgs + [ProxyFlag + proxied.value] else BaseArgs
  }

  /** None of the fixed arguments sets a proxy. */
  lemma BaseArgsSetNoProxy()
    ensures forall i :: 0 <= i < |BaseArgs| ==> !IsProxyArg(BaseArgs[i])
  {
    forall i | 0 <= i < |BaseArgs|
      ensures !IsProxyArg(BaseArgs[i])
    {
      assert BaseArgs[i][2] != ProxyFlag[2];
    }
  }

  /** The command line carries a proxy argument exactly when a proxy was chosen, and it names that proxy. */
  lemma ProxyArgumentIffProxied(proxied: Option<string>)
    ensures (exists i :: 0 <= i < |LaunchArgs(proxied)| && IsProxyArg(LaunchArgs(proxied)[i])) <==> TruthyOpt(proxied)
    ensures TruthyOpt(proxied) ==> ProxyFlag + proxied.value in LaunchArgs(proxied)
  {
    var args := LaunchArgs(proxied);
    BaseArgsSetNoProxy();
    forall i | 0 <= i < |BaseArgs|
      ensures args[i] == BaseArgs[i]
    {
      assert args[..|BaseArgs|][i] == BaseArgs[i];
    }
    if TruthyOpt(proxied) {
      assert (ProxyFlag + proxied.value)[..|ProxyFlag|] == ProxyFlag;
      assert IsProxyArg(args[|BaseArgs|]);
    }
  }

  // ---------------------------------------------------------------------
  // Effects

  datatype WaitUntil = NetworkIdle2 | DomContentLoaded

  /** The awaited calls a crawl makes. */
  datatype Effect =
    | Anonymize(proxy: string)
    | Launch(args: seq<string>)
    | NewPage
    | SetUserAgent(userAgent: string)
    | SetViewport(width: int, height: int)
    | SetNavigationTimeout(ms: int)
    | Goto(url: string, waitUntil: WaitUntil, timeoutMs: int)
    | CheckCancelled(jobId: string)
    | Evaluate
    | ProbeIp
    | ClosePage
    | CloseBrowser
    | CloseAnonymizedProxy(proxy: string)

  /** The calls of the `finally` block. */
  predicate IsCleanup(e: Effect) {
    e.ClosePage? || e.CloseBrowser? || e.CloseAnonymizedProxy?
  }

  type Failures = Effect -> Option<string>

  /**
    Awaiting `steps` one after the other: the steps made, up to and including
    the first that throws, and that step's error. Every step before the last
    one made succeeded, and there is no error exactly when all steps were
    made and all succeeded.
   */
  function Attempt(fails: Failures, steps: seq<Effect>): (r: (seq<Effect>, Option<string>))
    ensures |r.0| <= |steps| && r.0 == steps[..|r.0|]
    ensures forall i :: 0 <= i < |r.0| - 1 ==> fails(r.0[i]).None?
    ensures r.1.None? <==> r.0 == steps && forall i :: 0 <= i < |steps| ==> fails(steps[i]).None?
    ensures r.1.Some? ==> r.0 != [] && r.1 == fails(r.0[|r.0| - 1])
    decreases |steps|
  {
    if steps == [] then ([], None)
    else
      match fails(steps[0])
      case Some(m) => ([steps[0]], Some(m))
      case None =>
        var (done, err) := Attempt(fails, steps[1..]);
        assert forall i :: 0 < i < |steps| ==> steps[i] == steps[1..][i - 1];
        ([steps[0]] + done, err)
  }

  /**
    `page.goto` waiting for network idleness, and only if that throws, once
    more waiting for the DOM alone; an error of the second attempt is the
    navigation's error.
   */
  function Navigate(fails: Failures, url: string, timeoutMs: int): (r: (seq<Effect>, Option<string>))
    ensures var first := Goto(url, NetworkIdle2, timeoutMs);
      r.0 == [first] || r.0 == [first, Goto(url, DomContentLoaded, timeoutMs)]
    ensures |r.0| == 2 <==> fails(Goto(url, NetworkIdle2, timeoutMs)).Some?
    ensures r.1 == (if |r.0| == 2 then fails(r.0[1]) else None)
  {
    var first := Goto(url, NetworkIdle2, timeoutMs);
    if fails(first).None? then ([first], None)
    else
      var second := Goto(url, DomContentLoaded, timeoutMs);
      ([first, second], fails(second))
  }

  // ---------------------------------------------------------------------
  // The script run inside the page

  /**
    A URL-reflecting element property (`link.href`, `script.src`,
    `img.src`): "" when the attribute is absent, otherwise the value parsed
    against the page's address, or the value itself when that fails.
   */
  function Reflect(resolve: Resolver, location: string, value: Option<string>): (r: string)
    ensures value.None? ==> r == ""
    ensures value.Some? ==> r == resolve(value.value, location).GetOr(value.value)
  {
    match value
    case None => ""
    case Some(v) => resolve(v, location).GetOr(v)
  }

  /** For a non-empty attribute the property is what `makeAbsolute` makes of it against the page's address. */
  lemma ReflectIsMakeAbsolute(resolve: Resolver, location: string, value: string)
    requires value != ""
    ensures Some(Reflect(resolve, location, Some(value))) == MakeAbsolute(resolve, Some(value), location)
  {
  }

  const OgDescriptionSel: Selector := AttrEquals("meta", "property", "og:description")

  /** The favicon candidates, in the order they are tried. */
  const FaviconSelectors: seq<Selector> := [
    IconSel,
    ShortcutIconSel,
    AttrEquals("link", "rel", "apple-touch-icon"),
    AttrEquals("link", "rel", "mask-icon"),
    AttrEquals("link", "rel", "manifest")
  ]

  const FaviconPath: string := "/favicon.ico"

  /** The `href` property of the first element `sel` selects, "" when none is selected. */
  function FirstHref(resolve: Resolver, location: string, doc: Document, sel: Selector): string {
    match QueryFirst(doc, sel)
    case None => ""
    case Some(e) => Reflect(resolve, location, Attr(e, "href"))
  }

  /** The loop over the candidates: the first non-empty `href`, if any. */
  function FirstFound(resolve: Resolver, location: string, doc: Document, sels: seq<Selector>): (r: Option<string>)
    ensures r.None? <==> forall k :: 0 <= k < |sels| ==> FirstHref(resolve, location, doc, sels[k]) == ""
    ensures r.Some? ==> r.value != ""
    decreases |sels|
  {
    if sels == [] then None
    else
      var h := FirstHref(resolve, location, doc, sels[0]);
      if h != "" then Some(h)
      else
        var r := FirstFound(resolve, location, doc, sels[1..]);
        assert forall k :: 0 < k < |sels| ==> sels[k] == sels[1..][k - 1];
        r
  }

  /** The candidate found is the first one with a non-empty `href`. */
  lemma {:induction false} FirstFoundAt(resolve: Resolver, location: string, doc: Document, sels: seq<Selector>, k: nat)
    requires k < |sels|
    requires forall j :: 0 <= j < k ==> FirstHref(resolve, location, doc, sels[j]) == ""
    requires FirstHref(resolve, location, doc, sels[k]) != ""
    ensures FirstFound(resolve, location, doc, sels) == Some(FirstHref(resolve, location, doc, sels[k]))
    decreases k
  {
    if k > 0 {
      assert FirstHref(resolve, location, doc, sels[0]) == "";
      assert forall j :: 0 <= j < k - 1 ==> sels[1..][j] == sels[j + 1];
      FirstFoundAt(resolve, location, doc, sels[1..], k - 1);
    }
  }

  /** The favicon: the first candidate's `href`, else `/favicon.ico` against the page's address, else that path as it is. */
  function Favicon(resolve: Resolver, location: string, doc: Document): string {
    match FirstFound(resolve, location, doc, FaviconSelectors)
    case Some(h) => h
    case None => resolve(FaviconPath, location).GetOr(FaviconPath)
  }

  /** Candidate `k` is the first of `sels` with a non-empty `href`. */
  predicate FoundAt(resolve: Resolver, location: string, doc: Document, sels: seq<Selector>, k: int) {
    && 0 <= k < |sels|
    && FirstHref(resolve, location, doc, sels[k]) != ""
    && forall j :: 0 <= j < k ==> FirstHref(resolve, location, doc, sels[j]) == ""
  }

  /** The candidates are tried in order, and the fixed path is used only when none of them has an `href`. */
  lemma FaviconRules(resolve: Resolver, location: string, doc: Document)
    ensures forall k :: FoundAt(resolve, location, doc, FaviconSelectors, k) ==>
      Favicon(resolve, location, doc) == FirstHref(resolve, location, doc, FaviconSelectors[k])
    ensures (forall j :: 0 <= j < |FaviconSelectors| ==> FirstHref(resolve, location, doc, FaviconSelectors[j]) == "") ==>
      Favicon(resolve, location, doc) == resolve(FaviconPath, location).GetOr(FaviconPath)
  {
    forall k | FoundAt(resolve, location, doc, FaviconSelectors, k)
      ensures Favicon(resolve, location, doc) == FirstHref(resolve, location, doc, FaviconSelectors[k])
    {
      FirstFoundAt(resolve, location, doc, FaviconSelectors, k);
    }
  }

  /** The `src` property. */
  function SrcProperty(resolve: Resolver, location: string): Element -> Option<string> {
    e => Some(Reflect(resolve, location, Attr(e, "src")))
  }

  /** The `href` property. */
  function HrefProperty(resolve: Resolver, location: string): Element -> Option<string> {
    e => Some(Reflect(resolve, location, Attr(e, "href")))
  }

  /** `img.src || img.dataset.src`: the `src` property, else the raw `data-src` attribute. */
  function ImageProperty(resolve: Resolver, location: string): Element -> Option<string> {
    e => if Reflect(resolve, location, Attr(e, "src")) != "" then Some(Reflect(resolve, location, Attr(e, "src")))
         else Attr(e, "data-src")
  }

  /**
    What the page script returns for the page `doc` loaded at `location`:
    the trimmed text of the first `title`; the trimmed `content` of the
    first description `meta`, else of the first `og:description` one; the
    favicon; and the non-empty `src` and `href` properties of the scripts,
    stylesheets and images, in document order.
   */
  function PageExtract(resolve: Resolver, location: string, doc: Document): (p: PageResult)
    ensures forall k :: FirstMatchAt(doc, TitleSel, k) ==> p.title == Trim(doc[k].text)
    ensures NoMatch(doc, TitleSel) ==> p.title == ""
    ensures TruthyOpt(FirstAttr(doc, DescriptionSel, "content")) ==>
      p.metaDescription == Trim(FirstAttr(doc, DescriptionSel, "content").value)
    ensures !TruthyOpt(FirstAttr(doc, DescriptionSel, "content")) && TruthyOpt(FirstAttr(doc, OgDescriptionSel, "content")) ==>
      p.metaDescription == Trim(FirstAttr(doc, OgDescriptionSel, "content").value)
    ensures !TruthyOpt(FirstAttr(doc, DescriptionSel, "content")) && !TruthyOpt(FirstAttr(doc, OgDescriptionSel, "content")) ==>
      p.metaDescription == ""
    ensures forall k :: FoundAt(resolve, location, doc, FaviconSelectors, k) ==>
      p.favicon == FirstHref(resolve, location, doc, FaviconSelectors[k])
    ensures (forall j :: 0 <= j < |FaviconSelectors| ==> FirstHref(resolve, location, doc, FaviconSelectors[j]) == "") ==>
      p.favicon == resolve(FaviconPath, location).GetOr(FaviconPath)
    ensures forall y :: y in p.scripts <==>
      y != "" && exists e :: e in doc && Matches(e, ScriptSel) && Reflect(resolve, location, Attr(e, "src")) == y
    ensures forall y :: y in p.styles <==>
      y != "" && exists e :: e in doc && Matches(e, StylesheetSel) && Reflect(resolve, location, Attr(e, "href")) == y
    ensures forall y :: y in p.images <==>
      y != "" && exists e :: e in doc && Matches(e, ImageSel) && ImageProperty(resolve, location)(e) == Some(y)
  {
    FaviconRules(resolve, location, doc);
    CollectMembers(doc, ScriptSel, SrcProperty(resolve, location));
    CollectMembers(doc, StylesheetSel, HrefProperty(resolve, location));
    CollectMembers(doc, ImageSel, ImageProperty(resolve, location));
    PageResult(
      Trim(FirstText(doc, TitleSel)),
      Trim(OrElse(FirstAttr(doc, DescriptionSel, "content"), OrElse(FirstAttr(doc, OgDescriptionSel, "content"), ""))),
      Favicon(resolve, location, doc),
      Collect(doc, ScriptSel, SrcProperty(resolve, location)),
      Collect(doc, StylesheetSel, HrefProperty(resolve, location)),
      Collect(doc, ImageSel, ImageProperty(resolve, location)))
  }

  /** The lists follow document order: extracting from two consecutive parts concatenates their lists. */
  lemma PageListsInDocumentOrder(resolve: Resolver, location: string, a: Document, b: Document)
    ensures PageExtract(resolve, location, a + b).scripts
         == PageExtract(resolve, location, a).scripts + PageExtract(resolve, location, b).scripts
    ensures PageExtract(resolve, location, a + b).styles
         == PageExtract(resolve, location, a).styles + PageExtract(resolve, location, b).styles
    ensures PageExtract(resolve, location, a + b).images
         == PageExtract(resolve, location, a).images + PageExtract(resolve, location, b).images
  {
    CollectAppend(a, b, ScriptSel, SrcProperty(resolve, location));
    CollectAppend(a, b, StylesheetSel, HrefProperty(resolve, location));
    CollectAppend(a, b, ImageSel, ImageProperty(resolve, location));
  }

  // ---------------------------------------------------------------------
  // The crawl

  /** The configuration the crawl reads. */
  datatype Settings = Settings(
    maxConcurrency: int,
    rateLimitIntervalMs: int,
    rateLimitRequests: int,
    jobTimeoutMs: int,
    userAgent: string,
    proxyRotation: bool)

  /** The browser, and the page it ends up on. */
  datatype Browser = Browser(
    fails: Failures,                  // the error each awaited browser call throws, if any
    doc: Document,                    // the page once navigated
    location: string,                 // its address, after any redirect
    resolve: Resolver,
    externalIp: Option<string>)       // what the address probe reports

  /** Everything outside the crawler that decides how a crawl goes. */
  datatype World = World(
    bottleneck: bool,                 // the limiter library loads
    proxyChain: bool,                 // the proxy helper loads
    canCloseProxy: bool,              // and offers `closeAnonymizedProxy`
    anonymize: string -> Anonymized,  // what the helper does with a proxy
    browser: Browser)

  /** The crawler's collaborators: the two providers and the queue's store. */
  datatype Services = Services(
    proxies: Rotation.ProxyProvider,
    uas: Rotation.UaProvider,
    store: Store,
    storeUp: bool)

  datatype CrawlResult = CrawlResult(
    title: string,
    metaDescription: string,
    favicon: Option<string>,
    scripts: seq<string>,
    styles: seq<string>,
    images: seq<string>,
    url: string,
    externalIp: Option<string>)

  const JobCancelled: string := "Job cancelled"
  const ViewportWidth: int := 1366
  const ViewportHeight: int := 768

  /** `{ ...resolved, url, externalIp }`. */
  function WithUrl(n: NormalizedResult, url: string, ip: Option<string>): CrawlResult {
    CrawlResult(n.title, n.metaDescription, n.favicon, n.scripts, n.styles, n.images, url, ip)
  }

  /** What the page script returns, normalised against the crawled URL. */
  function PageOf(b: Browser, url: string): NormalizedResult {
    Normalized(b.resolve, url, PageExtract(b.resolve, b.location, b.doc))
  }

  /** The part of a crawl inside the `try` block, phase by phase. */
  datatype Session = Session(
    pageOpened: bool,
    uas: Rotation.UaProvider,
    setup: seq<Effect>,
    navigation: seq<Effect>,
    check: seq<Effect>,
    extraction: seq<Effect>,
    outcome: Outcome<CrawlResult>)

  /** The user agent: the provider's next one, or the configured one when that is empty. */
  function UserAgent(c: Settings, uas: Rotation.UaProvider): string {
    OrElse(Some(Rotation.NextUa(uas).0), c.userAgent)
  }

  /** The setup calls after the page opened. */
  function SetupSteps(c: Settings, uas: Rotation.UaProvider): seq<Effect> {
    [SetUserAgent(UserAgent(c, uas)), SetViewport(ViewportWidth, ViewportHeight), SetNavigationTimeout(c.jobTimeoutMs)]
  }

  /**
    The `try` block: open a page, set it up, navigate, check the cancel
    flag, run the page script (whose result, normalised, is `page`), probe
    the address.
   */
  function RunSession(c: Settings, b: Browser, uas: Rotation.UaProvider, cancelled: bool, jobId: string, url: string,
                      page: NormalizedResult): (s: Session)
    ensures s.setup != [] && s.setup[0] == NewPage
    ensures s.pageOpened <==> b.fails(NewPage).None?
  {
    match b.fails(NewPage)
    case Some(m) => Session(false, uas, [NewPage], [], [], [], Threw(m))
    case None =>
      var uas' := Rotation.NextUa(uas).1;
      var (setup, setupError) := Attempt(b.fails, SetupSteps(c, uas));
      if setupError.Some? then Session(true, uas', [NewPage] + setup, [], [], [], Threw(setupError.value))
      else
        var (navigation, navigationError) := Navigate(b.fails, url, c.jobTimeoutMs);
        if navigationError.Some? then Session(true, uas', [NewPage] + setup, navigation, [], [], Threw(navigationError.value))
        else
          var check := if jobId != "" then [CheckCancelled(jobId)] else [];
          if jobId != "" && cancelled then Session(true, uas', [NewPage] + setup, navigation, check, [], Threw(JobCancelled))
          else
            match b.fails(Evaluate)
            case Some(m) => Session(true, uas', [NewPage] + setup, navigation, check, [Evaluate], Threw(m))
            case None =>
              var ip := if b.fails(ProbeIp).Some? then None else b.externalIp;
              Session(true, uas', [NewPage] + setup, navigation, check, [Evaluate, ProbeIp],
                Returned(WithUrl(page, url, ip)))
  }

  /** The navigation ended with a page loaded. */
  predicate Loaded(navigation: seq<Effect>, fails: Failures) {
    navigation != [] && fails(navigation[|navigation| - 1]).None?
  }

  /** Inside the session: the setup completes before any navigation, and there are at most two navigations. */
  lemma SessionNavigation(c: Settings, b: Browser, uas: Rotation.UaProvider, cancelled: bool, jobId: string, url: string,
                            page: NormalizedResult)
    ensures var s := RunSession(c, b, uas, cancelled, jobId, url, page);
      var first := Goto(url, NetworkIdle2, c.jobTimeoutMs);
      var second := Goto(url, DomContentLoaded, c.jobTimeoutMs);
      && (s.navigation == [] || s.navigation == [first] || s.navigation == [first, second])
      && (s.navigation == [first, second] <==> s.navigation != [] && b.fails(first).Some?)
      && (s.navigation == [first, second] && b.fails(second).Some? ==> s.outcome == Threw(b.fails(second).value))
      && (s.navigation != [] ==> s.setup == [NewPage] + SetupSteps(c, uas))
  {
  }

  /** Inside the session: the cancel check sits between a successful navigation and the page script. */
  lemma SessionCheckpoint(c: Settings, b: Browser, uas: Rotation.UaProvider, cancelled: bool, jobId: string, url: string,
                            page: NormalizedResult)
    ensures var s := RunSession(c, b, uas, cancelled, jobId, url, page);
      && s.check == (if Loaded(s.navigation, b.fails) && jobId != "" then [CheckCancelled(jobId)] else [])
      && (Loaded(s.navigation, b.fails) && jobId != "" && cancelled ==> s.outcome == Threw(JobCancelled) && s.extraction == [])
      && (s.extraction != [] ==> Loaded(s.navigation, b.fails) && s.extraction[0] == Evaluate && !(jobId != "" && cancelled))
  {
  }

  /** Inside the session: it returns a result exactly when every call up to the page script succeeds and the job is not cancelled. */
  lemma SessionSucceeds(c: Settings, b: Browser, uas: Rotation.UaProvider, cancelled: bool, jobId: string, url: string,
                            page: NormalizedResult)
    ensures var s := RunSession(c, b, uas, cancelled, jobId, url, page);
      && (s.outcome.Returned? <==>
            && b.fails(NewPage).None? && (forall i :: 0 <= i < 3 ==> b.fails(SetupSteps(c, uas)[i]).None?)
            && Loaded(s.navigation, b.fails) && !(jobId != "" && cancelled) && b.fails(Evaluate).None?)
  {
  }

  /** Inside the session: a result is the normalised page with the crawled URL and the probed address, null when the probe failed. */
  lemma SessionResult(c: Settings, b: Browser, uas: Rotation.UaProvider, cancelled: bool, jobId: string, url: string,
                            page: NormalizedResult)
    ensures var s := RunSession(c, b, uas, cancelled, jobId, url, page);
      s.outcome.Returned? ==>
        s.outcome.value == WithUrl(page, url, if b.fails(ProbeIp).Some? then None else b.externalIp)
  {
  }

  /** Inside the session: what the cleanup calls would do is never consulted. */
  lemma SessionIgnoresCleanup(c: Settings, b: Browser, fails': Failures, uas: Rotation.UaProvider, cancelled: bool,
                              jobId: string, url: string, page: NormalizedResult)
    requires forall e :: !IsCleanup(e) ==> fails'(e) == b.fails(e)
    ensures RunSession(c, b.(fails := fails'), uas, cancelled, jobId, url, page) == RunSession(c, b, uas, cancelled, jobId, url, page)
  {
    var steps := SetupSteps(c, uas);
    AttemptAgrees(b.fails, fails', steps);
    assert fails'(NewPage) == b.fails(NewPage) && fails'(Evaluate) == b.fails(Evaluate) && fails'(ProbeIp) == b.fails(ProbeIp);
    assert Navigate(fails', url, c.jobTimeoutMs) == Navigate(b.fails, url, c.jobTimeoutMs) by {
      assert fails'(Goto(url, NetworkIdle2, c.jobTimeoutMs)) == b.fails(Goto(url, NetworkIdle2, c.jobTimeoutMs));
      assert fails'(Goto(url, DomContentLoaded, c.jobTimeoutMs)) == b.fails(Goto(url, DomContentLoaded, c.jobTimeoutMs));
    }
  }

  /** Two failure oracles that agree on the steps give the same attempt. */
  lemma {:induction false} AttemptAgrees(f: Failures, g: Failures, steps: seq<Effect>)
    requires forall i :: 0 <= i < |steps| ==> f(steps[i]) == g(steps[i])
    ensures Attempt(f, steps) == Attempt(g, steps)
    decreases |steps|
  {
    if steps != [] {
      AttemptAgrees(f, g, steps[1..]);
    }
  }

  /** The `finally` block: close the page if one was opened, close the browser, close the anonymised proxy if there is one to close. */
  function Cleanup(pageOpened: bool, proxied: Option<string>, closable: bool): (r: seq<Effect>)
    ensures CloseBrowser in r
    ensures ClosePage in r <==> pageOpened
    ensures forall p :: CloseAnonymizedProxy(p) in r <==> closable && TruthyOpt(proxied) && p == proxied.value
    ensures forall i :: 0 <= i < |r| ==> IsCleanup(r[i])
  {
    (if pageOpened then [ClosePage] else []) + [CloseBrowser]
      + (if closable && TruthyOpt(proxied) then [CloseAnonymizedProxy(proxied.value)] else [])
  }

  /** One crawl: how jobs are run, the proxy, the providers afterwards, the effects of each phase, and the outcome. */
  datatype CrawlRun = CrawlRun(
    limiter: Limiter,
    proxied: Option<string>,
    proxies: Rotation.ProxyProvider,
    uas: Rotation.UaProvider,
    prelude: seq<Effect>,
    launch: Effect,
    setup: seq<Effect>,
    navigation: seq<Effect>,
    check: seq<Effect>,
    extraction: seq<Effect>,
    cleanup: seq<Effect>,
    outcome: Outcome<CrawlResult>)

  /** All effects of a run in the order they happen. */
  function Trace(r: CrawlRun): seq<Effect> {
    r.prelude + [r.launch] + r.setup + r.navigation + r.check + r.extraction + r.cleanup
  }

  /**
    `crawl(jobId, url)`, with the cancel flag read at time `now`. The
    browser is launched outside the `try` block, so a launch that throws
    skips the cleanup.
   */
  function Crawl(c: Settings, w: World, sv: Services, now: int, jobId: string, url: string): (r: CrawlRun)
    ensures r.launch == Launch(LaunchArgs(r.proxied))
    ensures r.proxies == Rotation.GetNext(sv.proxies, c.proxyRotation).1
  {
    var limiter := MakeLimiter(w.bottleneck, c.maxConcurrency, c.rateLimitIntervalMs, c.rateLimitRequests);
    var (original, proxies') := Rotation.GetNext(sv.proxies, c.proxyRotation);
    var proxied := ChooseProxy(original, w.proxyChain, w.anonymize);
    var prelude := if TruthyOpt(original) && w.proxyChain then [Anonymize(original.value)] else [];
    var launch := Launch(LaunchArgs(proxied));
    match w.browser.fails(launch)
    case Some(m) => CrawlRun(limiter, proxied, proxies', sv.uas, prelude, launch, [], [], [], [], [], Threw(m))
    case None =>
      var s := RunSession(c, w.browser, sv.uas, Queue.IsCancelled(sv.store, sv.storeUp, jobId, now), jobId, url,
                          PageOf(w.browser, url));
      CrawlRun(limiter, proxied, proxies', s.uas, prelude, launch, s.setup, s.navigation, s.check, s.extraction,
        Cleanup(s.pageOpened, proxied, w.proxyChain && w.canCloseProxy), s.outcome)
  }

  // ---------------------------------------------------------------------
  // Properties of a crawl

  /** The proxy chosen follows the table, and the browser is pointed at it exactly when there is one. */
  lemma CrawlProxy(c: Settings, w: World, sv: Services, now: int, jobId: string, url: string)
    ensures var r := Crawl(c, w, sv, now, jobId, url);
      var original := Rotation.GetNext(sv.proxies, c.proxyRotation).0;
      && r.proxied == ChooseProxy(original, w.proxyChain, w.anonymize)
      && (r.prelude != [] <==> TruthyOpt(original) && w.proxyChain)
      && (r.prelude != [] ==> r.prelude == [Anonymize(original.value)])
      && ((exists i :: 0 <= i < |r.launch.args| && IsProxyArg(r.launch.args[i])) <==> TruthyOpt(r.proxied))
  {
    ProxyArgumentIffProxied(Crawl(c, w, sv, now, jobId, url).proxied);
  }

  /** Whether the limiter library is there changes how the run is scheduled and nothing else. */
  lemma LimiterOnlySchedules(c: Settings, w: World, sv: Services, now: int, jobId: string, url: string)
    ensures Crawl(c, w.(bottleneck := false), sv, now, jobId, url)
         == Crawl(c, w.(bottleneck := true), sv, now, jobId, url).(limiter := Direct)
    ensures Crawl(c, w.(bottleneck := true), sv, now, jobId, url).limiter
         == Scheduled(c.maxConcurrency, MinTime(c.rateLimitIntervalMs, c.rateLimitRequests))
  {
  }

  /** The session's part of a run, when the browser launched. */
  lemma CrawlSession(c: Settings, w: World, sv: Services, now: int, jobId: string, url: string)
    requires w.browser.fails(Crawl(c, w, sv, now, jobId, url).launch).None?
    ensures var r := Crawl(c, w, sv, now, jobId, url);
      var s := RunSession(c, w.browser, sv.uas, Queue.IsCancelled(sv.store, sv.storeUp, jobId, now), jobId, url,
                          PageOf(w.browser, url));
      && r.uas == s.uas && r.setup == s.setup && r.navigation == s.navigation && r.check == s.check
      && r.extraction == s.extraction && r.outcome == s.outcome
      && r.cleanup == Cleanup(s.pageOpened, r.proxied, w.proxyChain && w.canCloseProxy)
  {
  }

  /**
    At most two navigations: network idleness first, and the DOM-loaded
    attempt only after the first failed; when both fail, the second error
    is the crawl's error.
   */
  lemma NavigationAttempts(c: Settings, w: World, sv: Services, now: int, jobId: string, url: string)
    ensures var r := Crawl(c, w, sv, now, jobId, url);
      var first := Goto(url, NetworkIdle2, c.jobTimeoutMs);
      var second := Goto(url, DomContentLoaded, c.jobTimeoutMs);
      && (r.navigation == [] || r.navigation == [first] || r.navigation == [first, second])
      && (r.navigation == [first, second] <==> r.navigation != [] && w.browser.fails(first).Some?)
      && (r.navigation == [first, second] && w.browser.fails(second).Some? ==> r.outcome == Threw(w.browser.fails(second).value))
      && (r.navigation != [] ==> r.setup == [NewPage] + SetupSteps(c, sv.uas))
  {
    var r := Crawl(c, w, sv, now, jobId, url);
    if w.browser.fails(r.launch).None? {
      CrawlSession(c, w, sv, now, jobId, url);
      SessionNavigation(c, w.browser, sv.uas, Queue.IsCancelled(sv.store, sv.storeUp, jobId, now), jobId, url,
                      PageOf(w.browser, url));
    }
  }

  /**
    The cancel flag is read once the page has loaded and only for a
    non-empty job id; a job read as cancelled ends with "Job cancelled" and
    the page script never runs; and the page script runs only after a check
    that found the job not cancelled.
   */
  lemma CancelCheckpoint(c: Settings, w: World, sv: Services, now: int, jobId: string, url: string)
    ensures var r := Crawl(c, w, sv, now, jobId, url);
      var cancelled := Queue.IsCancelled(sv.store, sv.storeUp, jobId, now);
      && r.check == (if Loaded(r.navigation, w.browser.fails) && jobId != "" then [CheckCancelled(jobId)] else [])
      && (Loaded(r.navigation, w.browser.fails) && jobId != "" && cancelled ==> r.outcome == Threw(JobCancelled) && r.extraction == [])
      && (r.extraction != [] ==> Loaded(r.navigation, w.browser.fails) && r.extraction[0] == Evaluate && !(jobId != "" && cancelled))
  {
    var r := Crawl(c, w, sv, now, jobId, url);
    if w.browser.fails(r.launch).None? {
      CrawlSession(c, w, sv, now, jobId, url);
      SessionCheckpoint(c, w.browser, sv.uas, Queue.IsCancelled(sv.store, sv.storeUp, jobId, now), jobId, url,
                      PageOf(w.browser, url));
    }
  }

  /** A job flagged by `setCancelFlag` within the last hour is not extracted once its page loads. */
  lemma FlaggedJobIsNotExtracted(c: Settings, w: World, sv: Services, flaggedAt: int, now: int, jobId: string, url: string)
    requires jobId != "" && sv.storeUp
    requires now < flaggedAt + Queue.CancelTtlSeconds
    ensures var r := Crawl(c, w, sv.(store := Queue.SetCancelFlag(sv.store, true, jobId, flaggedAt)), now, jobId, url);
      r.extraction == [] && (Loaded(r.navigation, w.browser.fails) ==> r.outcome == Threw(JobCancelled))
  {
    Queue.CancelFlagLifetime(sv.store, jobId, flaggedAt, now);
    CancelCheckpoint(c, w, sv.(store := Queue.SetCancelFlag(sv.store, true, jobId, flaggedAt)), now, jobId, url);
  }

  /**
    After a launch, every exit path closes the page if it was opened, closes
    the browser, and closes the anonymised proxy when there is one and the
    helper can close it; a launch that throws ends the crawl with its error
    and nothing to clean up.
   */
  lemma CleanupAfterLaunch(c: Settings, w: World, sv: Services, now: int, jobId: string, url: string)
    ensures var r := Crawl(c, w, sv, now, jobId, url);
      && (w.browser.fails(r.launch).Some? ==>
            r.setup == [] && r.cleanup == [] && r.outcome == Threw(w.browser.fails(r.launch).value))
      && (w.browser.fails(r.launch).None? ==>
            && r.setup != [] && r.setup[0] == NewPage
            && r.cleanup == (if w.browser.fails(NewPage).None? then [ClosePage] else []) + [CloseBrowser]
                 + (if w.proxyChain && w.canCloseProxy && TruthyOpt(r.proxied)
                    then [CloseAnonymizedProxy(r.proxied.value)] else []))
  {
    var r := Crawl(c, w, sv, now, jobId, url);
    if w.browser.fails(r.launch).None? {
      CrawlSession(c, w, sv, now, jobId, url);
    }
  }

  /** A failing cleanup call changes nothing about the run: cleanup errors are swallowed. */
  lemma CleanupErrorsSwallowed(c: Settings, w: World, fails': Failures, sv: Services, now: int, jobId: string, url: string)
    requires forall e :: !IsCleanup(e) ==> fails'(e) == w.browser.fails(e)
    ensures Crawl(c, w.(browser := w.browser.(fails := fails')), sv, now, jobId, url) == Crawl(c, w, sv, now, jobId, url)
  {
    var r := Crawl(c, w, sv, now, jobId, url);
    assert fails'(r.launch) == w.browser.fails(r.launch);
    SessionIgnoresCleanup(c, w.browser, fails', sv.uas, Queue.IsCancelled(sv.store, sv.storeUp, jobId, now), jobId, url,
                      PageOf(w.browser, url));
  }

  /**
    A launch that throws leaves an anonymised proxy open: the helper was
    asked to anonymise, and nothing closes it.
   */
  lemma LaunchFailureLeavesProxyOpen(c: Settings, w: World, sv: Services, now: int, jobId: string, url: string)
    requires var original := Rotation.GetNext(sv.proxies, c.proxyRotation).0;
      TruthyOpt(original) && w.proxyChain && w.canCloseProxy && w.anonymize(original.value).AnonymizedAs?
    requires w.browser.fails(Crawl(c, w, sv, now, jobId, url).launch).Some?
    ensures var r := Crawl(c, w, sv, now, jobId, url);
      r.prelude != [] && r.prelude[0].Anonymize? && forall i :: 0 <= i < |Trace(r)| ==> !Trace(r)[i].CloseAnonymizedProxy?
  {
    var r := Crawl(c, w, sv, now, jobId, url);
    assert Trace(r) == r.prelude + [r.launch];
  }

  /**
    A crawl succeeds exactly when the browser launches, every call up to the
    page script succeeds and the job is not cancelled; it then returns the
    normalised extraction of the loaded page, resolved against the crawled
    URL, with that URL and the probed address, or null when the probe fails.
   */
  lemma CrawlSucceeds(c: Settings, w: World, sv: Services, now: int, jobId: string, url: string)
    ensures var r := Crawl(c, w, sv, now, jobId, url);
      var b := w.browser;
      var cancelled := jobId != "" && Queue.IsCancelled(sv.store, sv.storeUp, jobId, now);
      && (r.outcome.Returned? <==>
            && b.fails(r.launch).None? && b.fails(NewPage).None?
            && (forall i :: 0 <= i < 3 ==> b.fails(SetupSteps(c, sv.uas)[i]).None?)
            && Loaded(r.navigation, b.fails) && !cancelled && b.fails(Evaluate).None?)
      && (r.outcome.Returned? ==>
            var n := Normalized(b.resolve, url, PageExtract(b.resolve, b.location, b.doc));
            r.outcome.value == CrawlResult(n.title, n.metaDescription, n.favicon, n.scripts, n.styles, n.images, url,
                                           if b.fails(ProbeIp).Some? then None else b.externalIp))
  {
    var r := Crawl(c, w, sv, now, jobId, url);
    if w.browser.fails(r.launch).None? {
      CrawlSession(c, w, sv, now, jobId, url);
      SessionSucceeds(c, w.browser, sv.uas, Queue.IsCancelled(sv.store, sv.storeUp, jobId, now), jobId, url,
                      PageOf(w.browser, url));
      SessionResult(c, w.browser, sv.uas, Queue.IsCancelled(sv.store, sv.storeUp, jobId, now), jobId, url,
                      PageOf(w.browser, url));
    }
  }

  /** Inside the session: the user-agent provider advances exactly when the page opened, and the page is given its agent first. */
  lemma SessionUserAgent(c: Settings, b: Browser, uas: Rotation.UaProvider, cancelled: bool, jobId: string, url: string,
                         page: NormalizedResult)
    ensures var s := RunSession(c, b, uas, cancelled, jobId, url, page);
      && s.uas == (if b.fails(NewPage).None? then Rotation.NextUa(uas).1 else uas)
      && (b.fails(NewPage).None? ==> |s.setup| > 1 && s.setup[1] == SetUserAgent(UserAgent(c, uas)))
  {
  }

  /** The agent a page gets is one of the provider's, or a configured fallback. */
  lemma UserAgentChoice(c: Settings, uas: Rotation.UaProvider)
    ensures UserAgent(c, uas) in uas.cursor.items || UserAgent(c, uas) == uas.fallback || UserAgent(c, uas) == c.userAgent
  {
  }

  /** The user-agent provider advances exactly when a page was opened, and the page is given the provider's next agent. */
  lemma UserAgentPerPage(c: Settings, w: World, sv: Services, now: int, jobId: string, url: string)
    ensures var r := Crawl(c, w, sv, now, jobId, url);
      var hasPage := w.browser.fails(r.launch).None? && w.browser.fails(NewPage).None?;
      && r.uas == (if hasPage then Rotation.NextUa(sv.uas).1 else sv.uas)
      && (hasPage ==> |r.setup| > 1 && r.setup[1] == SetUserAgent(UserAgent(c, sv.uas)))
  {
    var r := Crawl(c, w, sv, now, jobId, url);
    if w.browser.fails(r.launch).None? {
      CrawlSession(c, w, sv, now, jobId, url);
      SessionUserAgent(c, w.browser, sv.uas, Queue.IsCancelled(sv.store, sv.storeUp, jobId, now), jobId, url,
                       PageOf(w.browser, url));
    }
  }
}
