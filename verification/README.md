# NestJS crawler — a Dafny model of its core

The system is a small NestJS web crawler. An HTTP API enqueues crawl jobs on a
BullMQ queue backed by Redis. A worker processes each job in one of two ways:

- **lightweight crawler** (`CrawlerService`): fetches the page once and parses
  it into a document.
- **browser crawler** (`PuppeteerCrawlerService`): drives a headless browser
  through a rate limiter. It can route the browser through a rotating and
  possibly anonymised proxy, and rotates its user agents.

Both report a page's title, description, favicon, scripts, stylesheets and
images. The queue gateway (`QueueService`) does three further jobs:

- It keeps a `cancel:<id>` flag with a one-hour lifetime, which a running
  browser crawl consults after navigation.
- It keeps a `result:<id>` copy of each completed job's return value that
  outlives the BullMQ record.
- It supplies the job options (retention, attempts, back-off).

The model is pure functional Dafny, one module per part of the program:

| module | file | models |
|---|---|---|
| `Common` | `common.dfy` | optional values, JavaScript truthiness, `a \|\| b`, `slice`, `filter(Boolean)`, thrown-or-returned outcomes |
| `JsText` | `jstext.dfy` | `String.prototype.trim` over ECMAScript white space, and `parseInt(s, 10)` as in section 19.2.5 of ECMA-262, with NaN as `None` |
| `JsonValue` | `json.dfy` | JSON values, member access, truthiness, `String(v)` |
| `Config` | `config.dfy` | `src/config/index.ts`: `parseIntEnv`, the defaults, `getRedisConnectionOptions` |
| `Rotation` | `rotation.dfy` | `ProxyProvider` and `UserAgentProvider`: one shared round-robin cursor, the proxy refresh |
| `KeyedStore` | `keyedstore.dfy` | the Redis keyspace: `SET … EX` and `GET` on a logical clock, with connection failures |
| `Queue` | `queue.dfy` | `QueueService`: job options, `addJob`, `getJob`, `removeJob`, the cancel flag, stored results, the worker hooks |
| `Dom` | `dom.dfy` | documents, the four selector shapes of section 6.3 of Selectors Level 3, `querySelector(All)` |
| `LightCrawler` | `lightcrawler.dfy` | `CrawlerService`: `enqueueCrawl`, `getStatus`, `cancel`, `processJob` |
| `Normalize` | `normalize.dfy` | `_makeAbsoluteForResult`: resolution, first-seen de-duplication, caps |
| `BrowserCrawl` | `browsercrawl.dfy` | `PuppeteerCrawlerService.crawl`: limiter, proxy choice, session, navigation fallback, cancellation checkpoint, page script, cleanup |

A crawl is modelled as a run: the awaited calls it makes, phase by phase,
plus its outcome (`Threw(message)` or `Returned(value)`). Whatever lies
outside the program becomes a parameter:

- **the failure oracle** `fails`: which browser call throws, and with what.
- **the proxy helper**: whether it loads and what `anonymizeProxy` answers.
- **the limiter library**: whether it loads.
- **the URL parser**: `resolve`, standing for `new URL(link, base)` and
  partial where the constructor throws.
- **the JSON codec**: `JSON.stringify` and `JSON.parse`, with a law that
  parsing reads back what was written.
- **the Redis connection**: whether it answers.
- **the clock**: a logical time in seconds.

The settings the browser crawler and the providers read become parameters:
`maxConcurrency`, `rateLimitIntervalMs`, `rateLimitRequests`, `jobTimeoutMs`,
`proxyRotation`, `proxyList` and `userAgents`. `src/config/index.ts` does not
define any of them (see "Notes on the code" below).

## Model

| member | source | states |
|---|---|---|
| Common.OrElse | src/config/index.ts:35 | `a \|\| b` on a possibly missing string: `a` when it is a non-empty string, otherwise `b` |
| Common.Take | src/crawlers/puppeteer-crawler.service.ts:279 | `slice(0, n)`: a prefix of the list, exactly `n` long when the list is longer, and the whole list when it fits |
| Common.Truthies | src/crawlers/puppeteer-crawler.service.ts:194-196 | `filter(Boolean)` keeps no empty string and never lengthens the list |
| Common.TruthiesMembers | src/crawlers/puppeteer-crawler.service.ts:194-196 | a string survives `filter(Boolean)` exactly when it is non-empty and present in the input |
| Common.TruthiesAppend | src/crawlers/puppeteer-crawler.service.ts:194-207 | `filter(Boolean)` keeps order: filtering a concatenation concatenates the filtered parts |
| JsText.TrimStart | src/crawlers/proxy.provider.ts:47 | the start of `trim`: drops exactly a white-space prefix, and what remains does not start with white space |
| JsText.TrimEnd | src/crawlers/proxy.provider.ts:47 | the end of `trim`: drops exactly a white-space suffix, and what remains does not end with white space |
| JsText.Trim | src/crawler/crawler.service.ts:56 | `trim()` yields a string that neither starts nor ends with white space |
| JsText.TrimInfix | src/crawler/crawler.service.ts:56-59 | `trim()` yields a contiguous part of its input with only white space around it |
| JsText.TrimStartPadded | src/crawlers/proxy.provider.ts:47 | white space put in front of a string that starts with no white space is exactly what the start of `trim` removes |
| JsText.TrimEndPadded | src/crawlers/proxy.provider.ts:47 | white space put after a string that ends with no white space is exactly what the end of `trim` removes |
| JsText.TrimPadded | src/crawler/crawler.service.ts:56-59 | `trim` recovers any string that has no white space at its ends from any white-space padding around it |
| JsText.TrimIdempotent | src/crawlers/proxy.provider.ts:47 | trimming twice is trimming once |
| JsText.NatToDecimal | src/queue/queue.service.ts:16 | `String(n)` of a natural number is a non-empty digit string that reads back as `n`, with no leading zero except for 0 itself |
| JsText.DigitPrefix | src/config/index.ts:28 | the digits `parseInt` consumes: the longest all-digit prefix |
| JsText.ParseIntNaN | src/config/index.ts:28-29 | `parseInt(s, 10)` is NaN exactly when no digit follows the leading white space and optional sign |
| JsText.TrimStartUnique | src/config/index.ts:28 | the white space `parseInt` skips is the longest white-space prefix |
| JsText.ParseIntDecimal | src/config/index.ts:28 | `parseInt` of white space, an optional minus, a decimal numeral and trailing non-digit text is that signed integer |
| JsText.ParseIntCanonical | src/queue/queue.service.ts:15-18 | `parseInt(String(n), 10) == n` for every natural `n` |
| JsText.SignedDecimal | src/config/index.ts:28 | after the optional sign, `parseInt` reads the digit prefix as a number, negated after a minus |
| JsText.DigitPrefixOf | src/config/index.ts:28 | a digit run followed by a non-digit is exactly the digits consumed |
| Config.EnvOr | src/config/index.ts:35-45 | `process.env[name] \|\| default`: the variable's value when it is set and non-empty, the default otherwise |
| Config.LoadConfig | src/config/index.ts:32-46 | host, queue prefix, queue name and user agent are never empty; a password is present only when non-empty |
| Config.ConfiguredValuesWin | src/config/index.ts:32-46 | a set, non-empty `REDIS_HOST`, `QUEUE_PREFIX`, `QUEUE_NAME` or `USER_AGENT` is the field's value; `PORT`, `REDIS_PORT` and `AXIOS_TIMEOUT` are read through `parseIntEnv` |
| Config.RedisConnectionOptions | src/config/index.ts:52-59 | host and port always carried; the password carried exactly when it is non-empty, and then unchanged |
| Config.ParseIntEnvFallback | src/config/index.ts:25-30 | an unset variable, or one whose value does not start with an integer, yields the fallback |
| Config.ParseIntEnvReads | src/config/index.ts:25-30 | a variable spelling an integer (with leading white space and trailing text) yields that integer |
| Config.TrailingTextIgnored | src/config/index.ts:25-30 | a variable set to "42abc" reads as 42 |
| Config.DefaultsOnEmptyEnvironment | src/config/index.ts:32-46 | with no variables set, every field takes its documented default (3000, 127.0.0.1:6379 without password, nestjs-crawler, crawl-queue, 15000, the NestCrawler agent) |
| Config.PasswordOnlyWhenConfigured | src/config/index.ts:32-59 | the connection options carry a password exactly when `REDIS_PASSWORD` is set non-empty, and then that value |
| Rotation.Advance | src/crawlers/proxy.provider.ts:24-25 | one round-robin read returns a list entry (the one at the cursor when the cursor points into the list) and leaves the cursor inside the list |
| Rotation.ReadsSlice | src/crawlers/proxy.provider.ts:24-25 | reads that do not pass the end of the list return the next entries in list order |
| Rotation.AdvanceBySlice | src/crawlers/proxy.provider.ts:25 | the cursor moves by one per read and wraps to 0 exactly at the end of the list |
| Rotation.RoundRobinCycle | src/crawlers/proxy.provider.ts:24-25 | from cursor 0, one full cycle returns the list itself and brings the cursor back to 0 |
| Rotation.GetNext | src/crawlers/proxy.provider.ts:19-27 | null and no change for an empty list; with rotation off, the first proxy and no change; otherwise some listed proxy; the list is never changed |
| Rotation.GetNextCallsAreReads | src/crawlers/proxy.provider.ts:24-26 | with rotation on, consecutive `getNext()` calls are the cursor's round-robin reads |
| Rotation.ProxyRotationVisitsEachOnce | src/crawlers/proxy.provider.ts:11-27 | with rotation on, `n` calls on a freshly built provider visit each of its `n` proxies once, in list order |
| Rotation.FixedProxyWithoutRotation | src/crawlers/proxy.provider.ts:21-23 | with rotation off, every call returns the first proxy |
| Rotation.TrimmedNonEmpty | src/crawlers/proxy.provider.ts:47 | `map(trim).filter(Boolean)`: every entry kept is non-empty with no white space at either end |
| Rotation.TrimmedNonEmptyMembers | src/crawlers/proxy.provider.ts:47 | an entry is installed exactly when it is the non-empty trimmed form of some response entry |
| Rotation.TrimmedNonEmptyComplete | src/crawlers/proxy.provider.ts:47 | no response entry whose trimmed form is non-empty is lost |
| Rotation.TrimmedNonEmptyAppend | src/crawlers/proxy.provider.ts:47 | the filter works entry by entry: the result for a concatenation is the results for each part in turn, so input order and repeats are kept |
| Rotation.TrimmedNonEmptySingle | src/crawlers/proxy.provider.ts:47 | one entry survives as its trimmed form exactly when that is non-empty |
| Rotation.Refresh | src/crawlers/proxy.provider.ts:33-53 | the endpoint is the argument or else `PROXY_PROVIDER_API_URL`, and none is asked without one; a failed request or a body without an array leaves the provider unchanged; an array (the body or its `proxies` member) replaces the list with the trimmed non-empty `String` forms of its entries, in order, and resets the cursor to 0 |
| Rotation.RefreshInstallsStrings | src/crawlers/proxy.provider.ts:45-49 | with either URL source, a string array as the body or as its `proxies` member installs exactly the trimmed non-empty strings, in order, from cursor 0 |
| Rotation.NewUaProvider | src/crawlers/user-agent.provider.ts:9-14 | the configured list when there is one, else the single configured agent; empty only when neither is configured |
| Rotation.NextUa | src/crawlers/user-agent.provider.ts:16-23 | the configured agent on an empty list, otherwise a listed agent; the list never changes |
| Rotation.NextUaCallsAreReads | src/crawlers/user-agent.provider.ts:16-23 | on a non-empty list, consecutive `next()` calls are the cursor's round-robin reads |
| Rotation.UaRotationVisitsEachOnce | src/crawlers/user-agent.provider.ts:9-23 | a fresh provider built from `n` agents hands each of them out once, in order, in `n` calls |
| Rotation.NextUaCallsConfigured | src/crawlers/user-agent.provider.ts:16-23 | every agent handed out is listed, or is the fallback when the list is empty |
| Rotation.UaAlwaysConfigured | src/crawlers/user-agent.provider.ts:9-23 | a provider built from the configuration only ever hands out a configured agent |
| KeyedStore.Get | src/queue/queue.service.ts:148 | `GET` answers with the value stored under the key exactly while that entry lives; an expired or missing entry reads as nothing |
| KeyedStore.SetEx | src/queue/queue.service.ts:139 | `SET … EX` succeeds exactly on an answering connection with a positive expiry, and then adds that key |
| KeyedStore.Read | src/queue/queue.service.ts:148 | a read succeeds exactly when the connection answers, and then returns what `GET` gives |
| KeyedStore.GetAfterSetEx | src/queue/queue.service.ts:139 | a value set with expiry `ttl` reads back before `now + ttl` and is gone from then on |
| KeyedStore.SetExFrame | src/queue/queue.service.ts:139 | setting one key changes what no other key reads |
| KeyedStore.ExpiryIsPermanent | src/queue/queue.service.ts:139 | once expired, a key stays gone |
| Queue.KeysSeparate | src/queue/queue.service.ts:135-184 | a cancel key and a result key never coincide, and each key names exactly one job |
| Queue.ResultTtlDefault | src/queue/queue.service.ts:15-18 | without `RESULT_TTL_SECONDS`, results are kept for 86400 seconds |
| Queue.SetCancelFlag | src/queue/queue.service.ts:135-143 | an empty id or a failed write changes nothing; otherwise the job's flag reads "1"; no other key changes |
| Queue.IsCancelled | src/queue/queue.service.ts:145-153 | false for an empty id or a failed read; otherwise true exactly when the flag reads "1" |
| Queue.CancelFlagLifetime | src/queue/queue.service.ts:135-153 | a flag that was set reads as cancelled for exactly one hour |
| Queue.CancelFlagIsolated | src/queue/queue.service.ts:135-153 | flagging one job does not change whether any other job reads as cancelled |
| Queue.EmptyQueue | src/queue/queue.service.ts:34-37 | a new queue holds no jobs and is well formed |
| Queue.NextIdFresh | src/queue/queue.service.ts:66 | the next id the queue hands out differs from every id handed out before it |
| Queue.IssuedIdNonEmpty | src/queue/queue.service.ts:66 | a handed-out id is never empty |
| Queue.AddJobOptions | src/queue/queue.service.ts:66-74 | finished jobs are removed only for the exact value "true" and the last 1000 kept otherwise; exponential back-off from 1000 ms |
| Queue.AddJobAttempts | src/queue/queue.service.ts:69 | three attempts when `JOB_ATTEMPTS` is unset or empty, otherwise `parseInt` of its value |
| Queue.AddJobOptionsDefaults | src/queue/queue.service.ts:66-74 | with nothing set: keep 1000 completed and 1000 failed jobs, three attempts, exponential back-off from 1000 ms |
| Queue.AddJob | src/queue/queue.service.ts:65-76 | one new waiting, unprocessed record under a fresh non-empty id, with the given name, data and options; no other record and no key changes |
| Queue.GetJob | src/queue/queue.service.ts:78-80 | the record filed under the id, or null exactly when there is none |
| Queue.RemoveJob | src/queue/queue.service.ts:86-100 | false and nothing touched for an unknown id; otherwise the flag is set first, and the answer is whether the record could be removed, which happens only then |
| Queue.RemoveJobLeavesFlag | src/queue/queue.service.ts:86-100 | a known job reads as cancelled after `removeJob`, whether or not its record could be removed |
| Queue.StoreJobResult | src/queue/queue.service.ts:159-172 | an empty id or a failed write changes nothing, and only the job's result key can change |
| Queue.GetStoredResult | src/queue/queue.service.ts:174-184 | null for an empty id, a failed read, or a missing or empty value; otherwise exactly the parsed stored value |
| Queue.StoredResultRoundTrip | src/queue/queue.service.ts:159-184 | within its lifetime a stored result reads back as stored, with a missing value read as null |
| Queue.StoredResultExpires | src/queue/queue.service.ts:159-184 | after its lifetime a stored result reads as null |
| Queue.StoredResultDefaultDay | src/queue/queue.service.ts:15-18 | with the default lifetime a stored result reads back for a day |
| Queue.UnusableTtlStoresNothing | src/queue/queue.service.ts:159-172 | a NaN or non-positive lifetime makes the write fail, so nothing is stored |
| Queue.OnWorkerEvent | src/queue/queue.service.ts:111-131 | only a completed job writes anything, and only under its own result key |
| Queue.CompletedResultFetchable | src/queue/queue.service.ts:115-123 | a completed job's return value can be fetched under its id until its lifetime ends |
| Dom.QueryAll | src/crawler/crawler.service.ts:66 | `querySelectorAll` returns only matching elements and never more than the document holds |
| Dom.QueryFirst | src/crawler/crawler.service.ts:56 | `querySelector` returns a matching element of the document, or nothing exactly when none matches |
| Dom.QueryAllMembers | src/crawler/crawler.service.ts:66 | an element is selected exactly when it is in the document and matches |
| Dom.QueryAllAppend | src/crawler/crawler.service.ts:66 | selection keeps document order |
| Dom.QueryFirstIsHead | src/crawler/crawler.service.ts:56 | `querySelector` is the first element `querySelectorAll` returns |
| Dom.QueryFirstAfter | src/crawler/crawler.service.ts:56 | elements before the first match are skipped, whatever follows it |
| Dom.QueryFirstFinds | src/crawler/crawler.service.ts:56 | `querySelector` selects the first matching element, and nothing when none matches |
| Dom.QueryAllSingle | src/crawler/crawler.service.ts:66 | when exactly one element matches, that element alone is selected |
| Dom.QueryAllNone | src/crawler/crawler.service.ts:66 | when nothing matches, nothing is selected |
| Dom.IconWords | src/crawler/crawler.service.ts:61 | `rel~="icon"` matches "shortcut icon" and "icon" but not "stylesheet" |
| Dom.FirstAttr | src/crawler/crawler.service.ts:58 | `$(sel).attr(name)` is the attribute of the first matching element, and nothing when none matches |
| Dom.FirstText | src/crawler/crawler.service.ts:56 | `$(sel).first().text()` is the text of the first matching element, "" when none matches |
| Dom.Collect | src/crawler/crawler.service.ts:66-69 | the collected values are never empty |
| Dom.CollectMembers | src/crawler/crawler.service.ts:66-81 | a value is collected exactly when some matching element yields it, non-empty |
| Dom.CollectAppend | src/crawler/crawler.service.ts:66-81 | collection keeps document order |
| LightCrawler.EnqueueCrawl | src/crawler/crawler.service.ts:18-21 | exactly one new waiting job named "crawl" whose data's `url` is the given URL; every other job unchanged |
| LightCrawler.GetStatus | src/crawler/crawler.service.ts:23-38 | null exactly for an unknown job; otherwise the record's fields, with a result exactly when the job completed, and then its return value |
| LightCrawler.EnqueuedStatus | src/crawler/crawler.service.ts:18-38 | a freshly enqueued crawl reports as waiting, with its URL and no result |
| LightCrawler.Cancel | src/crawler/crawler.service.ts:40-42 | false and nothing touched for an unknown job; for a known one the flag is set, the answer is whether the record went, only that record goes, and the id counter is unchanged |
| LightCrawler.CancelFlagsKnownJob | src/crawler/crawler.service.ts:40-42 | cancelling a known job flags it, whether or not its record could be removed |
| LightCrawler.ImageSource | src/crawler/crawler.service.ts:79 | `src` when it is non-empty, else `data-src` |
| LightCrawler.Extract | src/crawler/crawler.service.ts:56-81 | the trimmed text of the first `title` and `content` of the first description `meta`, "" when there is none; the first `rel~=icon` link's `href` when non-empty, else the first `rel="shortcut icon"` link's, null exactly when neither is non-empty; scripts, stylesheets and images are exactly the non-empty sources of the matching elements |
| LightCrawler.ProcessJob | src/crawler/crawler.service.ts:45-95 | null data throws; a missing or falsy `url` throws "Missing URL" before any request; otherwise one request with a 15 s timeout and the fixed agent, whose error surfaces unchanged; success returns exactly the extraction plus the payload's `url` |
| LightCrawler.EnqueuedJobIsFetched | src/crawler/crawler.service.ts:18-52 | a job enqueued for a non-empty URL always reaches the request, for that URL |
| LightCrawler.EnqueuedJobExtracts | src/crawler/crawler.service.ts:45-95 | a job enqueued for a non-empty URL whose page loads returns that page's extraction with its URL |
| LightCrawler.DataSrcFallback | src/crawler/crawler.service.ts:77-81 | a lazily loaded image with only `data-src` is collected from it |
| LightCrawler.ExtractedListsInDocumentOrder | src/crawler/crawler.service.ts:65-81 | the lists follow document order |
| LightCrawler.StylesheetHrefAsWritten | src/crawler/crawler.service.ts:71-75 | a stylesheet is reported with its `href` exactly as written, relative or not |
| LightCrawler.IconHrefAsWritten | src/crawler/crawler.service.ts:60-63 | an icon link's `href` is the favicon exactly as written |
| Normalize.MakeAbsolute | src/crawlers/puppeteer-crawler.service.ts:260-267 | null for a missing or empty link, the resolved URL when it parses, the link itself when it does not |
| Normalize.Unique | src/crawlers/puppeteer-crawler.service.ts:273-279 | `Array.from(new Set(s))` has no duplicates and holds exactly the entries of `s` |
| Normalize.UniqueFirstSeenOrder | src/crawlers/puppeteer-crawler.service.ts:273-279 | the distinct entries come out in the order of their first occurrences |
| Normalize.UniqueOfNoDup | src/crawlers/puppeteer-crawler.service.ts:273-279 | a list without duplicates is its own de-duplication |
| Normalize.UniqueIdempotent | src/crawlers/puppeteer-crawler.service.ts:273-279 | de-duplicating twice is de-duplicating once |
| Normalize.Dedup | src/crawlers/puppeteer-crawler.service.ts:273-279 | one pass with a set of seen entries computes the first-seen de-duplication |
| Normalize.NormalizeList | src/crawlers/puppeteer-crawler.service.ts:273-293 | a result list has no duplicates, holds only non-empty resolutions of input links, is a prefix of the first-seen de-duplication, and is all of it under the cap and exactly `cap` long above it |
| Normalize.NormalizeListComplete | src/crawlers/puppeteer-crawler.service.ts:273-293 | under the cap, no link with a non-empty resolution is lost |
| Normalize.Normalized | src/crawlers/puppeteer-crawler.service.ts:259-294 | title and description unchanged, favicon made absolute, and each list the capped de-duplicated resolution of its input: at most 500 scripts, 500 stylesheets and 2000 images, none repeated |
| Normalize.MakeAbsoluteForResult | src/crawlers/puppeteer-crawler.service.ts:259-294 | `_makeAbsoluteForResult` field by field: each list is the capped first-seen de-duplication of its non-empty resolutions |
| BrowserCrawl.AtLeastOne | src/crawlers/puppeteer-crawler.service.ts:67 | `Math.max(1, n)` is at least 1 and at least `n`, and is one of them |
| BrowserCrawl.MinTime | src/crawlers/puppeteer-crawler.service.ts:66-68 | `ceil(interval / max(1, requests))` is the least spacing whose multiple covers the interval |
| BrowserCrawl.MakeLimiter | src/crawlers/puppeteer-crawler.service.ts:61-73 | a limiter with the configured concurrency and that least spacing exactly when the library loads, otherwise a direct call |
| BrowserCrawl.ChooseProxy | src/crawlers/puppeteer-crawler.service.ts:75-94 | no proxy without one; the anonymised URL through the helper, or none when anonymising fails; the raw proxy without the helper |
| BrowserCrawl.LaunchArgs | src/crawlers/puppeteer-crawler.service.ts:101-115 | the six fixed arguments, followed by `--proxy-server=<proxy>` exactly when a proxy was chosen |
| BrowserCrawl.BaseArgsSetNoProxy | src/crawlers/puppeteer-crawler.service.ts:101-108 | no fixed argument sets a proxy |
| BrowserCrawl.ProxyArgumentIffProxied | src/crawlers/puppeteer-crawler.service.ts:101-115 | the command line sets a proxy exactly when one was chosen, and names it |
| BrowserCrawl.Attempt | src/crawlers/puppeteer-crawler.service.ts:120-127 | awaiting calls in turn makes a prefix of them, stops at the first that throws with its error, and ends without error exactly when all succeeded |
| BrowserCrawl.Navigate | src/crawlers/puppeteer-crawler.service.ts:129-152 | one navigation waiting for network idleness; a second one waiting for the DOM exactly when the first throws; the second's error is the navigation's |
| BrowserCrawl.Reflect | src/crawlers/puppeteer-crawler.service.ts:194-196 | a URL property is empty without the attribute, and is otherwise the attribute resolved against the page, or the attribute itself when that fails |
| BrowserCrawl.ReflectIsMakeAbsolute | src/crawlers/puppeteer-crawler.service.ts:260-267 | for a non-empty attribute, the property is what `makeAbsolute` makes of it against the page's address |
| BrowserCrawl.FirstFound | src/crawlers/puppeteer-crawler.service.ts:182-185 | no candidate is found exactly when every candidate's `href` is empty, and a found one is non-empty |
| BrowserCrawl.FirstFoundAt | src/crawlers/puppeteer-crawler.service.ts:182-185 | the candidate found is the first one with a non-empty `href` |
| BrowserCrawl.FaviconRules | src/crawlers/puppeteer-crawler.service.ts:174-191 | the five candidates are tried in order and the first non-empty `href` wins; `/favicon.ico` against the page (or as it is) only when none has one |
| BrowserCrawl.PageExtract | src/crawlers/puppeteer-crawler.service.ts:160-210 | the trimmed text of the first `title`; the first description `meta` content when non-empty, else the first `og:description` content, else ""; the first candidate with an `href`, else `/favicon.ico`; scripts, stylesheets and images are exactly the non-empty `src`/`href` properties of the matching elements |
| BrowserCrawl.PageListsInDocumentOrder | src/crawlers/puppeteer-crawler.service.ts:193-207 | the page script's lists follow document order |
| BrowserCrawl.RunSession | src/crawlers/puppeteer-crawler.service.ts:119-240 | the session always starts by opening a page, and has a page exactly when that call succeeds |
| BrowserCrawl.SessionNavigation | src/crawlers/puppeteer-crawler.service.ts:120-152 | the setup completes before any navigation, and the navigation fallback holds inside the session |
| BrowserCrawl.SessionCheckpoint | src/crawlers/puppeteer-crawler.service.ts:154-160 | inside the session the cancel check sits between a loaded page and the page script |
| BrowserCrawl.SessionSucceeds | src/crawlers/puppeteer-crawler.service.ts:119-240 | the session returns exactly when every call up to the page script succeeds and the job is not cancelled |
| BrowserCrawl.SessionResult | src/crawlers/puppeteer-crawler.service.ts:212-240 | a session's result is the normalised page, the URL and the probed address, null when the probe fails |
| BrowserCrawl.SessionIgnoresCleanup | src/crawlers/puppeteer-crawler.service.ts:119-240 | what the cleanup calls do never affects the session |
| BrowserCrawl.AttemptAgrees | src/crawlers/puppeteer-crawler.service.ts:120-127 | two failure oracles that agree on the calls give the same attempt |
| BrowserCrawl.Cleanup | src/crawlers/puppeteer-crawler.service.ts:241-255 | the `finally` block always closes the browser, closes the page exactly when one opened, and closes exactly the anonymised proxy when there is one and the helper can close it |
| BrowserCrawl.Crawl | src/crawlers/puppeteer-crawler.service.ts:18-257 | the browser is launched with the arguments for the chosen proxy, and the proxy provider advances by exactly one `getNext()` |
| BrowserCrawl.CrawlProxy | src/crawlers/puppeteer-crawler.service.ts:75-115 | the proxy follows the choice table, the helper is asked exactly when there is a proxy and a helper, and the browser gets a proxy argument exactly when one was chosen |
| BrowserCrawl.LimiterOnlySchedules | src/crawlers/puppeteer-crawler.service.ts:61-96 | whether the limiter library loads changes how the run is scheduled and nothing else |
| BrowserCrawl.CrawlSession | src/crawlers/puppeteer-crawler.service.ts:117-255 | after a launch, the run is the session followed by the cleanup |
| BrowserCrawl.NavigationAttempts | src/crawlers/puppeteer-crawler.service.ts:129-152 | at most two navigations, the DOM-loaded one only after the network-idle one threw; when both throw, the second error is the crawl's |
| BrowserCrawl.CancelCheckpoint | src/crawlers/puppeteer-crawler.service.ts:154-157 | the flag is read only after a page loaded and only for a non-empty id; a cancelled job throws "Job cancelled" and the page script never runs |
| BrowserCrawl.FlaggedJobIsNotExtracted | src/crawlers/puppeteer-crawler.service.ts:154-157 | a job flagged within the last hour is never extracted, and throws "Job cancelled" once its page loads |
| BrowserCrawl.CleanupAfterLaunch | src/crawlers/puppeteer-crawler.service.ts:117-255 | after a launch, every exit path runs the cleanup; a launch that throws ends the crawl with its error and cleans nothing up |
| BrowserCrawl.CleanupErrorsSwallowed | src/crawlers/puppeteer-crawler.service.ts:241-255 | failing cleanup calls change nothing about the run |
| BrowserCrawl.LaunchFailureLeavesProxyOpen | src/crawlers/puppeteer-crawler.service.ts:75-117 | when the launch throws after a proxy was anonymised, nothing closes the anonymised proxy |
| BrowserCrawl.CrawlSucceeds | src/crawlers/puppeteer-crawler.service.ts:96-240 | a crawl returns exactly when the launch and every call up to the page script succeed and the job is not cancelled; it then returns the normalised extraction with the URL and the probed address |
| BrowserCrawl.SessionUserAgent | src/crawlers/puppeteer-crawler.service.ts:120-125 | the agent provider advances exactly when a page opened, and the page gets that agent first |
| BrowserCrawl.UserAgentChoice | src/crawlers/puppeteer-crawler.service.ts:122-124 | the agent set is one of the provider's, or a configured fallback |
| BrowserCrawl.UserAgentPerPage | src/crawlers/puppeteer-crawler.service.ts:117-125 | over a crawl, the agent provider advances exactly when a page opened, and that page gets its next agent |

## Notes on the code

- Several settings do not exist in `src/config/index.ts`:
  - The providers read `config.proxyList`, `config.proxyRotation` and
    `config.userAgents`.
  - The browser crawler reads `config.maxConcurrency`,
    `config.rateLimitIntervalMs`, `config.rateLimitRequests` and
    `config.jobTimeoutMs`.
  - As written, then, the proxy list and the agent list always start empty
    and rotation is off. The agent provider then holds just `USER_AGENT` or
    its default.
  - The model takes all these settings as parameters, so its statements hold
    for any values.
  - The constructors model the `|| []` fallback as an empty list.
- A browser launch that throws happens outside the `try` block, so the
  `finally` cleanup does not run. An anonymised proxy opened before the
  launch is then never closed. The model keeps this behaviour, and
  `BrowserCrawl.LaunchFailureLeavesProxyOpen` states it.
- The lightweight crawler has no `og:description` fallback and reports every
  link exactly as written in the page. Only the browser crawler resolves
  links and de-duplicates. The model follows the code here.
- `getStatus` reports only the BullMQ record. It never consults the stored
  result, so a job whose record BullMQ removed reports as unknown.
- `cancel` sets the cancel flag only through `removeJob`, and only for a job
  BullMQ still knows.
- Null job data makes the destructuring `const { url } = job.data` throw a
  `TypeError`. The model gives that outcome as `LightCrawler.NullPayload`.
  Data that is present but has no truthy `url` throws "Missing URL".

## Left out

- I/O and the frameworks: HTTP controllers, NestJS module wiring,
  `onModuleInit` and `onModuleDestroy`, and the logging. Opening and closing
  Redis connections is not modelled. Whether a direct Redis command (the
  cancel flag and the stored results) is answered is a parameter (`up`);
  BullMQ's own calls are not covered by it.
- `Queue.AddJob`, `Queue.GetJob` and `LightCrawler.GetStatus` always answer.
  In the code, `queue.add`, `queue.getJob` and `job.getState` reject when
  Redis is unreachable and the error reaches the caller; the model has no
  such outcome for these calls.
- The two Redis connections (client and worker) are one keyspace with one
  answering flag per command.
- BullMQ internals are out of scope: scheduling, concurrency, retries with
  back-off, retention, and state transitions. Jobs are added as waiting
  records; `getStatus` reports whatever state the record holds; `removeJob`
  takes whether BullMQ lets the record go (`removeSucceeds`) as a parameter.
  `String(job.id)` in the completed hook is the id itself.
- Bottleneck internals are out of scope. The limiter is modelled by the
  parameters it is built with, and how the crawl is run through it.
- The browser and page are not simulated. Each awaited call's failure is an
  oracle, and the loaded page is a given document, final address and URL
  parser.
- The following are not modelled:
  - Redirects, timeouts as time, `headless`, `ignoreHTTPSErrors`,
    `CHROME_EXECUTABLE_PATH`, and the stealth plugin.
  - Loading the optional libraries with `require`; only whether each loaded
    is a parameter.
- The external-address probe is reduced to whether the probe call fails and
  the address it yields. The fetch of `api.ipify.org`, its `ok` check and the
  `JSON.parse` of its body with fallback to the raw text are folded into
  that oracle.
- The proxy refresh request is reduced to its outcome. The request headers
  (`PROXY_PROVIDER_API_KEY`) and the 5 s timeout are not modelled.
- `Config.ParseIntEnv`: `Number.isFinite` also rejects an `Infinity` that a
  numeral too long for a double would give. Unbounded integers never
  overflow, so that case and double rounding are not modelled.
- HTML parsing is out of scope. The document is the parsed element list, and
  only the four selector shapes the crawlers use are modelled. Attribute
  names and values are compared exactly: no case folding and no `<base
  href>`. An element's `text` stands for cheerio's `text()` and the browser's
  `innerText`.
- JSON numbers are integers only. Fractional numbers, and how `String(v)`
  and the codec write them, are not modelled.
- `JsText.NatToDecimal` and `String(n)` for JSON integers write every
  integer in plain digits. JavaScript numbers are doubles: at or above 1e21
  `String(n)` uses exponent form ("1e+21"), and integers above 2^53 are
  already rounded by `JSON.parse`. Neither magnitude limit is modelled.
- JSON serialisation is a codec parameter. Its law (parsing reads back what
  was written, and never the empty string) is an assumption on the
  parameter, stated where it is used.
- `BrowserCrawl.RunSession` covers only the start of a session, that it
  begins by opening a page. Everything else about the session is stated in
  the `Session…` lemmas.
- `Queue.StoreJobResult` does not say which value is written. What reads
  back is stated by `Queue.StoredResultRoundTrip` under a lawful codec.
