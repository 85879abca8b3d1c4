/**
  The two rotation providers: the proxy provider (round-robin or fixed
  first entry, with a bulk refresh from a provider endpoint) and the
  user-agent provider (round-robin with a configured fallback). Both keep a
  list and a cursor that advances modulo the list length; that shared
  cursor is defined once here.
 */
module Rotation {
  import opened Common
  import opened JsText
  import opened JsonValue

  /** A list with a round-robin cursor. */
  datatype Cursor = Cursor(items: seq<string>, idx: nat)

  /** The cursor is the initial 0 or points into the list. */
  predicate Valid(c: Cursor) {
    c.idx == 0 || c.idx < |c.items|
  }

  /** One round-robin read: the entry at `idx % n`, then `idx := (idx + 1) % n`. */
  function Advance(c: Cursor): (r: (string, Cursor))
    requires |c.items| > 0
    ensures r.0 in c.items
    ensures r.1.items == c.items && r.1.idx < |c.items|
    ensures Valid(c) ==> r.0 == c.items[c.idx]
  {
    (c.items[c.idx % |c.items|], Cursor(c.items, (c.idx + 1) % |c.items|))
  }

  /** The entries returned by `k` consecutive reads. */
  function Reads(c: Cursor, k: nat): (r: seq<string>)
    requires |c.items| > 0
    ensures |r| == k
    decreases k
  {
    if k == 0 then [] else [Advance(c).0] + Reads(Advance(c).1, k - 1)
  }

  /** The cursor after `k` consecutive reads. */
  function AdvanceBy(c: Cursor, k: nat): Cursor
    requires |c.items| > 0
    decreases k
  {
    if k == 0 then c else AdvanceBy(Advance(c).1, k - 1)
  }

  /** From a cursor inside the list, `k` reads that do not pass the end return the next `k` entries in list order. */
  lemma {:induction false} ReadsSlice(c: Cursor, k: nat)
    requires c.idx < |c.items| && c.idx + k <= |c.items|
    ensures forall i :: 0 <= i < k ==> Reads(c, k)[i] == c.items[c.idx + i]
    decreases k
  {
    if k > 1 {
      var next := Advance(c).1;
      assert next.idx == c.idx + 1;
      ReadsSlice(next, k - 1);
      forall i | 1 <= i < k
        ensures Reads(c, k)[i] == c.items[c.idx + i]
      {
        assert Reads(c, k)[i] == Reads(next, k - 1)[i - 1];
      }
    }
  }

  /** Stepping an index inside the list wraps to 0 exactly at the end. */
  lemma StepWraps(i: nat, n: nat)
    requires i < n
    ensures (i + 1) % n == if i + 1 == n then 0 else i + 1
  {
  }

  /** From a cursor inside the list, `k` reads that reach the end leave the cursor at 0, and otherwise at `idx + k`. */
  lemma {:induction false} AdvanceBySlice(c: Cursor, k: nat)
    requires c.idx < |c.items| && c.idx + k <= |c.items|
    ensures AdvanceBy(c, k) == Cursor(c.items, if k > 0 && c.idx + k == |c.items| then 0 else c.idx + k)
    decreases k
  {
    if k > 0 {
      var next := Advance(c).1;
      StepWraps(c.idx, |c.items|);
      assert next == Cursor(c.items, if c.idx + 1 == |c.items| then 0 else c.idx + 1);
      if k > 1 {
        AdvanceBySlice(next, k - 1);
      }
      assert AdvanceBy(c, k) == AdvanceBy(next, k - 1);
    }
  }

  /** From cursor 0, `n` reads return every entry once, in list order, and bring the cursor back to 0. */
  lemma RoundRobinCycle(items: seq<string>)
    requires |items| > 0
    ensures Reads(Cursor(items, 0), |items|) == items
    ensures AdvanceBy(Cursor(items, 0), |items|) == Cursor(items, 0)
  {
    ReadsSlice(Cursor(items, 0), |items|);
    AdvanceBySlice(Cursor(items, 0), |items|);
    assert Reads(Cursor(items, 0), |items|) == items;
  }

  // ---------------------------------------------------------------------
  // Proxy provider

  datatype ProxyProvider = ProxyProvider(cursor: Cursor)

  /** The constructor: the configured proxy list with the cursor at 0. */
  function NewProxyProvider(proxyList: seq<string>): ProxyProvider {
    ProxyProvider(Cursor(proxyList, 0))
  }

  /**
    `getNext()`: null on an empty list; the first entry, cursor untouched,
    when rotation is off; otherwise the next entry round-robin.
   */
  function GetNext(p: ProxyProvider, rotation: bool): (r: (Option<string>, ProxyProvider))
    ensures p.cursor.items == [] ==> r == (None, p)
    ensures p.cursor.items != [] ==> r.0.Some? && r.0.value in p.cursor.items
    ensures !rotation ==> r.1 == p
    ensures !rotation && p.cursor.items != [] ==> r.0 == Some(p.cursor.items[0])
    ensures r.1.cursor.items == p.cursor.items
    ensures Valid(p.cursor) ==> Valid(r.1.cursor)
  {
    if |p.cursor.items| == 0 then (None, p)
    else if !rotation then (Some(p.cursor.items[0]), p)
    else
      var (x, c) := Advance(p.cursor);
      (Some(x), ProxyProvider(c))
  }

  /** The values of `k` consecutive `getNext()` calls. */
  function GetNextCalls(p: ProxyProvider, rotation: bool, k: nat): (r: seq<Option<string>>)
    ensures |r| == k
    decreases k
  {
    if k == 0 then [] else [GetNext(p, rotation).0] + GetNextCalls(GetNext(p, rotation).1, rotation, k - 1)
  }

  lemma {:induction false} GetNextCallsAreReads(p: ProxyProvider, k: nat)
    requires |p.cursor.items| > 0
    ensures forall i :: 0 <= i < k ==> GetNextCalls(p, true, k)[i] == Some(Reads(p.cursor, k)[i])
    decreases k
  {
    if k > 0 {
      var p' := GetNext(p, true).1;
      GetNextCallsAreReads(p', k - 1);
    }
  }

  /** With rotation on, `n` calls on a fresh provider visit each proxy once, in list order. */
  lemma ProxyRotationVisitsEachOnce(proxyList: seq<string>)
    requires |proxyList| > 0
    ensures GetNextCalls(NewProxyProvider(proxyList), true, |proxyList|)
         == seq(|proxyList|, i requires 0 <= i < |proxyList| => Some(proxyList[i]))
  {
    GetNextCallsAreReads(NewProxyProvider(proxyList), |proxyList|);
    RoundRobinCycle(proxyList);
    assert forall i :: 0 <= i < |proxyList| ==> Reads(Cursor(proxyList, 0), |proxyList|)[i] == proxyList[i];
  }

  /** With rotation off, every call returns the first proxy. */
  lemma {:induction false} FixedProxyWithoutRotation(p: ProxyProvider, k: nat)
    requires |p.cursor.items| > 0
    ensures GetNextCalls(p, false, k) == seq(k, i => Some(p.cursor.items[0]))
    decreases k
  {
    if k > 0 {
      FixedProxyWithoutRotation(p, k - 1);
    }
  }

  // ---------------------------------------------------------------------
  // Proxy refresh

  /** What the provider endpoint produced: a failed request, or a parsed body. */
  datatype ProviderResponse = RequestFailed | Responded(data: Json)

  /** The endpoint asked (if any) and the provider afterwards. */
  datatype RefreshRun = RefreshRun(requested: Option<string>, provider: ProxyProvider)

  /** The body itself when it is an array, else its `proxies` member when that is an array. */
  function ProxyListIn(data: Json): Option<seq<Json>> {
    if data.JArr? then Some(data.items)
    else
      match Member(data, "proxies")
      case Some(JArr(items)) => Some(items)
      case _ => None
  }

  /** `list.map(p => String(p))`. */
  function Stringify(items: seq<Json>): (r: seq<string>) {
    seq(|items|, i requires 0 <= i < |items| => JsString(items[i]))
  }

  /** `.map(s => s.trim()).filter(Boolean)`: every entry is trimmed and non-empty. */
  function TrimmedNonEmpty(names: seq<string>): (r: seq<string>)
    ensures |r| <= |names|
    ensures forall i :: 0 <= i < |r| ==> Clean(r[i])
    decreases |names|
  {
    if names == [] then []
    else
      var t := Trim(names[0]);
      var rest := TrimmedNonEmpty(names[1..]);
      if t == "" then rest else [t] + rest
  }

  /** A proxy entry as a refresh installs it: non-empty, without white space at either end. */
  predicate Clean(x: string) {
    x != "" && !IsJsSpace(x[0]) && !IsJsSpace(x[|x| - 1])
  }

  /** Every entry trimmed, nothing dropped. */
  function TrimAll(names: seq<string>): (r: seq<string>)
    ensures |r| == |names|
    ensures forall i :: 0 <= i < |names| ==> r[i] == Trim(names[i])
    decreases |names|
  {
    if names == [] then [] else [Trim(names[0])] + TrimAll(names[1..])
  }

  /** An entry is kept exactly when it is the non-empty trimmed form of some input entry. */
  lemma {:induction false} TrimmedNonEmptyMembers(names: seq<string>)
    ensures forall x :: x in TrimmedNonEmpty(names) <==> x in TrimAll(names) && x != ""
    decreases |names|
  {
    if names != [] {
      TrimmedNonEmptyMembers(names[1..]);
      assert TrimAll(names) == [Trim(names[0])] + TrimAll(names[1..]);
    }
  }

  /** A single entry survives exactly as its trimmed form, when that is non-empty. */
  lemma TrimmedNonEmptySingle(x: string)
    ensures TrimmedNonEmpty([x]) == if Trim(x) == "" then [] else [Trim(x)]
  {
    assert [x][1..] == [];
  }

  /**
    The filter works entry by entry and keeps the input order and any
    repeats: the entries of a concatenation are those of each part, in turn.
   */
  lemma {:induction false} TrimmedNonEmptyAppend(a: seq<string>, b: seq<string>)
    ensures TrimmedNonEmpty(a + b) == TrimmedNonEmpty(a) + TrimmedNonEmpty(b)
    decreases |a|
  {
    if a == [] {
      assert a + b == b;
    } else {
      assert (a + b)[0] == a[0];
      assert (a + b)[1..] == a[1..] + b;
      TrimmedNonEmptyAppend(a[1..], b);
    }
  }

  /** No entry whose trimmed form is non-empty is dropped. */
  lemma TrimmedNonEmptyComplete(names: seq<string>)
    ensures forall j :: 0 <= j < |names| && Trim(names[j]) != "" ==> Trim(names[j]) in TrimmedNonEmpty(names)
  {
    TrimmedNonEmptyMembers(names);
    assert forall j :: 0 <= j < |names| ==> TrimAll(names)[j] == Trim(names[j]);
  }

  /**
    `refreshFromProvider(providerUrl)`: the endpoint is the argument or else
    `PROXY_PROVIDER_API_URL`; nothing happens without one. An array in the
    response (the body or its `proxies` member) replaces the list with its
    trimmed non-empty entries and resets the cursor; any other body, or a
    failed request, leaves the provider as it was.
   */
  function Refresh(p: ProxyProvider, providerUrl: Option<string>, envUrl: Option<string>,
                   response: ProviderResponse): (r: RefreshRun)
    ensures r.requested.Some? <==> TruthyOpt(providerUrl) || TruthyOpt(envUrl)
    ensures r.requested.Some? ==> r.requested.value == OrElse(providerUrl, envUrl.GetOr(""))
    ensures r.requested.None? || response.RequestFailed? ==> r.provider == p
    ensures response.Responded? && ProxyListIn(response.data).None? ==> r.provider == p
    ensures r.requested.Some? && response.Responded? && ProxyListIn(response.data).Some? ==>
      r.provider == ProxyProvider(Cursor(TrimmedNonEmpty(Stringify(ProxyListIn(response.data).value)), 0))
    ensures r.provider != p ==>
      && r.provider.cursor.idx == 0
      && forall i :: 0 <= i < |r.provider.cursor.items| ==>
           Clean(r.provider.cursor.items[i])
    ensures Valid(p.cursor) ==> Valid(r.provider.cursor)
  {
    var url := OrElse(providerUrl, envUrl.GetOr(""));
    if url == "" then RefreshRun(None, p)
    else
      match response
      case RequestFailed => RefreshRun(Some(url), p)
      case Responded(data) =>
        match ProxyListIn(data)
        case Some(list) => RefreshRun(Some(url), ProxyProvider(Cursor(TrimmedNonEmpty(Stringify(list)), 0)))
        case None => RefreshRun(Some(url), p)
  }

  /** The JSON array of the given strings. */
  function Strings(names: seq<string>): (r: seq<Json>)
    ensures |r| == |names|
    ensures forall i :: 0 <= i < |names| ==> r[i] == JStr(names[i])
  {
    seq(|names|, i requires 0 <= i < |names| => JStr(names[i]))
  }

  /**
    Once an endpoint is known, an array of strings, as the body or as its
    `proxies` member, installs exactly their trimmed non-empty forms, in
    order, from cursor 0.
   */
  lemma RefreshInstallsStrings(p: ProxyProvider, providerUrl: Option<string>, envUrl: Option<string>,
                               names: seq<string>, fields: map<string, Json>)
    requires TruthyOpt(providerUrl) || TruthyOpt(envUrl)
    ensures Refresh(p, providerUrl, envUrl, Responded(JArr(Strings(names)))).provider.cursor
         == Cursor(TrimmedNonEmpty(names), 0)
    ensures Refresh(p, providerUrl, envUrl, Responded(JObj(fields["proxies" := JArr(Strings(names))]))).provider.cursor
         == Cursor(TrimmedNonEmpty(names), 0)
  {
    assert Stringify(Strings(names)) == names;
    var wrapped := JObj(fields["proxies" := JArr(Strings(names))]);
    assert Member(wrapped, "proxies") == Some(JArr(Strings(names)));
    assert ProxyListIn(wrapped) == Some(Strings(names));
  }

  // ---------------------------------------------------------------------
  // User-agent provider

  datatype UaProvider = UaProvider(cursor: Cursor, fallback: string)

  /** The constructor: the configured list, or the single configured user agent when the list is empty. */
  function NewUaProvider(userAgents: seq<string>, userAgent: string): (p: UaProvider)
    ensures p.cursor.idx == 0 && p.fallback == userAgent
    ensures p.cursor.items == [] <==> userAgents == [] && userAgent == ""
    ensures userAgents != [] ==> p.cursor.items == userAgents
    ensures forall x :: x in p.cursor.items ==> x in userAgents || x == userAgent
  {
    var items := if |userAgents| == 0 && userAgent != "" then [userAgent] else userAgents;
    UaProvider(Cursor(items, 0), userAgent)
  }

  /** `next()`: the configured user agent on an empty list, otherwise the next entry round-robin. */
  function NextUa(p: UaProvider): (r: (string, UaProvider))
    ensures p.cursor.items == [] ==> r == (p.fallback, p)
    ensures p.cursor.items != [] ==> r.0 in p.cursor.items
    ensures r.1.cursor.items == p.cursor.items && r.1.fallback == p.fallback
    ensures Valid(p.cursor) ==> Valid(r.1.cursor)
  {
    if |p.cursor.items| == 0 then (p.fallback, p)
    else
      var (x, c) := Advance(p.cursor);
      (x, UaProvider(c, p.fallback))
  }

  /** The values of `k` consecutive `next()` calls. */
  function NextUaCalls(p: UaProvider, k: nat): (r: seq<string>)
    ensures |r| == k
    decreases k
  {
    if k == 0 then [] else [NextUa(p).0] + NextUaCalls(NextUa(p).1, k - 1)
  }

  lemma {:induction false} NextUaCallsAreReads(p: UaProvider, k: nat)
    requires |p.cursor.items| > 0
    ensures NextUaCalls(p, k) == Reads(p.cursor, k)
    decreases k
  {
    if k > 0 {
      NextUaCallsAreReads(NextUa(p).1, k - 1);
    }
  }

  /** `n` calls on a fresh provider built from `n` user agents return each of them once, in order. */
  lemma UaRotationVisitsEachOnce(userAgents: seq<string>, userAgent: string)
    requires |userAgents| > 0
    ensures NextUaCalls(NewUaProvider(userAgents, userAgent), |userAgents|) == userAgents
  {
    NextUaCallsAreReads(NewUaProvider(userAgents, userAgent), |userAgents|);
    RoundRobinCycle(userAgents);
  }

  /** Every `next()` value is an entry of the list, or the fallback when the list is empty. */
  lemma {:induction false} NextUaCallsConfigured(p: UaProvider, k: nat)
    ensures forall i :: 0 <= i < k ==>
      NextUaCalls(p, k)[i] in p.cursor.items || (p.cursor.items == [] && NextUaCalls(p, k)[i] == p.fallback)
    decreases k
  {
    if k > 0 {
      NextUaCallsConfigured(NextUa(p).1, k - 1);
    }
  }

  /** A provider built from the configuration only ever hands out a configured user agent. */
  lemma UaAlwaysConfigured(userAgents: seq<string>, userAgent: string, k: nat)
    ensures forall i :: 0 <= i < k ==>
      NextUaCalls(NewUaProvider(userAgents, userAgent), k)[i] in userAgents + [userAgent]
  {
    NextUaCallsConfigured(NewUaProvider(userAgents, userAgent), k);
  }
}
