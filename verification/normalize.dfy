/**
  The browser crawler's post-processing of what the page script returned:
  every link is resolved against the crawled URL, empty results are dropped,
  duplicates are removed keeping the first occurrence (the iteration order
  of a JavaScript `Set`), and each list is capped.
 */
module Normalize {
  import opened Common

  /**
    `new URL(link, base).toString()`: the basic URL parser of the WHATWG URL
    Standard (section 4.4) followed by serialisation, `None` where the
    constructor throws. It is a parameter of the model, never interpreted.
   */
  type Resolver = (string, string) -> Option<string>

  /** `makeAbsolute(link)`: null for a missing or empty link, the resolved URL, or the link itself when resolution fails. */
  function MakeAbsolute(resolve: Resolver, link: Option<string>, base: string): (r: Option<string>)
    ensures !TruthyOpt(link) ==> r == None
    ensures TruthyOpt(link) && resolve(link.value, base).Some? ==> r == resolve(link.value, base)
    ensures TruthyOpt(link) && resolve(link.value, base).None? ==> r == link
  {
    if !TruthyOpt(link) then None
    else
      match resolve(link.value, base)
      case Some(u) => Some(u)
      case None => link
  }

  // ---------------------------------------------------------------------
  // First-seen de-duplication

  predicate NoDup(s: seq<string>) {
    forall i, j :: 0 <= i < j < |s| ==> s[i] != s[j]
  }

  /** `Array.from(new Set(s))`: the distinct entries of `s`, each where it first occurs. */
  function Unique(s: seq<string>): (r: seq<string>)
    ensures NoDup(r)
    ensures forall x :: x in r <==> x in s
    ensures |r| <= |s|
    decreases |s|
  {
    if s == [] then []
    else
      var u := Unique(s[..|s| - 1]);
      var x := s[|s| - 1];
      assert forall y :: y in s <==> y in s[..|s| - 1] || y == x by {
        assert s == s[..|s| - 1] + [x];
      }
      if x in u then u else u + [x]
  }

  /** The position where `x` first occurs in `s`. */
  function FirstIndex(s: seq<string>, x: string): (k: nat)
    requires x in s
    ensures k < |s| && s[k] == x && x !in s[..k]
    decreases |s|
  {
    if s[0] == x then 0
    else
      var k := FirstIndex(s[1..], x);
      assert s[..k + 1] == [s[0]] + s[1..][..k];
      k + 1
  }

  /** Any position of `x` with no earlier `x` is the first one. */
  lemma FirstIndexUnique(s: seq<string>, x: string, k: nat)
    requires k < |s| && s[k] == x && x !in s[..k]
    ensures FirstIndex(s, x) == k
  {
    var f := FirstIndex(s, x);
    forall j | 0 <= j < k
      ensures s[j] != x
    {
      assert s[..k][j] == s[j];
    }
    forall j | 0 <= j < f
      ensures s[j] != x
    {
      assert s[..f][j] == s[j];
    }
  }

  /** Appending does not move the first occurrence of anything already present. */
  lemma FirstIndexExtend(p: seq<string>, x: string, y: string)
    requires y in p
    ensures y in p + [x] && FirstIndex(p + [x], y) == FirstIndex(p, y)
  {
    var k := FirstIndex(p, y);
    assert (p + [x])[..k] == p[..k];
    FirstIndexUnique(p + [x], y, k);
  }

  /** The distinct entries come out in the order of their first occurrences. */
  lemma {:induction false} UniqueFirstSeenOrder(s: seq<string>)
    ensures forall i, j :: 0 <= i < j < |Unique(s)| ==>
      FirstIndex(s, Unique(s)[i]) < FirstIndex(s, Unique(s)[j])
    decreases |s|
  {
    if s != [] {
      var p := s[..|s| - 1];
      var x := s[|s| - 1];
      var u := Unique(p);
      UniqueFirstSeenOrder(p);
      assert s == p + [x];
      forall y | y in p
        ensures FirstIndex(s, y) == FirstIndex(p, y) < |p|
      {
        FirstIndexExtend(p, x, y);
      }
      if x !in u {
        assert x !in p;
        assert s[..|p|] == p;
        FirstIndexUnique(s, x, |p|);
        assert Unique(s) == u + [x];
        forall i, j | 0 <= i < j < |Unique(s)|
          ensures FirstIndex(s, Unique(s)[i]) < FirstIndex(s, Unique(s)[j])
        {
          assert Unique(s)[i] == u[i] && u[i] in p;
          if j < |u| {
            assert Unique(s)[j] == u[j] && u[j] in p;
          }
        }
      } else {
        assert Unique(s) == u;
        forall i | 0 <= i < |u|
          ensures FirstIndex(s, u[i]) == FirstIndex(p, u[i])
        {
          assert u[i] in p;
        }
      }
    }
  }

  /** A list without duplicates is its own de-duplication. */
  lemma {:induction false} UniqueOfNoDup(s: seq<string>)
    requires NoDup(s)
    ensures Unique(s) == s
    decreases |s|
  {
    if s != [] {
      var p := s[..|s| - 1];
      UniqueOfNoDup(p);
      assert s[|s| - 1] !in p;
      assert p + [s[|s| - 1]] == s;
    }
  }

  /** De-duplication is idempotent. */
  lemma UniqueIdempotent(s: seq<string>)
    ensures Unique(Unique(s)) == Unique(s)
  {
    UniqueOfNoDup(Unique(s));
  }

  /** De-duplication by one pass with a set of the entries seen so far. */
  method Dedup(s: seq<string>) returns (r: seq<string>)
    ensures r == Unique(s)
  {
    var seen: set<string> := {};
    r := [];
    var i := 0;
    while i < |s|
      invariant 0 <= i <= |s|
      invariant r == Unique(s[..i])
      invariant forall x :: x in seen <==> x in r
    {
      assert s[..i + 1][..i] == s[..i];
      if s[i] !in seen {
        r := r + [s[i]];
        seen := seen + {s[i]};
      }
      i := i + 1;
    }
    assert s[..|s|] == s;
  }

  // ---------------------------------------------------------------------
  // The result lists

  /** `links.map(makeAbsolute)`. */
  function Resolved(resolve: Resolver, links: seq<string>, base: string): (r: seq<Option<string>>) {
    seq(|links|, i requires 0 <= i < |links| => MakeAbsolute(resolve, Some(links[i]), base))
  }

  /**
    One result list: resolved, empties dropped, de-duplicated in first-seen
    order, and cut to `cap` entries. The list has no duplicates, every entry
    is the non-empty resolution of some input link, and it is a prefix of the
    de-duplicated list, all of it when that fits.
   */
  function NormalizeList(resolve: Resolver, links: seq<string>, base: string, cap: nat): (r: seq<string>)
    ensures |r| <= cap && NoDup(r)
    ensures forall x :: x in r ==> x != "" && Some(x) in Resolved(resolve, links, base)
    ensures |r| <= |Unique(Truthies(Resolved(resolve, links, base)))|
    ensures r == Unique(Truthies(Resolved(resolve, links, base)))[..|r|]
    ensures |Unique(Truthies(Resolved(resolve, links, base)))| <= cap ==>
      r == Unique(Truthies(Resolved(resolve, links, base)))
    ensures |r| == if |Unique(Truthies(Resolved(resolve, links, base)))| <= cap
      then |Unique(Truthies(Resolved(resolve, links, base)))| else cap
  {
    var kept := Truthies(Resolved(resolve, links, base));
    TruthiesMembers(Resolved(resolve, links, base));
    var u := Unique(kept);
    var r := Take(u, cap);
    assert forall x :: x in r ==> x in u;
    r
  }

  /** Under the cap, no link whose resolution is non-empty is lost. */
  lemma NormalizeListComplete(resolve: Resolver, links: seq<string>, base: string, cap: nat)
    requires |links| <= cap
    ensures forall i :: 0 <= i < |links| && TruthyOpt(MakeAbsolute(resolve, Some(links[i]), base)) ==>
      MakeAbsolute(resolve, Some(links[i]), base).value in NormalizeList(resolve, links, base, cap)
  {
    var rs := Resolved(resolve, links, base);
    TruthiesMembers(rs);
    forall i | 0 <= i < |links| && TruthyOpt(MakeAbsolute(resolve, Some(links[i]), base))
      ensures MakeAbsolute(resolve, Some(links[i]), base).value in Truthies(rs)
    {
      assert rs[i] == MakeAbsolute(resolve, Some(links[i]), base);
    }
  }

  /** What the page script returns. */
  datatype PageResult = PageResult(
    title: string,
    metaDescription: string,
    favicon: string,
    scripts: seq<string>,
    styles: seq<string>,
    images: seq<string>)

  /** The normalised result; the favicon is null only when it was empty. */
  datatype NormalizedResult = NormalizedResult(
    title: string,
    metaDescription: string,
    favicon: Option<string>,
    scripts: seq<string>,
    styles: seq<string>,
    images: seq<string>)

  const MaxScripts: nat := 500
  const MaxStyles: nat := 500
  const MaxImages: nat := 2000

  /** The normalised result, list by list. */
  function Normalized(resolve: Resolver, base: string, result: PageResult): (n: NormalizedResult)
    ensures n.title == result.title && n.metaDescription == result.metaDescription
    ensures n.favicon == MakeAbsolute(resolve, Some(result.favicon), base)
    ensures |n.scripts| <= MaxScripts && |n.styles| <= MaxStyles && |n.images| <= MaxImages
    ensures NoDup(n.scripts) && NoDup(n.styles) && NoDup(n.images)
    ensures n.scripts == NormalizeList(resolve, result.scripts, base, MaxScripts)
    ensures n.styles == NormalizeList(resolve, result.styles, base, MaxStyles)
    ensures n.images == NormalizeList(resolve, result.images, base, MaxImages)
  {
    NormalizedResult(
      result.title,
      result.metaDescription,
      MakeAbsolute(resolve, Some(result.favicon), base),
      NormalizeList(resolve, result.scripts, base, MaxScripts),
      NormalizeList(resolve, result.styles, base, MaxStyles),
      NormalizeList(resolve, result.images, base, MaxImages))
  }

  /** `_makeAbsoluteForResult(base, result)`, de-duplicating each list in one pass. */
  method MakeAbsoluteForResult(resolve: Resolver, base: string, result: PageResult) returns (n: NormalizedResult)
    ensures n == Normalized(resolve, base, result)
    ensures n.title == result.title && n.metaDescription == result.metaDescription
    ensures n.favicon == MakeAbsolute(resolve, Some(result.favicon), base)
    ensures n.scripts == NormalizeList(resolve, result.scripts, base, MaxScripts)
    ensures n.styles == NormalizeList(resolve, result.styles, base, MaxStyles)
    ensures n.images == NormalizeList(resolve, result.images, base, MaxImages)
    ensures |n.scripts| <= 500 && |n.styles| <= 500 && |n.images| <= 2000
  {
    var scripts := Dedup(Truthies(Resolved(resolve, result.scripts, base)));
    var styles := Dedup(Truthies(Resolved(resolve, result.styles, base)));
    var images := Dedup(Truthies(Resolved(resolve, result.images, base)));
    n := NormalizedResult(
      result.title,
      result.metaDescription,
      MakeAbsolute(resolve, Some(result.favicon), base),
      Take(scripts, MaxScripts),
      Take(styles, MaxStyles),
      Take(images, MaxImages));
  }
}
