/**
  A parsed HTML document reduced to what both crawlers query: the elements
  in document order, each with its tag name, attributes and text, and the
  four selector shapes the crawlers use (`tag`, `tag[attr]`,
  `tag[attr="value"]` and `tag[attr~="word"]`, as section 6.3 of Selectors
  Level 3 defines them), with `querySelectorAll` and `querySelector`.
 */
module Dom {
  import opened Common

  /** An element: lower-case tag name, attributes, text content. */
  datatype Element = Element(tag: string, attrs: map<string, string>, text: string)

  /** The elements of a document in document order. */
  type Document = seq<Element>

  function Attr(e: Element, name: string): Option<string> {
    if name in e.attrs then Some(e.attrs[name]) else None
  }

  /** White space inside an attribute value: space, tab, line feed, form feed, carriage return. */
  predicate IsCssSpace(c: char) {
    c == ' ' || c == '\t' || c == '\n' || c == '\U{000C}' || c == '\r'
  }

  /**
    `[attr~="word"]`: the value is a white-space-separated list of words, one
    of which is exactly `word`. An empty word or one with white space in it
    matches nothing.
   */
  predicate HasToken(value: string, word: string) {
    && word != ""
    && (forall k :: 0 <= k < |word| ==> !IsCssSpace(word[k]))
    && exists i :: 0 <= i <= |value| && WordAt(value, word, i)
  }

  /** `word` occurs in `value` at offset `i` with white space or an end of `value` on both sides. */
  predicate WordAt(value: string, word: string, i: int) {
    && 0 <= i && i + |word| <= |value| && value[i..i + |word|] == word
    && (i == 0 || IsCssSpace(value[i - 1]))
    && (i + |word| == |value| || IsCssSpace(value[i + |word|]))
  }

  datatype Selector =
    | Tag(name: string)
    | TagWithAttr(name: string, attr: string)
    | AttrEquals(name: string, attr: string, value: string)
    | AttrHasToken(name: string, attr: string, word: string)

  predicate Matches(e: Element, sel: Selector) {
    e.tag == sel.name &&
    match sel
    case Tag(_) => true
    case TagWithAttr(_, a) => a in e.attrs
    case AttrEquals(_, a, v) => a in e.attrs && e.attrs[a] == v
    case AttrHasToken(_, a, w) => a in e.attrs && HasToken(e.attrs[a], w)
  }

  /** `querySelectorAll(sel)`: the matching elements, in document order. */
  function QueryAll(doc: Document, sel: Selector): (r: Document)
    ensures |r| <= |doc|
    ensures forall i :: 0 <= i < |r| ==> Matches(r[i], sel)
    decreases |doc|
  {
    if doc == [] then []
    else (if Matches(doc[0], sel) then [doc[0]] else []) + QueryAll(doc[1..], sel)
  }

  /** `querySelector(sel)`: the first matching element, if any. */
  function QueryFirst(doc: Document, sel: Selector): (r: Option<Element>)
    ensures r.Some? ==> Matches(r.value, sel) && r.value in doc
    ensures r.None? ==> forall i :: 0 <= i < |doc| ==> !Matches(doc[i], sel)
    decreases |doc|
  {
    if doc == [] then None
    else if Matches(doc[0], sel) then Some(doc[0])
    else QueryFirst(doc[1..], sel)
  }

  // ---------------------------------------------------------------------
  // Properties

  /** An element is selected exactly when it is in the document and matches. */
  lemma {:induction false} QueryAllMembers(doc: Document, sel: Selector)
    ensures forall e :: e in QueryAll(doc, sel) <==> e in doc && Matches(e, sel)
    decreases |doc|
  {
    if doc != [] {
      QueryAllMembers(doc[1..], sel);
      assert doc == [doc[0]] + doc[1..];
    }
  }

  /** Selection keeps document order: selecting from two parts one after the other concatenates the results. */
  lemma {:induction false} QueryAllAppend(a: Document, b: Document, sel: Selector)
    ensures QueryAll(a + b, sel) == QueryAll(a, sel) + QueryAll(b, sel)
    decreases |a|
  {
    if a == [] {
      assert a + b == b;
    } else {
      assert (a + b)[1..] == a[1..] + b;
      QueryAllAppend(a[1..], b, sel);
    }
  }

  /** `querySelector` is the head of `querySelectorAll`. */
  lemma {:induction false} QueryFirstIsHead(doc: Document, sel: Selector)
    ensures QueryFirst(doc, sel) == if QueryAll(doc, sel) == [] then None else Some(QueryAll(doc, sel)[0])
    decreases |doc|
  {
    if doc != [] && !Matches(doc[0], sel) {
      QueryFirstIsHead(doc[1..], sel);
    }
  }

  /** Elements before the first match are skipped, whatever follows it. */
  lemma {:induction false} QueryFirstAfter(pre: Document, e: Element, post: Document, sel: Selector)
    requires forall i :: 0 <= i < |pre| ==> !Matches(pre[i], sel)
    requires Matches(e, sel)
    ensures QueryFirst(pre + [e] + post, sel) == Some(e)
    decreases |pre|
  {
    if pre == [] {
      assert (pre + [e] + post)[0] == e;
    } else {
      assert (pre + [e] + post)[1..] == pre[1..] + [e] + post;
      QueryFirstAfter(pre[1..], e, post, sel);
    }
  }

  /** Element `k` is the first in the document that `sel` matches. */
  predicate FirstMatchAt(doc: Document, sel: Selector, k: int) {
    0 <= k < |doc| && Matches(doc[k], sel) && forall j :: 0 <= j < k ==> !Matches(doc[j], sel)
  }

  /** No element of the document matches `sel`. */
  predicate NoMatch(doc: Document, sel: Selector) {
    forall i :: 0 <= i < |doc| ==> !Matches(doc[i], sel)
  }

  /** `querySelector` selects the first matching element, and nothing when none matches. */
  lemma {:induction false} QueryFirstFinds(doc: Document, sel: Selector)
    ensures forall k :: FirstMatchAt(doc, sel, k) ==> QueryFirst(doc, sel) == Some(doc[k])
    ensures NoMatch(doc, sel) ==> QueryFirst(doc, sel) == None
    decreases |doc|
  {
    if doc != [] {
      QueryFirstFinds(doc[1..], sel);
      forall k | FirstMatchAt(doc, sel, k)
        ensures QueryFirst(doc, sel) == Some(doc[k])
      {
        if k > 0 {
          assert FirstMatchAt(doc[1..], sel, k - 1);
        }
      }
      if NoMatch(doc, sel) {
        assert NoMatch(doc[1..], sel);
      }
    }
  }

  /** When exactly one element matches, that element is all `querySelectorAll` selects. */
  lemma {:induction false} QueryAllSingle(doc: Document, sel: Selector, hit: nat)
    requires hit < |doc|
    requires forall k :: 0 <= k < |doc| ==> (Matches(doc[k], sel) <==> k == hit)
    ensures QueryAll(doc, sel) == [doc[hit]]
    decreases |doc|
  {
    if hit == 0 {
      QueryAllNone(doc[1..], sel);
    } else {
      QueryAllSingle(doc[1..], sel, hit - 1);
    }
  }

  /** When nothing matches, nothing is selected. */
  lemma {:induction false} QueryAllNone(doc: Document, sel: Selector)
    requires forall k :: 0 <= k < |doc| ==> !Matches(doc[k], sel)
    ensures QueryAll(doc, sel) == []
    decreases |doc|
  {
    if doc != [] {
      QueryAllNone(doc[1..], sel);
    }
  }

  /** A `rel` of "shortcut icon" contains the word "icon", and so does a bare "icon". */
  lemma IconWords()
    ensures HasToken("shortcut icon", "icon")
    ensures HasToken("icon", "icon")
    ensures !HasToken("stylesheet", "icon")
  {
    assert WordAt("shortcut icon", "icon", 9);
    assert WordAt("icon", "icon", 0);
    forall i
      ensures !WordAt("stylesheet", "icon", i)
    {
      if 0 <= i && i + 4 <= |"stylesheet"| {
        assert "stylesheet"[i..i + 4][0] == "stylesheet"[i] != 'i';
      }
    }
  }

  // ---------------------------------------------------------------------
  // Reading values out of the selected elements

  /** The first matching element's attribute: `$(sel).attr(name)`, or `querySelector(sel)?.getAttribute(name)`. */
  function FirstAttr(doc: Document, sel: Selector, name: string): (r: Option<string>)
    ensures r.Some? ==> exists i :: 0 <= i < |doc| && Matches(doc[i], sel) && Attr(doc[i], name) == r
    ensures forall k :: FirstMatchAt(doc, sel, k) ==> r == Attr(doc[k], name)
    ensures NoMatch(doc, sel) ==> r == None
  {
    QueryFirstFinds(doc, sel);
    match QueryFirst(doc, sel)
    case None => None
    case Some(e) => Attr(e, name)
  }

  /** The text of the first matching element, "" when none matches. */
  function FirstText(doc: Document, sel: Selector): (r: string)
    ensures forall k :: FirstMatchAt(doc, sel, k) ==> r == doc[k].text
    ensures NoMatch(doc, sel) ==> r == ""
  {
    QueryFirstFinds(doc, sel);
    match QueryFirst(doc, sel)
    case None => ""
    case Some(e) => e.text
  }

  /** `elements.map(f)`. */
  function Pick(es: Document, f: Element -> Option<string>): (r: seq<Option<string>>) {
    seq(|es|, i requires 0 <= i < |es| => f(es[i]))
  }

  /** The truthy `f(el)` of the matching elements in document order: `Array.from(querySelectorAll(sel)).map(f).filter(Boolean)`. */
  function Collect(doc: Document, sel: Selector, f: Element -> Option<string>): (r: seq<string>)
    ensures forall i :: 0 <= i < |r| ==> r[i] != ""
  {
    Truthies(Pick(QueryAll(doc, sel), f))
  }

  /** A value is collected exactly when some matching element yields it, non-empty. */
  lemma CollectMembers(doc: Document, sel: Selector, f: Element -> Option<string>)
    ensures forall x :: x in Collect(doc, sel, f) <==> x != "" && exists e :: e in doc && Matches(e, sel) && f(e) == Some(x)
  {
    var qs := QueryAll(doc, sel);
    TruthiesMembers(Pick(qs, f));
    QueryAllMembers(doc, sel);
    forall x
      ensures x in Collect(doc, sel, f) <==> x != "" && exists e :: e in doc && Matches(e, sel) && f(e) == Some(x)
    {
      if x in Collect(doc, sel, f) {
        var i :| 0 <= i < |qs| && Pick(qs, f)[i] == Some(x);
        assert qs[i] in doc;
      }
      if x != "" && exists e :: e in doc && Matches(e, sel) && f(e) == Some(x) {
        var e :| e in doc && Matches(e, sel) && f(e) == Some(x);
        var i :| 0 <= i < |qs| && qs[i] == e;
        assert Pick(qs, f)[i] == Some(x);
      }
    }
  }

  /** Collection keeps document order: it distributes over a split of the document. */
  lemma CollectAppend(a: Document, b: Document, sel: Selector, f: Element -> Option<string>)
    ensures Collect(a + b, sel, f) == Collect(a, sel, f) + Collect(b, sel, f)
  {
    QueryAllAppend(a, b, sel);
    assert Pick(QueryAll(a, sel) + QueryAll(b, sel), f) == Pick(QueryAll(a, sel), f) + Pick(QueryAll(b, sel), f);
    TruthiesAppend(Pick(QueryAll(a, sel), f), Pick(QueryAll(b, sel), f));
  }

  // ---------------------------------------------------------------------
  // The selectors both crawlers use

  const TitleSel: Selector := Tag("title")
  const DescriptionSel: Selector := AttrEquals("meta", "name", "description")
  const IconSel: Selector := AttrHasToken("link", "rel", "icon")
  const ShortcutIconSel: Selector := AttrEquals("link", "rel", "shortcut icon")
  const ScriptSel: Selector := TagWithAttr("script", "src")
  const StylesheetSel: Selector := AttrEquals("link", "rel", "stylesheet")
  const ImageSel: Selector := Tag("img")
}
