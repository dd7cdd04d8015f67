/**
 * A fetched page as the HTML library presents it to the scrapers: its elements in
 * document order, each with its tag, classes, attributes and stripped text, and its
 * text nodes. `find_all` filters the elements, `find` takes the first match.
 */
module Page {

  import opened Wrappers
  import opened Text
  import opened Dedup

  /** One element; `text` is what `get_text(strip=True)` gives for it. */
  datatype Element = Element(tag: string, classes: seq<string>, attrs: map<string, string>, text: string)

  /** A parsed page: elements and `find_all(text=True)` strings, both in document order. */
  datatype Document = Document(elements: seq<Element>, textNodes: seq<string>)

  /** A `find`/`find_all` query: a tag name, a `class_`, an attribute that must be present. */
  datatype Query = Query(tag: Option<string>, cls: Option<string>, attr: Option<string>)

  predicate Matches(e: Element, q: Query)
  {
    (q.tag.Some? ==> e.tag == q.tag.value)
    && (q.cls.Some? ==> q.cls.value in e.classes)
    && (q.attr.Some? ==> q.attr.value in e.attrs)
  }

  /** The elements of `es` that match `q`, in document order. */
  function Filter(es: seq<Element>, q: Query): (r: seq<Element>)
    ensures |r| <= |es|
    ensures forall k :: 0 <= k < |r| ==> Matches(r[k], q) && r[k] in es
    ensures forall e :: e in es && Matches(e, q) ==> e in r
    ensures IsSubsequence(r, es)
    decreases |es|
  {
    if es == [] then []
    else
      var init, e := es[..|es| - 1], es[|es| - 1];
      var r := Filter(init, q) + (if Matches(e, q) then [e] else []);
      assert es == init + [e];
      if Matches(e, q) then
        assert r[..|r| - 1] == Filter(init, q);
        r
      else
        assert r == Filter(init, q);
        SubsequenceExtend(r, init, e);
        r
  }

  /** Every matching element is kept as often as it occurs, and no other element is kept. */
  lemma {:induction false} FilterCount(es: seq<Element>, q: Query)
    ensures forall x :: multiset(Filter(es, q))[x] == if Matches(x, q) then multiset(es)[x] else 0
    decreases |es|
  {
    if es != [] {
      var init, e := es[..|es| - 1], es[|es| - 1];
      FilterCount(init, q);
      assert es == init + [e];
      if Matches(e, q) {
        assert Filter(es, q) == Filter(init, q) + [e];
      } else {
        assert Filter(es, q) == Filter(init, q);
      }
    }
  }

  /** The first element kept is the first matching element of the input. */
  lemma {:induction false} FilterFirst(es: seq<Element>, q: Query)
    ensures Filter(es, q) != [] ==>
              exists i :: 0 <= i < |es| && es[i] == Filter(es, q)[0] && forall j :: 0 <= j < i ==> !Matches(es[j], q)
    decreases |es|
  {
    if es != [] {
      var init, e := es[..|es| - 1], es[|es| - 1];
      assert es == init + [e];
      FilterFirst(init, q);
      var f := Filter(init, q);
      assert Filter(es, q) == f + (if Matches(e, q) then [e] else []);
      if f != [] {
        var i :| 0 <= i < |init| && init[i] == f[0] && forall j :: 0 <= j < i ==> !Matches(init[j], q);
        assert es[i] == Filter(es, q)[0];
      } else if Matches(e, q) {
        assert forall j :: 0 <= j < |init| ==> !Matches(es[j], q) by {
          forall j | 0 <= j < |init| ensures !Matches(es[j], q) {
            assert es[j] == init[j] && init[j] in init;
          }
        }
        assert es[|es| - 1] == Filter(es, q)[0];
      }
    }
  }

  /** `soup.find_all(...)` */
  function FindAll(doc: Document, q: Query): seq<Element>
  {
    Filter(doc.elements, q)
  }

  /** `soup.find(...)`: the first matching element in document order, or None. */
  function Find(doc: Document, q: Query): (r: Option<Element>)
    ensures r.None? <==> forall e :: e in doc.elements ==> !Matches(e, q)
    ensures r.Some? ==> Matches(r.value, q)
    ensures r.Some? ==> exists i :: 0 <= i < |doc.elements| && doc.elements[i] == r.value
                                    && forall j :: 0 <= j < i ==> !Matches(doc.elements[j], q)
  {
    var all := FindAll(doc, q);
    FilterFirst(doc.elements, q);
    if all == [] then None else Some(all[0])
  }

  function ByTag(tag: string): Query
  {
    Query(Some(tag), None, None)
  }

  function ByClass(cls: string): Query
  {
    Query(None, Some(cls), None)
  }

  function ByTagAndClass(tag: string, cls: string): Query
  {
    Query(Some(tag), Some(cls), None)
  }

  /** A candidate link: the anchor's stripped text and its `href`. */
  datatype Link = Link(title: string, href: string)

  function Href(l: Link): string
  {
    l.href
  }

  /** `[l[1] for l in links]` */
  function Hrefs(links: seq<Link>): (r: seq<string>)
    ensures |r| == |links| && forall k :: 0 <= k < |links| ==> r[k] == links[k].href
  {
    seq(|links|, k requires 0 <= k < |links| => links[k].href)
  }

  /** The hrefs listed are the hrefs of the links. */
  lemma HrefsKeys(links: seq<Link>, h: string)
    ensures h in Hrefs(links) <==> exists k :: 0 <= k < |links| && links[k].href == h
  {
  }

  function ToLinks(es: seq<Element>): (r: seq<Link>)
    requires forall k :: 0 <= k < |es| ==> "href" in es[k].attrs
    ensures |r| == |es|
    ensures forall k :: 0 <= k < |es| ==> r[k] == Link(es[k].text, es[k].attrs["href"])
  {
    if es == [] then [] else [Link(es[0].text, es[0].attrs["href"])] + ToLinks(es[1..])
  }

  /** `soup.find_all("a", href=True)`, each as `(a.get_text(strip=True), a['href'])`. */
  function Anchors(doc: Document): seq<Link>
  {
    ToLinks(FindAll(doc, Query(Some("a"), None, Some("href"))))
  }

  function Texts(es: seq<Element>): (r: seq<string>)
    ensures |r| == |es| && forall k :: 0 <= k < |es| ==> r[k] == es[k].text
  {
    if es == [] then [] else [es[0].text] + Texts(es[1..])
  }

  /** `" ".join(p.get_text(strip=True) for p in soup.find_all("p"))` */
  function Body(doc: Document): string
  {
    Join(Texts(FindAll(doc, ByTag("p"))), " ")
  }
}
