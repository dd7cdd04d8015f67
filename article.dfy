/** What the four runners share: the record they emit and the extraction steps they have in common. */
module Article {

  import opened Wrappers
  import opened Text
  import opened Dates
  import opened Page
  import opened Dedup

  /** One result row of a runner: `{"judul", "link", "tanggal", "isi"}`. */
  datatype Record = Record(judul: string, link: string, tanggal: Date, isi: string)

  /** The links `accept` lets through, in their original order. */
  function KeepLinks(links: seq<Link>, accept: Link -> bool): seq<Link>
  {
    if links == [] then []
    else KeepLinks(links[..|links| - 1], accept) + (if accept(links[|links| - 1]) then [links[|links| - 1]] else [])
  }

  /**
   * Filtering keeps exactly the accepted links: nothing else, none of them is lost, each
   * as often as it occurs, and in their original order.
   */
  lemma {:induction false} KeepLinksMembers(links: seq<Link>, accept: Link -> bool)
    ensures forall l :: l in KeepLinks(links, accept) ==> l in links && accept(l)
    ensures forall l :: l in links && accept(l) ==> l in KeepLinks(links, accept)
    ensures forall l :: multiset(KeepLinks(links, accept))[l] == if accept(l) then multiset(links)[l] else 0
    ensures IsSubsequence(KeepLinks(links, accept), links)
    decreases |links|
  {
    if links != [] {
      var init, last := links[..|links| - 1], links[|links| - 1];
      KeepLinksMembers(init, accept);
      assert links == init + [last];
      var k := KeepLinks(init, accept);
      if accept(last) {
        assert KeepLinks(links, accept) == k + [last];
        assert (k + [last])[..|k|] == k;
      } else {
        assert KeepLinks(links, accept) == k;
        SubsequenceExtend(k, init, last);
      }
    }
  }

  /** The first `Some` that `f` gives along `xs`: a loop that stops at its first success. */
  function FirstSome<T, U>(xs: seq<T>, f: T -> Option<U>): (r: Option<U>)
    ensures r.Some? ==> exists k :: 0 <= k < |xs| && f(xs[k]) == r
                                    && forall j :: 0 <= j < k ==> f(xs[j]).None?
    ensures r.None? <==> forall k :: 0 <= k < |xs| ==> f(xs[k]).None?
  {
    if xs == [] then None
    else if f(xs[0]).Some? then f(xs[0])
    else
      var r := FirstSome(xs[1..], f);
      assert forall k :: 1 <= k < |xs| ==> xs[k] == xs[1..][k - 1];
      r
  }

  lemma FirstSomeStep<T, U>(xs: seq<T>, f: T -> Option<U>)
    requires xs != []
    ensures FirstSome(xs, f) == if f(xs[0]).Some? then f(xs[0]) else FirstSome(xs[1..], f)
  {
  }

  lemma KeepLinksStep(links: seq<Link>, l: Link, accept: Link -> bool)
    ensures KeepLinks(links + [l], accept) == KeepLinks(links, accept) + (if accept(l) then [l] else [])
  {
    var ls := links + [l];
    assert ls[..|ls| - 1] == links && ls[|ls| - 1] == l;
  }

  /** `doc.find(q1) or doc.find(q2)` */
  function FindEither(doc: Document, q1: Query, q2: Query): (r: Option<Element>)
    ensures Find(doc, q1).Some? ==> r == Find(doc, q1)
    ensures Find(doc, q1).None? ==> r == Find(doc, q2)
  {
    if Find(doc, q1).Some? then Find(doc, q1) else Find(doc, q2)
  }

  /** `datetime.fromisoformat(e["datetime"]).date()` for an element that has the attribute. */
  function TimeAttrDate(lib: DateLib, e: Element): Option<Date>
  {
    if "datetime" in e.attrs then lib.fromIsoFormat(e.attrs["datetime"]) else None
  }

  /** `soup.find("time")` and its `datetime` attribute, when present and parseable. */
  function FirstTimeDate(lib: DateLib, doc: Document): (r: Option<Date>)
    ensures r.Some? ==> exists e :: e in doc.elements && e.tag == "time" && "datetime" in e.attrs
    ensures r.Some? ==> Find(doc, ByTag("time")).Some? && "datetime" in Find(doc, ByTag("time")).value.attrs
                        && r == lib.fromIsoFormat(Find(doc, ByTag("time")).value.attrs["datetime"])
    ensures r.None? <==> Find(doc, ByTag("time")).None?
                         || "datetime" !in Find(doc, ByTag("time")).value.attrs
                         || lib.fromIsoFormat(Find(doc, ByTag("time")).value.attrs["datetime"]).None?
  {
    match Find(doc, ByTag("time"))
    case None => None
    case Some(e) => TimeAttrDate(lib, e)
  }

  /** The date of the first `<time>` whose `datetime` attribute parses. */
  function FirstParsedTime(lib: DateLib, times: seq<Element>): (r: Option<Date>)
    ensures r.Some? ==> exists k :: 0 <= k < |times| && TimeAttrDate(lib, times[k]) == r
                                    && forall j :: 0 <= j < k ==> TimeAttrDate(lib, times[j]).None?
    ensures r.None? <==> forall k :: 0 <= k < |times| ==> TimeAttrDate(lib, times[k]).None?
  {
    if times == [] then None
    else if TimeAttrDate(lib, times[0]).Some? then TimeAttrDate(lib, times[0])
    else
      var r := FirstParsedTime(lib, times[1..]);
      assert forall k :: 1 <= k < |times| ==> times[k] == times[1..][k - 1];
      r
  }

  /**
   * The `for t in time_tags: if t.has_attr("datetime"): try: ...; break` loop of the
   * lampost and antara runners.
   */
  method FirstParsedTimeLoop(lib: DateLib, times: seq<Element>) returns (tanggal: Option<Date>)
    ensures tanggal == FirstParsedTime(lib, times)
  {
    tanggal := None;
    var i := 0;
    while i < |times|
      invariant 0 <= i <= |times|
      invariant FirstParsedTime(lib, times) == FirstParsedTime(lib, times[i..])
    {
      if "datetime" in times[i].attrs {
        var parsed := lib.fromIsoFormat(times[i].attrs["datetime"]);
        if parsed.Some? {
          tanggal := parsed;
          break;
        }
      }
      i := i + 1;
    }
  }

  /** A loop that appends each link `accept` lets through. */
  method FilterLinks(links: seq<Link>, accept: Link -> bool) returns (kept: seq<Link>)
    ensures kept == KeepLinks(links, accept)
  {
    kept := [];
    var i := 0;
    while i < |links|
      invariant 0 <= i <= |links|
      invariant kept == KeepLinks(links[..i], accept)
    {
      assert links[..i + 1][..i] == links[..i];
      if accept(links[i]) {
        kept := kept + [links[i]];
      }
      i := i + 1;
    }
    assert links[..i] == links;
  }

  /** One step of the `seen` loop is one step of de-duplication by href. */
  lemma SeenStep(prefix: seq<Link>, l: Link, seen: set<string>)
    requires seen == Keys(prefix, Href)
    ensures DedupBy(prefix + [l], Href) == DedupBy(prefix, Href) + (if l.href in seen then [] else [l])
    ensures Keys(prefix + [l], Href) == seen + {l.href}
  {
    DedupByStep(prefix, l, Href);
    KeysAppend(prefix, [l], Href);
    KeysSingleton(l, Href);
    assert Href(l) == l.href;
  }

  /** A loop that keeps a link only if its href is not in the `seen` set yet, then adds it. */
  method SeenFilter(links: seq<Link>) returns (clean: seq<Link>)
    ensures clean == DedupBy(links, Href)
  {
    var seen: set<string> := {};
    clean := [];
    var i := 0;
    while i < |links|
      invariant 0 <= i <= |links|
      invariant clean == DedupBy(links[..i], Href)
      invariant seen == Keys(links[..i], Href)
    {
      var l := links[i];
      assert links[..i + 1] == links[..i] + [l];
      SeenStep(links[..i], l, seen);
      if l.href !in seen {
        seen := seen + {l.href};
        clean := clean + [l];
      }
      i := i + 1;
    }
    assert links[..i] == links;
  }

  /** Appending a link whose href is not yet listed is de-duplication by href, one step. */
  lemma UnseenStep(kept: seq<Link>, links: seq<Link>, a: Link)
    requires links == DedupBy(kept, Href)
    ensures DedupBy(kept + [a], Href) == if a.href in Hrefs(links) then links else links + [a]
  {
    DedupByStep(kept, a, Href);
    DedupByKeys(kept, Href);
    HrefsKeys(links, a.href);
    assert a.href in Hrefs(links) <==> Href(a) in Keys(links, Href);
  }

  /**
   * A loop that appends each link `accept` lets through unless its href is already among
   * those of the links collected so far.
   */
  method CollectUnseen(anchors: seq<Link>, accept: Link -> bool) returns (links: seq<Link>)
    ensures links == DedupBy(KeepLinks(anchors, accept), Href)
  {
    links := [];
    ghost var kept: seq<Link> := [];
    var i := 0;
    while i < |anchors|
      invariant 0 <= i <= |anchors|
      invariant kept == KeepLinks(anchors[..i], accept)
      invariant links == DedupBy(kept, Href)
    {
      var a := anchors[i];
      assert anchors[..i + 1] == anchors[..i] + [a];
      KeepLinksStep(anchors[..i], a, accept);
      if accept(a) {
        UnseenStep(kept, links, a);
        if a.href !in Hrefs(links) {
          links := links + [a];
        }
        kept := kept + [a];
      }
      i := i + 1;
    }
    assert anchors[..i] == anchors;
  }

  /** Every link that survives filtering and de-duplication is an accepted input link. */
  lemma CandidatesSound(links: seq<Link>, accept: Link -> bool)
    ensures forall l :: l in DedupBy(KeepLinks(links, accept), Href) ==> l in links && accept(l)
  {
    var kept := KeepLinks(links, accept);
    var c := DedupBy(kept, Href);
    DedupByCorrect(kept, Href);
    KeepLinksMembers(links, accept);
    forall l | l in c ensures l in links && accept(l) {
      var k :| 0 <= k < |c| && c[k] == l;
      var i :| 0 <= i < |kept| && kept[i] == c[k] && FirstOfKey(kept, Href, i);
    }
  }

  /** Every href of an accepted input link survives filtering and de-duplication. */
  lemma CandidatesComplete(links: seq<Link>, accept: Link -> bool)
    ensures forall l :: l in links && accept(l) ==>
              exists x :: x in DedupBy(KeepLinks(links, accept), Href) && x.href == l.href
  {
    var kept := KeepLinks(links, accept);
    var c := DedupBy(kept, Href);
    DedupByCorrect(kept, Href);
    KeepLinksMembers(links, accept);
    forall l | l in links && accept(l) ensures exists x :: x in c && x.href == l.href {
      var j :| 0 <= j < |links| && links[j] == l;
      assert l in kept;
      var i :| 0 <= i < |kept| && kept[i] == l;
      assert Href(l) in Keys(kept, Href);
      assert Href(l) in Keys(c, Href);
      var k :| 0 <= k < |c| && Href(c[k]) == Href(l);
      assert c[k] in c;
    }
  }
}
