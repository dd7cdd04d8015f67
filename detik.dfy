/** The detik.com runner's portal-specific parts: listing URL, link discovery, article date. */
module Detik {

  import opened Wrappers
  import opened Text
  import opened Dates
  import opened Page
  import opened Dedup
  import opened Article

  /** `base_url.format(p)` */
  function ListingUrl(p: nat): string
  {
    "https://www.detik.com/tag/lampung/?sortby=time&page=" + NatToString(p)
  }

  /** `"/news/" in href or "detik.com" in href` */
  predicate HrefRule(href: string)
  {
    Contains(href, "/news/") || Contains(href, "detik.com")
  }

  predicate LinkRule(l: Link)
  {
    HrefRule(l.href)
  }

  /** The links the article loop visits: qualifying anchors, de-duplicated by href. */
  function Candidates(doc: Document): seq<Link>
  {
    DedupBy(KeepLinks(Anchors(doc), LinkRule), Href)
  }

  /**
   * The link discovery of one listing page: the `for a in soup.find_all("a", href=True)`
   * loop collecting qualifying links, then the `seen` loop dropping repeated hrefs.
   */
  method DiscoverLinks(doc: Document) returns (clean: seq<Link>)
    ensures clean == Candidates(doc)
    ensures forall l :: l in clean ==> l in Anchors(doc) && LinkRule(l)
    ensures forall l :: l in Anchors(doc) && LinkRule(l) ==> exists c :: c in clean && c.href == l.href
    ensures UniqueKeys(clean, Href)
  {
    var links := FilterLinks(Anchors(doc), LinkRule);
    clean := SeenFilter(links);
    CandidatesSound(Anchors(doc), LinkRule);
    CandidatesComplete(Anchors(doc), LinkRule);
    DedupByCorrect(links, Href);
  }

  /** The displayed-date formats tried in order on the `date`/`time` class text. */
  const TextFormats: seq<string> := ["%A, %d %b %Y %H:%M", "%d %b %Y %H:%M", "%Y-%m-%d %H:%M"]

  /**
   * The article date: the first `<time>`'s `datetime` attribute if it parses; else the
   * text of the first class-`date` element (or class-`time` one) under the three formats
   * in order; else None, for which the runner substitutes today.
   */
  function ArticleDate(lib: DateLib, doc: Document): (r: Option<Date>)
    ensures FirstTimeDate(lib, doc).Some? ==> r == FirstTimeDate(lib, doc)
    ensures r.Some? && r != FirstTimeDate(lib, doc) ==>
              exists e :: e in doc.elements && ("date" in e.classes || "time" in e.classes)
                          && exists k :: 0 <= k < |TextFormats| && Strptime(lib, TextFormats[k], e.text) == r
    ensures FirstTimeDate(lib, doc).None? ==>
              r == match FindEither(doc, ByClass("date"), ByClass("time"))
                   case None => None
                   case Some(e) => FirstFormat(lib, TextFormats, e.text)
  {
    var fromAttr := FirstTimeDate(lib, doc);
    if fromAttr.Some? then fromAttr
    else
      match FindEither(doc, ByClass("date"), ByClass("time"))
      case None => None
      case Some(e) => FirstFormat(lib, TextFormats, e.text)
  }

  method ResolveDate(lib: DateLib, doc: Document) returns (tanggal: Option<Date>)
    ensures tanggal == ArticleDate(lib, doc)
  {
    tanggal := None;
    var timeTag := Find(doc, ByTag("time"));
    if timeTag.Some? && "datetime" in timeTag.value.attrs {
      tanggal := lib.fromIsoFormat(timeTag.value.attrs["datetime"]);
    }
    if tanggal.None? {
      var ttxt := FindEither(doc, ByClass("date"), ByClass("time"));
      if ttxt.Some? {
        tanggal := TryFormats(lib, TextFormats, ttxt.value.text);
      }
    }
  }
}
