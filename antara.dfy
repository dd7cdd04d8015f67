/**
 * The lampung.antaranews.com runner's portal-specific parts: its own `_ensure_date`, the
 * listing URL, link discovery and the article date.
 */
module Antara {

  import opened Wrappers
  import opened Text
  import opened Dates
  import opened Page
  import opened Dedup
  import opened Article

  /**
   * `_ensure_date` as this module defines it: a string goes to `dateutil` first, then to
   * `fromisoformat`, unstripped, and a ValueError quoting it when both fail. A datetime
   * comes back unchanged, as in the other modules.
   */
  function EnsureDate(lib: DateLib, v: PyValue): (r: Result<PyValue, PyError>)
    ensures r.Ok? ==> IsBound(r.value)
    ensures v.PyNone? ==> r == Ok(PyNone)
    ensures IsInstanceDate(v) ==> r == Ok(v)
    ensures v.PyStr? ==> r == (if lib.dateutilParse(v.s).Some? then Ok(PyDate(lib.dateutilParse(v.s).value))
                               else if lib.fromIsoFormat(v.s).Some? then Ok(PyDate(lib.fromIsoFormat(v.s).value))
                               else Err(ValueError("Cannot parse date string: " + v.s)))
    ensures v.PyOther? ==> r == Err(TypeError("Unsupported date type: " + v.typeName))
  {
    if v.PyNone? then Ok(PyNone)
    else if IsInstanceDate(v) then Ok(v)
    else if IsInstanceDateTime(v) then Ok(DatePart(v))
    else if v.PyStr? then
      match lib.dateutilParse(v.s)
      case Some(d) => Ok(PyDate(d))
      case None =>
        match lib.fromIsoFormat(v.s)
        case Some(d) => Ok(PyDate(d))
        case None => Err(ValueError("Cannot parse date string: " + v.s))
    else Err(TypeError("Unsupported date type: " + v.typeName))
  }

  /** On anything but a string the two `_ensure_date` variants agree. */
  lemma EnsureDateAgrees(lib: DateLib, v: PyValue)
    requires !v.PyStr?
    ensures EnsureDate(lib, v) == Dates.EnsureDate(lib, v)
  {
  }

  /** `base.format(page)` */
  function ListingUrl(p: nat): string
  {
    "https://lampung.antaranews.com/lampung-update?page=" + NatToString(p)
  }

  /** `"/lampung-update/" in href or "antaranews.com" in href` */
  predicate HrefRule(href: string)
  {
    Contains(href, "/lampung-update/") || Contains(href, "antaranews.com")
  }

  predicate LinkRule(l: Link)
  {
    HrefRule(l.href)
  }

  /** The links the article loop visits: qualifying anchors, one per href. */
  function Candidates(doc: Document): seq<Link>
  {
    DedupBy(KeepLinks(Anchors(doc), LinkRule), Href)
  }

  /**
   * The discovery loop: a qualifying anchor is appended unless its href is already among
   * the hrefs collected so far.
   */
  method DiscoverLinks(doc: Document) returns (links: seq<Link>)
    ensures links == Candidates(doc)
    ensures forall l :: l in links ==> l in Anchors(doc) && LinkRule(l)
    ensures forall l :: l in Anchors(doc) && LinkRule(l) ==> exists c :: c in links && c.href == l.href
    ensures UniqueKeys(links, Href)
  {
    var anchors := Anchors(doc);
    links := CollectUnseen(anchors, LinkRule);
    CandidatesSound(anchors, LinkRule);
    CandidatesComplete(anchors, LinkRule);
    DedupByCorrect(KeepLinks(anchors, LinkRule), Href);
  }

  /**
   * The article date: the first `<time>` whose `datetime` attribute parses; else the
   * text of the first class-`date` element through `dateutil`; else None, for which the
   * runner substitutes today.
   */
  function ArticleDate(lib: DateLib, doc: Document): (r: Option<Date>)
    ensures FirstParsedTime(lib, FindAll(doc, ByTag("time"))).Some? ==>
              r == FirstParsedTime(lib, FindAll(doc, ByTag("time")))
    ensures r.Some? && r != FirstParsedTime(lib, FindAll(doc, ByTag("time"))) ==>
              exists e :: e in doc.elements && "date" in e.classes && lib.dateutilParse(e.text) == r
    ensures FirstParsedTime(lib, FindAll(doc, ByTag("time"))).None? ==>
              r == match Find(doc, ByClass("date"))
                   case None => None
                   case Some(e) => lib.dateutilParse(e.text)
  {
    var fromAttr := FirstParsedTime(lib, FindAll(doc, ByTag("time")));
    DateFallbackUnused(doc);
    if fromAttr.Some? then fromAttr
    else
      match FindEither(doc, ByClass("date"), ByTagAndClass("p", "date"))
      case None => None
      case Some(e) => lib.dateutilParse(e.text)
  }

  /**
   * The `find("p", class_="date")` fallback never finds anything: a `p` of class `date`
   * is itself an element of class `date`, which the first `find` already returned.
   */
  lemma DateFallbackUnused(doc: Document)
    ensures FindEither(doc, ByClass("date"), ByTagAndClass("p", "date")) == Find(doc, ByClass("date"))
  {
    if Find(doc, ByClass("date")).None? {
      forall e | e in doc.elements ensures !Matches(e, ByTagAndClass("p", "date")) {
        assert !Matches(e, ByClass("date"));
      }
    }
  }

  method ResolveDate(lib: DateLib, doc: Document) returns (tanggal: Option<Date>)
    ensures tanggal == ArticleDate(lib, doc)
  {
    var dateNodes := FindAll(doc, ByTag("time"));
    tanggal := FirstParsedTimeLoop(lib, dateNodes);
    if tanggal.None? {
      var possible := FindEither(doc, ByClass("date"), ByTagAndClass("p", "date"));
      if possible.Some? {
        tanggal := lib.dateutilParse(possible.value.text);
      }
    }
  }
}
