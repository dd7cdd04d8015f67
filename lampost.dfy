/** The lampost.co.id runner's portal-specific parts: listing URL, link rule, article date. */
module Lampost {

  import opened Wrappers
  import opened Text
  import opened Dates
  import opened Page
  import opened Dedup
  import opened Article

  /** `base.format(p)` */
  function ListingUrl(p: nat): string
  {
    "https://lampost.co.id/tag/lampung/page/" + NatToString(p)
  }

  /** `"/202" in href and "lampost" in href` */
  predicate HrefRule(href: string)
  {
    Contains(href, "/202") && Contains(href, "lampost")
  }

  predicate LinkRule(l: Link)
  {
    HrefRule(l.href)
  }

  /**
   * The anchors the article loop opens, in document order, without de-duplication.
   */
  function Candidates(doc: Document): (r: seq<Link>)
    ensures forall k :: 0 <= k < |r| ==> LinkRule(r[k]) && r[k] in Anchors(doc)
    ensures forall l :: l in Anchors(doc) && LinkRule(l) ==> l in r
    ensures forall l :: multiset(r)[l] == if LinkRule(l) then multiset(Anchors(doc))[l] else 0
    ensures IsSubsequence(r, Anchors(doc))
  {
    KeepLinksMembers(Anchors(doc), LinkRule);
    var r := KeepLinks(Anchors(doc), LinkRule);
    assert forall k :: 0 <= k < |r| ==> r[k] in r;
    r
  }

  /** The format tried on the published-date text. */
  const TextFormat: string := "%d %B %Y"

  /** `possible.get_text(strip=True).split(" -")[0]`: the text before a " -" suffix. */
  function PublishedText(e: Element): (r: string)
    ensures StartsWith(e.text, r) && !Contains(r, " -")
    ensures r == e.text <==> !Contains(e.text, " -")
    ensures r != e.text ==> OccursAt(e.text, " -", |r|)
  {
    var r := BeforeFirst(e.text, " -");
    assert r == e.text ==> !Contains(r, " -");
    r
  }

  /** The published-date text under `"%d %B %Y"`, else under `fromisoformat`. */
  function PublishedDate(lib: DateLib, e: Element): (r: Option<Date>)
    ensures Strptime(lib, TextFormat, PublishedText(e)).Some? ==> r == Strptime(lib, TextFormat, PublishedText(e))
    ensures r.None? <==> Strptime(lib, TextFormat, PublishedText(e)).None? && lib.fromIsoFormat(PublishedText(e)).None?
    ensures Strptime(lib, TextFormat, PublishedText(e)).None? ==> r == lib.fromIsoFormat(PublishedText(e))
  {
    var txt := PublishedText(e);
    match Strptime(lib, TextFormat, txt)
    case Some(d) => Some(d)
    case None => lib.fromIsoFormat(txt)
  }

  /**
   * The article date: the first `<time>` whose `datetime` attribute parses; else the
   * text of the first class-`published` element, or else of the first `span` of class
   * `date`; else None, for which the runner substitutes today.
   */
  function ArticleDate(lib: DateLib, doc: Document): (r: Option<Date>)
    ensures FirstParsedTime(lib, FindAll(doc, ByTag("time"))).Some? ==>
              r == FirstParsedTime(lib, FindAll(doc, ByTag("time")))
    ensures r.Some? && r != FirstParsedTime(lib, FindAll(doc, ByTag("time"))) ==>
              exists e :: e in doc.elements && ("published" in e.classes || (e.tag == "span" && "date" in e.classes))
                          && PublishedDate(lib, e) == r
    ensures FirstParsedTime(lib, FindAll(doc, ByTag("time"))).None? ==>
              r == match FindEither(doc, ByClass("published"), ByTagAndClass("span", "date"))
                   case None => None
                   case Some(e) => PublishedDate(lib, e)
  {
    var fromAttr := FirstParsedTime(lib, FindAll(doc, ByTag("time")));
    if fromAttr.Some? then fromAttr
    else
      match FindEither(doc, ByClass("published"), ByTagAndClass("span", "date"))
      case None => None
      case Some(e) => PublishedDate(lib, e)
  }

  method ResolveDate(lib: DateLib, doc: Document) returns (tanggal: Option<Date>)
    ensures tanggal == ArticleDate(lib, doc)
  {
    var timeTags := FindAll(doc, ByTag("time"));
    tanggal := FirstParsedTimeLoop(lib, timeTags);
    if tanggal.None? {
      var possible := FindEither(doc, ByClass("published"), ByTagAndClass("span", "date"));
      if possible.Some? {
        var txt := BeforeFirst(possible.value.text, " -");
        tanggal := Strptime(lib, TextFormat, txt);
        if tanggal.None? {
          tanggal := lib.fromIsoFormat(txt);
        }
      }
    }
  }
}
