/** The rmollampung.id runner's portal-specific parts: listing URL, link rule, article date. */
module Rmol {

  import opened Wrappers
  import opened Text
  import opened Dates
  import opened Page
  import opened Dedup
  import opened Article

  /** `base.format(p)` */
  function ListingUrl(p: nat): string
  {
    "https://rmollampung.id/?s=lampung&page=" + NatToString(p)
  }

  /** `"/202" in href or "/news/" in href or "rmollampung" in href` */
  predicate HrefRule(href: string)
  {
    Contains(href, "/202") || Contains(href, "/news/") || Contains(href, "rmollampung")
  }

  /**
   * An anchor the runner opens: a qualifying href and a title that is non-empty and does
   * not start with "read more" in any letter case.
   */
  predicate Accepts(l: Link)
  {
    HrefRule(l.href) && l.title != [] && !StartsWith(Lower(l.title), "read more")
  }

  /**
   * The anchors the article loop opens, in document order. There is no de-duplication:
   * an href that appears twice is opened twice.
   */
  function Candidates(doc: Document): (r: seq<Link>)
    ensures forall k :: 0 <= k < |r| ==> Accepts(r[k]) && r[k] in Anchors(doc)
    ensures forall l :: l in Anchors(doc) && Accepts(l) ==> l in r
    ensures forall l :: multiset(r)[l] == if Accepts(l) then multiset(Anchors(doc))[l] else 0
    ensures IsSubsequence(r, Anchors(doc))
  {
    var anchors := Anchors(doc);
    KeepLinksMembers(anchors, Accepts);
    var r := KeepLinks(anchors, Accepts);
    assert forall k :: 0 <= k < |r| ==> r[k] in r;
    r
  }

  /** How many text nodes the date scan looks at. */
  const ScanLimit: nat := 50

  /** The formats tried on a text node, in order. */
  const TextFormats: seq<string> := ["%d %B %Y", "%d %b %Y", "%Y-%m-%d"]

  /** `any(m in txt.lower() for m in ["202", "2025", "2024"])` */
  predicate MentionsYear(txt: string)
  {
    Contains(Lower(txt), "202") || Contains(Lower(txt), "2025") || Contains(Lower(txt), "2024")
  }

  /** The stripped text node is tried when it is non-empty and mentions a year. */
  predicate DateCandidate(txt: string)
  {
    txt != [] && MentionsYear(txt)
  }

  /** What one text node yields: its stripped text parsed, if that text is a candidate. */
  function NodeDate(lib: DateLib, node: string): Option<Date>
  {
    var txt := Strip(node);
    if DateCandidate(txt) then FirstFormat(lib, TextFormats, txt) else None
  }

  /** The date the text scan finds: that of the first node that yields one. */
  function TextNodeDate(lib: DateLib, nodes: seq<string>): (r: Option<Date>)
    ensures r.Some? ==> exists k :: 0 <= k < |nodes| && NodeDate(lib, nodes[k]) == r
                                    && forall j :: 0 <= j < k ==> NodeDate(lib, nodes[j]).None?
    ensures r.None? <==> forall k :: 0 <= k < |nodes| ==> NodeDate(lib, nodes[k]).None?
  {
    FirstSome(nodes, n => NodeDate(lib, n))
  }

  /** `textnodes[:50]` */
  function Scanned(doc: Document): (r: seq<string>)
    ensures |r| <= ScanLimit && |r| <= |doc.textNodes| && r == doc.textNodes[..|r|]
    ensures |r| < ScanLimit ==> r == doc.textNodes
  {
    if |doc.textNodes| <= ScanLimit then doc.textNodes else doc.textNodes[..ScanLimit]
  }

  /**
   * The article date: the first `<time>`'s `datetime` attribute if it parses; else the
   * text scan over the first 50 text nodes; else None, for which the runner substitutes
   * today.
   */
  function ArticleDate(lib: DateLib, doc: Document): (r: Option<Date>)
    ensures FirstTimeDate(lib, doc).Some? ==> r == FirstTimeDate(lib, doc)
    ensures FirstTimeDate(lib, doc).None? ==> r == TextNodeDate(lib, Scanned(doc))
  {
    var fromAttr := FirstTimeDate(lib, doc);
    if fromAttr.Some? then fromAttr else TextNodeDate(lib, Scanned(doc))
  }

  /** One pass of the scan: strip the node, test it, try the formats. */
  method TryNode(lib: DateLib, node: string) returns (tanggal: Option<Date>)
    ensures tanggal == NodeDate(lib, node)
  {
    tanggal := None;
    var txt := Strip(node);
    if txt != [] && MentionsYear(txt) {
      tanggal := TryFormats(lib, TextFormats, txt);
    }
  }

  /** The `for tn in textnodes[:50]` loop, leaving as soon as a date is found. */
  method ScanTextNodes(lib: DateLib, nodes: seq<string>) returns (tanggal: Option<Date>)
    ensures tanggal == TextNodeDate(lib, nodes)
  {
    tanggal := None;
    var i := 0;
    while i < |nodes|
      invariant 0 <= i <= |nodes|
      invariant tanggal.None?
      invariant TextNodeDate(lib, nodes) == TextNodeDate(lib, nodes[i..])
    {
      assert nodes[i..][1..] == nodes[i + 1..];
      FirstSomeStep(nodes[i..], n => NodeDate(lib, n));
      tanggal := TryNode(lib, nodes[i]);
      if tanggal.Some? {
        return;
      }
      i := i + 1;
    }
  }

  method ResolveDate(lib: DateLib, doc: Document) returns (tanggal: Option<Date>)
    ensures tanggal == ArticleDate(lib, doc)
  {
    tanggal := None;
    var metaTime := Find(doc, ByTag("time"));
    if metaTime.Some? && "datetime" in metaTime.value.attrs {
      tanggal := lib.fromIsoFormat(metaTime.value.attrs["datetime"]);
    }
    if tanggal.None? {
      var textnodes := doc.textNodes;
      var scanned := if |textnodes| <= ScanLimit then textnodes else textnodes[..ScanLimit];
      tanggal := ScanTextNodes(lib, scanned);
    }
  }

  /** Lower-casing leaves the digits `2` and `0` where they are, and makes no new ones. */
  lemma LowerKeepsYearDigits(s: string, k: int)
    ensures OccursAt(Lower(s), "202", k) <==> OccursAt(s, "202", k)
  {
    if 0 <= k && k + 3 <= |s| {
      assert Lower(s)[k..k + 3] == [LowerChar(s[k]), LowerChar(s[k + 1]), LowerChar(s[k + 2])];
      assert s[k..k + 3] == [s[k], s[k + 1], s[k + 2]];
    }
  }

  /** Both longer markers contain "202", so the test is the same as `"202" in txt`. */
  lemma MentionsYearIff(txt: string)
    ensures MentionsYear(txt) <==> Contains(txt, "202")
  {
    var low := Lower(txt);
    if Contains(low, "2025") {
      var k := IndexOf(low, "2025").value;
      assert low[k..k + 3] == low[k..k + 4][..3];
      assert OccursAt(low, "202", k);
    }
    if Contains(low, "2024") {
      var k := IndexOf(low, "2024").value;
      assert low[k..k + 3] == low[k..k + 4][..3];
      assert OccursAt(low, "202", k);
    }
    if Contains(low, "202") {
      var k := IndexOf(low, "202").value;
      LowerKeepsYearDigits(txt, k);
    }
    if Contains(txt, "202") {
      var k := IndexOf(txt, "202").value;
      LowerKeepsYearDigits(txt, k);
    }
  }
}
