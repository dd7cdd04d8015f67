/**
 * The four runners (`parse_detik_lampung`, `parse_rmol_lampung`, `parse_lampost`,
 * `parse_antara`). They share one shape: normalise the two date bounds, then for each
 * listing page 1..max_pages fetch the page, discover candidate links, and open them one
 * by one until `max_articles` records have been collected; an article is kept when its
 * date lies in the window. They differ in the listing URL, the link rule, the date
 * extraction, the `_ensure_date` variant, and in what happens when the date filter
 * raises: the detik runner catches it per article, the other three let it escape.
 */
module Runner {

  import opened Wrappers
  import opened Text
  import opened Dates
  import opened Page
  import opened Fetch
  import opened Article
  import opened Crawl
  import Detik
  import Rmol
  import Lampost
  import Antara

  datatype Portal = DetikNews | RmolNews | LampostNews | AntaraNews

  /** The runner's arguments: `start_date`, `end_date`, `max_pages`, `max_articles`. */
  datatype Config = Config(start: PyValue, end: PyValue, maxPages: int, maxArticles: int)

  /** What the runner reads from outside: the browser, the date library, `datetime.now().date()`. */
  datatype Env = Env(browser: Browser, lib: DateLib, today: Date)

  function Max(a: int, b: int): int
  {
    if a < b then b else a
  }

  /** The `_ensure_date` of the portal's module. */
  function Normalise(p: Portal, lib: DateLib, v: PyValue): (r: Result<PyValue, PyError>)
    ensures r.Ok? ==> IsBound(r.value)
  {
    if p == AntaraNews then Antara.EnsureDate(lib, v) else Dates.EnsureDate(lib, v)
  }

  function ListingUrl(p: Portal, page: nat): string
  {
    match p
    case DetikNews => Detik.ListingUrl(page)
    case RmolNews => Rmol.ListingUrl(page)
    case LampostNews => Lampost.ListingUrl(page)
    case AntaraNews => Antara.ListingUrl(page)
  }

  /** The href rule a visited link satisfies. */
  predicate HrefOk(p: Portal, href: string)
  {
    match p
    case DetikNews => Detik.HrefRule(href)
    case RmolNews => Rmol.HrefRule(href)
    case LampostNews => Lampost.HrefRule(href)
    case AntaraNews => Antara.HrefRule(href)
  }

  /** The links the article loop of one listing page visits, in order. */
  function Candidates(p: Portal, doc: Document): seq<Link>
  {
    match p
    case DetikNews => Detik.Candidates(doc)
    case RmolNews => Rmol.Candidates(doc)
    case LampostNews => Lampost.Candidates(doc)
    case AntaraNews => Antara.Candidates(doc)
  }

  /** Every visited link passed the portal's href rule. */
  lemma CandidatesHrefOk(p: Portal, doc: Document)
    ensures forall k :: 0 <= k < |Candidates(p, doc)| ==> HrefOk(p, Candidates(p, doc)[k].href)
  {
    var c := Candidates(p, doc);
    forall k | 0 <= k < |c| ensures HrefOk(p, c[k].href) {
      assert c[k] in c;
      match p
      case DetikNews => CandidatesSound(Anchors(doc), Detik.LinkRule);
      case RmolNews =>
      case LampostNews =>
      case AntaraNews => CandidatesSound(Anchors(doc), Antara.LinkRule);
    }
  }

  function ArticleDate(p: Portal, lib: DateLib, doc: Document): Option<Date>
  {
    match p
    case DetikNews => Detik.ArticleDate(lib, doc)
    case RmolNews => Rmol.ArticleDate(lib, doc)
    case LampostNews => Lampost.ArticleDate(lib, doc)
    case AntaraNews => Antara.ArticleDate(lib, doc)
  }

  /** A record the runner may return: its date is in the window and its link passed the rule. */
  predicate Kept(p: Portal, start: PyValue, end: PyValue, r: Record)
  {
    InWindow(r.tanggal, start, end) && HrefOk(p, r.link) && !start.PyDateTime? && !end.PyDateTime?
  }

  /** The error the article loop can end with: the date comparison, outside detik. */
  predicate LoopError(p: Portal, start: PyValue, end: PyValue, e: PyError)
  {
    p != DetikNews && e == CompareError && (start.PyDateTime? || end.PyDateTime?)
  }

  /** The date an article page is given: the one the page states, or today when it states none. */
  function PageDate(p: Portal, env: Env, doc: Document): (d: Date)
    ensures ArticleDate(p, env.lib, doc).Some? ==> d == ArticleDate(p, env.lib, doc).value
    ensures ArticleDate(p, env.lib, doc).None? ==> d == env.today
  {
    match ArticleDate(p, env.lib, doc) case Some(d) => d case None => env.today
  }

  /**
   * Opening `l` raises the comparison TypeError out of the runner: the runner is not
   * detik's, the page loads, and its date cannot be compared with a bound.
   */
  predicate Raises(p: Portal, env: Env, start: PyValue, end: PyValue, l: Link)
    requires IsBound(start) && IsBound(end)
  {
    p != DetikNews && AnyAttempt(env.browser, l.href, Retries)
    && WindowCheck(PageDate(p, env, env.browser.render(l.href)), start, end).Err?
  }

  /**
   * One article: fetch it (skipped when every attempt fails), date it (today when no
   * date is found), filter it by the window, and build the record from the link's
   * title, the link, the date and the paragraphs' text.
   */
  function ArticleStep(p: Portal, env: Env, start: PyValue, end: PyValue, l: Link): (r: Step<Record, PyError>)
    requires IsBound(start) && IsBound(end)
    ensures r.Emit? ==> Kept(p, start, end, r.record) || !HrefOk(p, l.href)
    ensures r.Emit? ==> r.record.link == l.href && r.record.judul == Strip(l.title)
    ensures r.Fail? ==> LoopError(p, start, end, r.error)
    ensures !AnyAttempt(env.browser, l.href, Retries) ==> r == Skip
    ensures AnyAttempt(env.browser, l.href, Retries) ==>
              var doc := env.browser.render(l.href);
              var tanggal := PageDate(p, env, doc);
              (WindowCheck(tanggal, start, end) == Ok(true) <==> r.Emit?)
              && (r.Emit? ==> r.record == Record(Strip(l.title), l.href, tanggal, Body(doc)))
              && (WindowCheck(tanggal, start, end) == Ok(false) ==> r == Skip)
              && (WindowCheck(tanggal, start, end).Err? ==> r == if p == DetikNews then Skip else Fail(CompareError))
    ensures r.Fail? <==> Raises(p, env, start, end, l)
  {
    match Visit(env.browser, l.href)
    case None => Skip
    case Some(doc) =>
      var tanggal := PageDate(p, env, doc);
      match WindowCheck(tanggal, start, end)
      case Err(e) => if p == DetikNews then Skip else Fail(e)
      case Ok(keep) =>
        if keep then Emit(Record(Strip(l.title), l.href, tanggal, Body(doc))) else Skip
  }

  /** The article step of a run whose bounds are `start` and `end`. */
  function StepOf(p: Portal, env: Env, start: PyValue, end: PyValue): Link -> Step<Record, PyError>
    requires IsBound(start) && IsBound(end)
  {
    l => ArticleStep(p, env, start, end, l)
  }

  /** What listing page `page` yields: its candidate links, or None when it cannot be loaded. */
  function ListingOf(p: Portal, env: Env): nat -> Option<seq<Link>>
  {
    (page: nat) => match Visit(env.browser, ListingUrl(p, page)) case None => None case Some(doc) => Some(Candidates(p, doc))
  }

  /** Listing page `page` yields its candidates when some attempt to load it succeeds. */
  lemma ListingAt(p: Portal, env: Env, page: nat)
    ensures var url := ListingUrl(p, page);
      ListingOf(p, env)(page) == if AnyAttempt(env.browser, url, Retries) then Some(Candidates(p, env.browser.render(url))) else None
  {
    AnyAttemptIff(env.browser, ListingUrl(p, page), Retries);
  }

  /** A whole run: the records, or the exception the runner raises. */
  function RunSpec(p: Portal, env: Env, cfg: Config): Result<seq<Record>, PyError>
  {
    match Normalise(p, env.lib, cfg.start)
    case Err(e) => Err(e)
    case Ok(start) =>
      match Normalise(p, env.lib, cfg.end)
      case Err(e) => Err(e)
      case Ok(end) => PagesFrom(ListingOf(p, env), StepOf(p, env, start, end), 1, cfg.maxPages, [], cfg.maxArticles)
  }

  // ---------------------------------------------------------------------------
  // What a run promises
  // ---------------------------------------------------------------------------

  /** The run's loops end with records the runner may return, within the cap, or with the comparison error. */
  lemma LoopFacts(p: Portal, start: PyValue, end: PyValue, listing: nat -> Option<seq<Link>>,
                  step: Link -> Step<Record, PyError>, maxPages: int, cap: int)
    requires forall l: Link :: HrefOk(p, l.href) && step(l).Emit? ==> Kept(p, start, end, step(l).record)
    requires forall l: Link :: step(l).Fail? ==> LoopError(p, start, end, step(l).error)
    requires forall pg :: listing(pg).Some? ==> forall k :: 0 <= k < |listing(pg).value| ==> HrefOk(p, listing(pg).value[k].href)
    ensures var r := PagesFrom(listing, step, 1, maxPages, [], cap);
      (r.Ok? ==> |r.value| <= Max(0, cap) && forall k :: 0 <= k < |r.value| ==> Kept(p, start, end, r.value[k]))
      && (r.Err? ==> LoopError(p, start, end, r.error))
  {
    PagesFromFacts(listing, step, (l: Link) => HrefOk(p, l.href),
                   (r: Record) => Kept(p, start, end, r), (e: PyError) => LoopError(p, start, end, e),
                   1, maxPages, [], cap);
  }

  /** A link that passed the href rule emits a record the runner may return; a failure is the comparison error. */
  lemma StepFacts(p: Portal, env: Env, start: PyValue, end: PyValue, step: Link -> Step<Record, PyError>)
    requires IsBound(start) && IsBound(end) && IsStepOf(p, env, start, end, step)
    ensures forall l: Link :: HrefOk(p, l.href) && step(l).Emit? ==> Kept(p, start, end, step(l).record)
    ensures forall l: Link :: step(l).Fail? ==> LoopError(p, start, end, step(l).error)
  {
    forall l: Link ensures step(l) == ArticleStep(p, env, start, end, l) {
    }
  }

  /** Every link a listing page yields passed the portal's href rule. */
  lemma ListingFacts(p: Portal, env: Env, listing: nat -> Option<seq<Link>>)
    requires IsListingOf(p, env, listing)
    ensures forall pg :: listing(pg).Some? ==> forall k :: 0 <= k < |listing(pg).value| ==> HrefOk(p, listing(pg).value[k].href)
  {
    forall pg: nat | listing(pg).Some?
      ensures forall k :: 0 <= k < |listing(pg).value| ==> HrefOk(p, listing(pg).value[k].href)
    {
      CandidatesHrefOk(p, env.browser.render(ListingUrl(p, pg)));
    }
  }

  /** The loops of a run whose bounds are `start` and `end`. */
  lemma RunLoopFacts(p: Portal, env: Env, start: PyValue, end: PyValue, maxPages: int, cap: int)
    requires IsBound(start) && IsBound(end)
    ensures var r := PagesFrom(ListingOf(p, env), StepOf(p, env, start, end), 1, maxPages, [], cap);
      (r.Ok? ==> |r.value| <= Max(0, cap) && forall k :: 0 <= k < |r.value| ==> Kept(p, start, end, r.value[k]))
      && (r.Err? ==> LoopError(p, start, end, r.error))
  {
    StepOfIs(p, env, start, end);
    StepFacts(p, env, start, end, StepOf(p, env, start, end));
    ListingOfIs(p, env);
    ListingFacts(p, env, ListingOf(p, env));
    LoopFacts(p, start, end, ListingOf(p, env), StepOf(p, env, start, end), maxPages, cap);
  }

  /** A run returns at most `max_articles` records (none when it is zero or negative). */
  lemma RunCap(p: Portal, env: Env, cfg: Config)
    ensures RunSpec(p, env, cfg).Ok? ==> |RunSpec(p, env, cfg).value| <= Max(0, cfg.maxArticles)
  {
    var s, e := Normalise(p, env.lib, cfg.start), Normalise(p, env.lib, cfg.end);
    if s.Ok? && e.Ok? {
      RunLoopFacts(p, env, s.value, e.value, cfg.maxPages, cfg.maxArticles);
    }
  }

  /**
   * Every record a run returns passed the portal's href rule and has its date inside the
   * window the normalised bounds describe, and neither bound was a datetime.
   */
  lemma RunRecordsInWindow(p: Portal, env: Env, cfg: Config)
    ensures var r := RunSpec(p, env, cfg);
      r.Ok? ==> Normalise(p, env.lib, cfg.start).Ok? && Normalise(p, env.lib, cfg.end).Ok?
                && forall k :: 0 <= k < |r.value| ==>
                     Kept(p, Normalise(p, env.lib, cfg.start).value, Normalise(p, env.lib, cfg.end).value, r.value[k])
  {
    var s, e := Normalise(p, env.lib, cfg.start), Normalise(p, env.lib, cfg.end);
    if s.Ok? && e.Ok? {
      RunLoopFacts(p, env, s.value, e.value, cfg.maxPages, cfg.maxArticles);
    }
  }

  /**
   * A run raises only what `_ensure_date` raises for a bound, or, outside detik, the
   * TypeError of comparing an article's date with a datetime bound.
   */
  lemma RunErrors(p: Portal, env: Env, cfg: Config)
    ensures var r := RunSpec(p, env, cfg);
      r.Err? ==>
        Normalise(p, env.lib, cfg.start) == Err(r.error)
        || (Normalise(p, env.lib, cfg.start).Ok? && Normalise(p, env.lib, cfg.end) == Err(r.error))
        || (Normalise(p, env.lib, cfg.start).Ok? && Normalise(p, env.lib, cfg.end).Ok?
            && LoopError(p, Normalise(p, env.lib, cfg.start).value, Normalise(p, env.lib, cfg.end).value, r.error))
  {
    var s, e := Normalise(p, env.lib, cfg.start), Normalise(p, env.lib, cfg.end);
    if s.Ok? && e.Ok? {
      RunLoopFacts(p, env, s.value, e.value, cfg.maxPages, cfg.maxArticles);
    }
  }

  /** Once both bounds normalise, the detik runner always completes. */
  lemma DetikCompletes(env: Env, cfg: Config)
    requires Dates.EnsureDate(env.lib, cfg.start).Ok? && Dates.EnsureDate(env.lib, cfg.end).Ok?
    ensures RunSpec(DetikNews, env, cfg).Ok?
  {
    RunErrors(DetikNews, env, cfg);
  }

  /**
   * A datetime bound is kept as a datetime, and comparing a date with it raises: no run
   * returns a record then. The detik runner returns an empty table; the others raise the
   * comparison TypeError exactly when some link of a listing page that loads opens and
   * reaches the date filter, and otherwise return an empty table.
   */
  lemma DateTimeBoundEmpty(p: Portal, env: Env, cfg: Config)
    requires cfg.start.PyDateTime? || cfg.end.PyDateTime?
    ensures var r := RunSpec(p, env, cfg);
      (r.Ok? ==> r.value == [])
      && (r.Err? && Normalise(p, env.lib, cfg.start).Ok? && Normalise(p, env.lib, cfg.end).Ok? ==>
            p != DetikNews && r.error == CompareError)
    ensures var s, e := Normalise(p, env.lib, cfg.start), Normalise(p, env.lib, cfg.end);
      s.Ok? && e.Ok? && cfg.maxArticles > 0 ==>
        var links := AllLinks(ListingOf(p, env), 1, cfg.maxPages);
        RunSpec(p, env, cfg)
        == if exists k :: 0 <= k < |links| && Raises(p, env, s.value, e.value, links[k]) then Err(CompareError) else Ok([])
  {
    var s, e := Normalise(p, env.lib, cfg.start), Normalise(p, env.lib, cfg.end);
    if s.Ok? && e.Ok? {
      assert s.value.PyDateTime? || e.value.PyDateTime?;
      RunSpecLoops(p, env, cfg);
      DateTimeBoundLoop(p, env, s.value, e.value, cfg.maxPages, cfg.maxArticles);
      if cfg.maxArticles > 0 {
        DateTimeBoundRaises(p, env, cfg);
      }
    }
  }

  /** When neither bound is a datetime, or in the detik runner, no article raises. */
  lemma NoFailingSteps(p: Portal, env: Env, start: PyValue, end: PyValue)
    requires IsBound(start) && IsBound(end) && (p == DetikNews || (!start.PyDateTime? && !end.PyDateTime?))
    ensures forall l :: !StepOf(p, env, start, end)(l).Fail?
  {
    forall l ensures !StepOf(p, env, start, end)(l).Fail? {
      assert StepOf(p, env, start, end)(l) == ArticleStep(p, env, start, end, l);
    }
  }

  /** With a datetime bound no article emits a record, and an article fails exactly when it raises. */
  lemma DateTimeBoundSteps(p: Portal, env: Env, start: PyValue, end: PyValue)
    requires IsBound(start) && IsBound(end) && (start.PyDateTime? || end.PyDateTime?)
    ensures forall l :: !StepOf(p, env, start, end)(l).Emit?
    ensures forall l :: StepOf(p, env, start, end)(l).Fail? <==> Raises(p, env, start, end, l)
  {
    forall l ensures !StepOf(p, env, start, end)(l).Emit? {
      assert StepOf(p, env, start, end)(l) == ArticleStep(p, env, start, end, l);
    }
  }

  /** With a datetime bound no article is kept, so a run raises at the first link that reaches the filter. */
  lemma DateTimeBoundRaises(p: Portal, env: Env, cfg: Config)
    requires Normalise(p, env.lib, cfg.start).Ok? && Normalise(p, env.lib, cfg.end).Ok?
    requires Normalise(p, env.lib, cfg.start).value.PyDateTime? || Normalise(p, env.lib, cfg.end).value.PyDateTime?
    requires cfg.maxArticles > 0
    ensures var start, end := Normalise(p, env.lib, cfg.start).value, Normalise(p, env.lib, cfg.end).value;
      var links := AllLinks(ListingOf(p, env), 1, cfg.maxPages);
      RunSpec(p, env, cfg)
      == if exists k :: 0 <= k < |links| && Raises(p, env, start, end, links[k]) then Err(CompareError) else Ok([])
  {
    var start, end := Normalise(p, env.lib, cfg.start).value, Normalise(p, env.lib, cfg.end).value;
    var step := StepOf(p, env, start, end);
    var links := AllLinks(ListingOf(p, env), 1, cfg.maxPages);
    DateTimeBoundSteps(p, env, start, end);
    RunOutcome(p, env, cfg);
    EmittedNone(step, links);
    var f := FirstFail(step, links);
    if f.Some? {
      EmittedNone(step, links[..f.value]);
      assert Raises(p, env, start, end, links[f.value]);
    } else {
      assert Take(Emitted(step, links), cfg.maxArticles) == [];
    }
  }

  lemma DateTimeBoundLoop(p: Portal, env: Env, start: PyValue, end: PyValue, maxPages: int, cap: int)
    requires IsBound(start) && IsBound(end) && (start.PyDateTime? || end.PyDateTime?)
    ensures var r := PagesFrom(ListingOf(p, env), StepOf(p, env, start, end), 1, maxPages, [], cap);
      (r.Ok? ==> r.value == []) && (r.Err? ==> p != DetikNews && r.error == CompareError)
  {
    RunLoopFacts(p, env, start, end, maxPages, cap);
    var r := PagesFrom(ListingOf(p, env), StepOf(p, env, start, end), 1, maxPages, [], cap);
    assert r.Ok? && |r.value| > 0 ==> Kept(p, start, end, r.value[0]);
  }

  /** When no page can be loaded, a run whose bounds normalise returns an empty table. */
  lemma OfflineRunEmpty(p: Portal, env: Env, cfg: Config)
    requires forall url, i :: !env.browser.attempt(url, i)
    requires Normalise(p, env.lib, cfg.start).Ok? && Normalise(p, env.lib, cfg.end).Ok?
    ensures RunSpec(p, env, cfg) == Ok([])
  {
    var listing := ListingOf(p, env);
    forall pg: nat ensures listing(pg).None? {
      AnyAttemptIff(env.browser, ListingUrl(p, pg), Retries);
    }
    var s, e := Normalise(p, env.lib, cfg.start).value, Normalise(p, env.lib, cfg.end).value;
    PagesFromNoListing(listing, StepOf(p, env, s, e), 1, cfg.maxPages, [], cfg.maxArticles);
  }

  /**
   * A link is turned into a record exactly when its page loads and the page's date (today
   * when the page gives none) passes the window check; the record holds the link's
   * stripped title, the link, that date and the page's paragraphs.
   */
  lemma ArticleRecord(p: Portal, env: Env, start: PyValue, end: PyValue, l: Link)
    requires IsBound(start) && IsBound(end)
    ensures var step := ArticleStep(p, env, start, end, l);
      var doc := env.browser.render(l.href);
      var tanggal := if ArticleDate(p, env.lib, doc).Some? then ArticleDate(p, env.lib, doc).value else env.today;
      (step.Emit? <==> AnyAttempt(env.browser, l.href, Retries) && WindowCheck(tanggal, start, end) == Ok(true))
      && (step.Emit? ==> step.record == Record(Strip(l.title), l.href, tanggal, Body(doc)))
  {
  }

  /**
   * When no article can raise (the detik runner, or neither bound a datetime), a run
   * returns exactly the first `max_articles` records the listing pages emit, in page
   * order and, within a page, in link order.
   */
  lemma RunRecords(p: Portal, env: Env, cfg: Config)
    requires Normalise(p, env.lib, cfg.start).Ok? && Normalise(p, env.lib, cfg.end).Ok?
    requires p == DetikNews
             || (!Normalise(p, env.lib, cfg.start).value.PyDateTime? && !Normalise(p, env.lib, cfg.end).value.PyDateTime?)
    ensures var start, end := Normalise(p, env.lib, cfg.start).value, Normalise(p, env.lib, cfg.end).value;
      RunSpec(p, env, cfg) == Ok(Take(AllEmitted(ListingOf(p, env), StepOf(p, env, start, end), 1, cfg.maxPages),
                                      cfg.maxArticles))
  {
    var start, end := Normalise(p, env.lib, cfg.start).value, Normalise(p, env.lib, cfg.end).value;
    var step := StepOf(p, env, start, end);
    RunSpecLoops(p, env, cfg);
    NoFailingSteps(p, env, start, end);
    PagesFromEmitted(ListingOf(p, env), step, 1, cfg.maxPages, [], cfg.maxArticles);
    assert [] + Take(AllEmitted(ListingOf(p, env), step, 1, cfg.maxPages), cfg.maxArticles - 0)
        == Take(AllEmitted(ListingOf(p, env), step, 1, cfg.maxPages), cfg.maxArticles);
  }

  /**
   * A run whose bounds normalise, exactly: it visits the links of the listing pages that
   * load, page by page and in link order, and raises the error of the first link whose
   * article raises if that link is reached before `max_articles` records are collected;
   * otherwise it returns the first `max_articles` records those links emit.
   */
  lemma RunOutcome(p: Portal, env: Env, cfg: Config)
    requires Normalise(p, env.lib, cfg.start).Ok? && Normalise(p, env.lib, cfg.end).Ok?
    ensures var start, end := Normalise(p, env.lib, cfg.start).value, Normalise(p, env.lib, cfg.end).value;
      var step := StepOf(p, env, start, end);
      var links := AllLinks(ListingOf(p, env), 1, cfg.maxPages);
      var f := FirstFail(step, links);
      RunSpec(p, env, cfg)
      == if f.Some? && |Emitted(step, links[..f.value])| < cfg.maxArticles then Err(step(links[f.value]).error)
         else Ok(Take(Emitted(step, links), cfg.maxArticles))
  {
    var start, end := Normalise(p, env.lib, cfg.start).value, Normalise(p, env.lib, cfg.end).value;
    RunSpecLoops(p, env, cfg);
    PagesFromFirstFail(ListingOf(p, env), StepOf(p, env, start, end), cfg.maxPages, cfg.maxArticles);
  }

  /** Once both bounds normalise, a run is the page loop from page 1 with no records. */
  lemma RunSpecLoops(p: Portal, env: Env, cfg: Config)
    requires Normalise(p, env.lib, cfg.start).Ok? && Normalise(p, env.lib, cfg.end).Ok?
    ensures var start, end := Normalise(p, env.lib, cfg.start).value, Normalise(p, env.lib, cfg.end).value;
      RunSpec(p, env, cfg) == PagesFrom(ListingOf(p, env), StepOf(p, env, start, end), 1, cfg.maxPages, [], cfg.maxArticles)
  {
  }

  // ---------------------------------------------------------------------------
  // The runner as a program
  // ---------------------------------------------------------------------------

  method DiscoverLinks(p: Portal, doc: Document) returns (links: seq<Link>)
    ensures links == Candidates(p, doc)
  {
    match p
    case DetikNews => links := Detik.DiscoverLinks(doc);
    case RmolNews => links := FilterLinks(Anchors(doc), Rmol.Accepts);
    case LampostNews => links := FilterLinks(Anchors(doc), Lampost.LinkRule);
    case AntaraNews => links := Antara.DiscoverLinks(doc);
  }

  method ResolveDate(p: Portal, lib: DateLib, doc: Document) returns (tanggal: Option<Date>)
    ensures tanggal == ArticleDate(p, lib, doc)
  {
    match p
    case DetikNews => tanggal := Detik.ResolveDate(lib, doc);
    case RmolNews => tanggal := Rmol.ResolveDate(lib, doc);
    case LampostNews => tanggal := Lampost.ResolveDate(lib, doc);
    case AntaraNews => tanggal := Antara.ResolveDate(lib, doc);
  }

  /** The body of the article loop for one link. */
  method ProcessArticle(p: Portal, env: Env, start: PyValue, end: PyValue, ghost step: Link -> Step<Record, PyError>,
                        l: Link) returns (got: Step<Record, PyError>)
    requires IsBound(start) && IsBound(end) && IsStepOf(p, env, start, end, step)
    ensures got == step(l)
  {
    assert step(l) == ArticleStep(p, env, start, end, l);
    var ok, _ := SafeGet(env.browser, l.href, Retries);
    AnyAttemptIff(env.browser, l.href, Retries);
    if !ok {
      return Skip;
    }
    var artSoup := env.browser.render(l.href);
    var found := ResolveDate(p, env.lib, artSoup);
    var tanggal := if found.Some? then found.value else env.today;
    var inRange := WindowCheck(tanggal, start, end);
    if inRange.Err? {
      if p == DetikNews {
        return Skip;
      }
      return Fail(inRange.error);
    }
    if !inRange.value {
      return Skip;
    }
    var isi := Body(artSoup);
    return Emit(Record(Strip(l.title), l.href, tanggal, isi));
  }

  /** `step` is the article step of a run whose bounds are `start` and `end`. */
  ghost predicate IsStepOf(p: Portal, env: Env, start: PyValue, end: PyValue, step: Link -> Step<Record, PyError>)
    requires IsBound(start) && IsBound(end)
  {
    forall l {:trigger ArticleStep(p, env, start, end, l)} :: step(l) == ArticleStep(p, env, start, end, l)
  }

  /** `listing` yields a listing page's candidates when some attempt to load it succeeds. */
  ghost predicate IsListingOf(p: Portal, env: Env, listing: nat -> Option<seq<Link>>)
  {
    forall pg: nat :: listing(pg) == if AnyAttempt(env.browser, ListingUrl(p, pg), Retries)
                                     then Some(Candidates(p, env.browser.render(ListingUrl(p, pg)))) else None
  }

  lemma StepOfIs(p: Portal, env: Env, start: PyValue, end: PyValue)
    requires IsBound(start) && IsBound(end)
    ensures IsStepOf(p, env, start, end, StepOf(p, env, start, end))
  {
  }

  lemma ListingOfIs(p: Portal, env: Env)
    ensures IsListingOf(p, env, ListingOf(p, env))
  {
    forall pg: nat ensures ListingOf(p, env)(pg) == if AnyAttempt(env.browser, ListingUrl(p, pg), Retries)
                                     then Some(Candidates(p, env.browser.render(ListingUrl(p, pg)))) else None {
      ListingAt(p, env, pg);
    }
  }

  /**
   * The article loop of one listing page: `count` records are already collected; the
   * loop leaves at the cap and a failing article ends the run.
   */
  method VisitLinks(p: Portal, env: Env, start: PyValue, end: PyValue, ghost step: Link -> Step<Record, PyError>,
                    links: seq<Link>, results0: seq<Record>, maxArticles: int) returns (outcome: Result<seq<Record>, PyError>)
    requires IsBound(start) && IsBound(end) && IsStepOf(p, env, start, end, step)
    ensures outcome == ArticlesFrom(step, links, results0, maxArticles)
  {
    var results := results0;
    var totalFound := |results0|;
    var i := 0;
    while i < |links|
      invariant 0 <= i <= |links|
      invariant totalFound == |results|
      invariant ArticlesFrom(step, links, results0, maxArticles) == ArticlesFrom(step, links[i..], results, maxArticles)
    {
      if totalFound >= maxArticles {
        break;
      }
      assert links[i..][1..] == links[i + 1..];
      var got := ProcessArticle(p, env, start, end, step, links[i]);
      match got {
        case Skip =>
        case Emit(r) =>
          results := results + [r];
          totalFound := totalFound + 1;
        case Fail(e) =>
          return Err(e);
      }
      i := i + 1;
    }
    return Ok(results);
  }

  /**
   * One pass of the page loop: fetch listing page `page`, discover its links and visit
   * them. `done` says the loop ends here, with `outcome` as the run's result; otherwise
   * the loop goes on with the records in `outcome`.
   */
  method VisitPage(p: Portal, env: Env, start: PyValue, end: PyValue, ghost listing: nat -> Option<seq<Link>>,
                   ghost step: Link -> Step<Record, PyError>, page: nat, maxPages: int,
                   results: seq<Record>, maxArticles: int) returns (outcome: Result<seq<Record>, PyError>, done: bool)
    requires IsBound(start) && IsBound(end) && page <= maxPages
    requires IsStepOf(p, env, start, end, step) && IsListingOf(p, env, listing)
    ensures !done ==> outcome.Ok?
    ensures PagesFrom(listing, step, page, maxPages, results, maxArticles)
            == if done then outcome else PagesFrom(listing, step, page + 1, maxPages, outcome.value, maxArticles)
  {
    var url := ListingUrl(p, page);
    var ok, _ := SafeGet(env.browser, url, Retries);
    AnyAttemptIff(env.browser, url, Retries);
    if !ok {
      PagesFromSkip(listing, step, page, maxPages, results, maxArticles);
      return Ok(results), false;
    }
    var soup := env.browser.render(url);
    var links := DiscoverLinks(p, soup);
    PagesFromVisit(listing, step, page, maxPages, links, results, maxArticles);
    outcome := VisitLinks(p, env, start, end, step, links, results, maxArticles);
    done := outcome.Err? || |outcome.value| >= maxArticles;
  }

  /** The page loop: pages 1..max_pages, leaving once the cap is reached. */
  method VisitPages(p: Portal, env: Env, start: PyValue, end: PyValue, ghost listing: nat -> Option<seq<Link>>,
                    ghost step: Link -> Step<Record, PyError>, maxPages: int, maxArticles: int)
    returns (outcome: Result<seq<Record>, PyError>)
    requires IsBound(start) && IsBound(end)
    requires IsStepOf(p, env, start, end, step) && IsListingOf(p, env, listing)
    ensures outcome == PagesFrom(listing, step, 1, maxPages, [], maxArticles)
  {
    var results: seq<Record> := [];
    var page := 1;
    while page <= maxPages
      invariant 1 <= page
      invariant PagesFrom(listing, step, 1, maxPages, [], maxArticles)
                == PagesFrom(listing, step, page, maxPages, results, maxArticles)
      decreases maxPages + 1 - page
    {
      var next, done := VisitPage(p, env, start, end, listing, step, page, maxPages, results, maxArticles);
      if done {
        return next;
      }
      results := next.value;
      page := page + 1;
    }
    return Ok(results);
  }

  /** A runner from its arguments to its DataFrame's rows, or to the exception it raises. */
  method RunPortal(p: Portal, env: Env, cfg: Config) returns (outcome: Result<seq<Record>, PyError>)
    ensures outcome == RunSpec(p, env, cfg)
  {
    var startDate := Normalise(p, env.lib, cfg.start);
    if startDate.Err? {
      return Err(startDate.error);
    }
    var endDate := Normalise(p, env.lib, cfg.end);
    if endDate.Err? {
      return Err(endDate.error);
    }
    StepOfIs(p, env, startDate.value, endDate.value);
    ListingOfIs(p, env);
    outcome := VisitPages(p, env, startDate.value, endDate.value, ListingOf(p, env),
                          StepOf(p, env, startDate.value, endDate.value), cfg.maxPages, cfg.maxArticles);
  }

  // The four public runners: each is the shared runner on its portal. Their keyword
  // defaults are `max_pages=2` and `max_articles=50`; `parse_lampost` takes
  // `max_articles` before `max_pages`.

  /** `parse_detik_lampung`: at most `max_articles` records, all kept by the detik filter. */
  method ParseDetikLampung(env: Env, start: PyValue, end: PyValue, maxPages: int, maxArticles: int)
    returns (outcome: Result<seq<Record>, PyError>)
    ensures outcome == RunSpec(DetikNews, env, Config(start, end, maxPages, maxArticles))
    ensures outcome.Ok? ==> |outcome.value| <= Max(0, maxArticles)
  {
    RunCap(DetikNews, env, Config(start, end, maxPages, maxArticles));
    outcome := RunPortal(DetikNews, env, Config(start, end, maxPages, maxArticles));
  }

  /** `parse_rmol_lampung`: at most `max_articles` records. */
  method ParseRmolLampung(env: Env, start: PyValue, end: PyValue, maxPages: int, maxArticles: int)
    returns (outcome: Result<seq<Record>, PyError>)
    ensures outcome == RunSpec(RmolNews, env, Config(start, end, maxPages, maxArticles))
    ensures outcome.Ok? ==> |outcome.value| <= Max(0, maxArticles)
  {
    RunCap(RmolNews, env, Config(start, end, maxPages, maxArticles));
    outcome := RunPortal(RmolNews, env, Config(start, end, maxPages, maxArticles));
  }

  /** `parse_lampost`, with its own argument order: at most `max_articles` records. */
  method ParseLampost(env: Env, start: PyValue, end: PyValue, maxArticles: int, maxPages: int)
    returns (outcome: Result<seq<Record>, PyError>)
    ensures outcome == RunSpec(LampostNews, env, Config(start, end, maxPages, maxArticles))
    ensures outcome.Ok? ==> |outcome.value| <= Max(0, maxArticles)
  {
    RunCap(LampostNews, env, Config(start, end, maxPages, maxArticles));
    outcome := RunPortal(LampostNews, env, Config(start, end, maxPages, maxArticles));
  }

  /** `parse_antara`: at most `max_articles` records. */
  method ParseAntara(env: Env, start: PyValue, end: PyValue, maxPages: int, maxArticles: int)
    returns (outcome: Result<seq<Record>, PyError>)
    ensures outcome == RunSpec(AntaraNews, env, Config(start, end, maxPages, maxArticles))
    ensures outcome.Ok? ==> |outcome.value| <= Max(0, maxArticles)
  {
    RunCap(AntaraNews, env, Config(start, end, maxPages, maxArticles));
    outcome := RunPortal(AntaraNews, env, Config(start, end, maxPages, maxArticles));
  }
}
