# scrapingBeritaEkonomi in Dafny

A model of the scraping-and-classification core of scrapingBeritaEkonomi. The program gathers news
about Lampung from four portals (detik.com, rmollampung.id, lampost.co.id, lampung.antaranews.com).
It merges the results and labels every article with a classifier. The articles labelled 1 are the
economic news.

The model covers these parts:

- **`_ensure_date`**: the three identical copies (detik, rmol, lampost) as `Dates.EnsureDate`, and
  antara's dateutil variant as `Antara.EnsureDate`. The numeric `strptime` formats are modelled
  concretely as the regular expressions Python compiles them into. Locale formats,
  `fromisoformat` and `dateutil` are opaque functions.
- **`_safe_get`**: the retry loop (`Fetch.SafeGet`). The browser is a parameter saying which
  attempt on which URL succeeds and what page is then shown.
- **The four runners** `parse_detik_lampung`, `parse_rmol_lampung`, `parse_lampost` and
  `parse_antara`. Their portal parts are the listing URL, the link rule, link de-duplication and
  the article-date fallbacks; they live in the modules `Detik`, `Rmol`, `Lampost` and `Antara`.
  The shared loop lives in `Runner`: listing pages 1..`max_pages`, the article loop up to
  `max_articles`, the date window, and the record built.
- **The page loop and the article loop** as generic functions in `Crawl`. `Runner.RunSpec`
  instantiates them for a portal. The methods `Runner.VisitLinks`, `Runner.VisitPage`,
  `Runner.VisitPages` and `Runner.RunPortal` are the loops themselves, proved equal to those
  functions.
- **scraper_all.py**: `_try_call`, `_load_model_safe` and `scrape_dan_klasifikasi`, in
  `Aggregator`. That module also holds a small DataFrame model covering `pd.DataFrame(records)`,
  `pd.concat`, `drop_duplicates(subset=["link"])`, column assignment and row selection by label.

Python exceptions are values (`Result`, with `Dates.PyError` and `Aggregator.Failure`). The
clock (`datetime.now().date()`), the browser, the file system and the loaded model are
parameters.

Four behaviours of the code shape the model:

- **A datetime bound comes back unchanged.** `_ensure_date` tests `isinstance(dt, date_cls)`
  before `isinstance(dt, datetime)` (parser_detik.py:18-21). A `datetime` is a `date`, so the
  datetime is returned as it is and `return dt.date()` is never reached. The docstring at
  parser_detik.py:74-75 describes `tanggal` as a `datetime.date`. Comparing an article's date
  with a datetime bound raises TypeError.
  - The detik runner catches that error per article and returns an empty table.
  - The other three runners let it escape at the first article that reaches the date filter
    (parser_rmol.py:129-132).
  - `_try_call` turns the escaped error into an empty DataFrame.
  - The lemmas are `Dates.DateTimeNotTruncated`, `Runner.DateTimeBoundEmpty` and `Runner.RunOutcome`.
- **A bad date bound is swallowed.** `_ensure_date` raises inside the runner, and `_try_call`
  (scraper_all.py:7-13) catches it like any other exception and returns an empty DataFrame.
- **The last string fallback of `_ensure_date` is `fromisoformat`** (parser_detik.py:29-32),
  after the four `strptime` formats. The antara copy tries `dateutil` first and then
  `fromisoformat` on the unstripped string.
- **A run can fail.** Outside detik, the comparison error above ends the whole run rather than
  skipping one article.

## Model

| member | source | states |
|---|---|---|
| Dates.EnsureDate | parser_detik.py:15-33 | None gives None; a date or a datetime comes back unchanged; a string is stripped and parsed by the four formats in order, then `fromisoformat`, else ValueError; any other type raises TypeError; a result is always a valid bound |
| Dates.DateTimeNotTruncated | parser_detik.py:18-21 | a datetime is returned as it is and never as its `.date()`: the truncating branch is dead |
| Dates.EnsureDateIdempotent | parser_detik.py:15-33 | normalising an already normalised bound gives the same result |
| Dates.EnsureDateRoundTrip | parser_detik.py:22-26 | `str(d)` of any valid date, with any whitespace around it, normalises back to `d` |
| Dates.StrptimeIsoText | parser_detik.py:24-26 | `strptime(str(d), "%Y-%m-%d")` gives back `d` for every valid date |
| Dates.CompileYmd | parser_detik.py:24 | the first `_ensure_date` format compiles to year, '-', month, '-', day |
| Dates.StrptimeNumeric | parser_detik.py:26 | a date `strptime` returns is a valid calendar date |
| Dates.FirstFormat | parser_detik.py:131-136 | the result is that of the first format that parses, every earlier format having failed; None iff every format fails |
| Dates.TryFormats | parser_detik.py:131-136 | the format loop with `break` returns the first format that parses (FirstFormat) |
| Dates.ParseBoundText | parser_detik.py:22-32 | the string branch gives a date or a ValueError, never anything else |
| Dates.ParseBoundTextFirstWins | parser_detik.py:24-32 | the first parsing format decides; `fromisoformat` is tried only when all four fail, and the ValueError only when it fails too |
| Dates.WindowCheck | parser_detik.py:141-146 | with date bounds an article is kept iff its date is inside the inclusive window; a date before a date start is rejected before the end is looked at; a datetime start, or a datetime end reached past a start that did not reject, raises the comparison TypeError; a kept article never faced a datetime bound |
| Text.StripLeft | parser_detik.py:23 | the result is a suffix of the input, what was removed is whitespace, and it starts with no whitespace |
| Text.StripRight | parser_detik.py:23 | the result is a prefix of the input, what was removed is whitespace, and it ends with no whitespace |
| Text.StripIsTrimmedSlice | parser_detik.py:23 | `strip()` is a slice of the input with no whitespace at either end |
| Text.StripIdempotent | parser_detik.py:23 | stripping twice is stripping once |
| Text.IndexOf | lampost_parser.py:112 | the first occurrence of the separator, or None iff it occurs nowhere |
| Text.BeforeFirst | lampost_parser.py:112 | `split(" -")[0]` is a prefix of the text; it is the whole text iff the separator does not occur, and otherwise stops at its first occurrence |
| Text.Lower | parser_rmol.py:94 | `lower()` keeps the length and lowers each character |
| Text.NatToString | parser_detik.py:87 | the page number written in decimal digits, which read back as the number |
| Text.Join | parser_detik.py:149 | joining no paragraphs gives "", joining one gives it |
| Text.JoinSnoc | parser_detik.py:149 | joining one more paragraph appends the separator and that paragraph, so the joined text is the paragraphs in order, separated by " " |
| Fetch.SafeGet | parser_detik.py:61-69 | True iff one of the first `retries` attempts succeeds, and then the attempt count is the first success; False after exactly `retries` failed attempts |
| Fetch.AnyAttemptIff | parser_detik.py:61-69 | the attempt function the runners use agrees with "some attempt among the first n succeeds" |
| Page.Filter | parser_detik.py:97 | `find_all` returns only matching elements of the page, every matching element, and keeps document order (a subsequence of the elements) |
| Page.FilterCount | parser_detik.py:97 | `find_all` keeps every matching element as often as it occurs, and no other element |
| Page.FilterFirst | parser_detik.py:119 | the first element `find_all` returns is the first matching element of the page |
| Page.Find | parser_detik.py:119 | `find` returns the first matching element in document order, and None iff no element matches |
| Page.Hrefs | parsersAntara.py:94 | `[l[1] for l in links]` lists the links' hrefs in order |
| Page.HrefsKeys | parsersAntara.py:94 | an href is in that list iff some collected link has it |
| Page.ToLinks | parser_detik.py:97-100 | one `(text, href)` pair per anchor, in order |
| Page.Texts | parser_detik.py:148-149 | one paragraph text per `<p>`, in order |
| Article.KeepLinksMembers | parser_detik.py:97-100 | the link filter keeps exactly the accepted links, each as many times as it occurs, in their original order |
| Article.FilterLinks | parser_detik.py:96-100 | the append loop yields the accepted links in order |
| Article.SeenFilter | parser_detik.py:101-107 | the `seen` loop keeps the first link of each href, in order |
| Article.CollectUnseen | parsersAntara.py:89-95 | the membership-test loop keeps the first accepted link of each href, in order |
| Article.CandidatesSound | parser_detik.py:96-107 | every link that survives the filter and de-duplication is an accepted anchor |
| Article.CandidatesComplete | parser_detik.py:96-107 | every accepted anchor's href survives the filter and de-duplication |
| Article.FirstSome | parser_rmol.py:115-126 | a first-success scan yields the first element that succeeds, and None iff none does |
| Article.FindEither | parser_detik.py:127 | `find(q1) or find(q2)`: the first match of `q1`, and the first match of `q2` only when `q1` matches nothing |
| Article.FirstTimeDate | parser_detik.py:119-124 | only the first `<time>` is read: its `datetime` attribute through `fromisoformat`; None iff there is no `<time>`, it has no `datetime`, or that does not parse |
| Article.FirstParsedTime | lampost_parser.py:99-107 | the date of the first `<time>` whose attribute parses, earlier ones failing; None iff none parses |
| Article.FirstParsedTimeLoop | lampost_parser.py:99-107 | the `for t in time_tags ... break` loop returns FirstParsedTime |
| Detik.DiscoverLinks | parser_detik.py:96-107 | the visited links are accepted anchors with distinct hrefs, and every accepted href is among them |
| Detik.ArticleDate | parser_detik.py:117-136 | the first `<time>`'s attribute wins when it parses; otherwise the date is that of the first class-`date` element (else class-`time`) under the first of the three formats that parses, and None when there is no such element |
| Detik.ResolveDate | parser_detik.py:117-136 | the date-extraction code returns ArticleDate |
| Rmol.Candidates | parser_rmol.py:89-95 | the opened anchors are the anchors with a qualifying href and a title not starting with "read more", in document order, each as often as it occurs: there is no de-duplication |
| Rmol.MentionsYearIff | parser_rmol.py:117 | the year test is the same as `"202" in txt`, because both other markers contain it |
| Rmol.Scanned | parser_rmol.py:114-115 | the scan looks at the first 50 text nodes, or all of them when there are fewer |
| Rmol.TextNodeDate | parser_rmol.py:112-126 | the date of the first text node that is a candidate and parses, earlier ones yielding nothing |
| Rmol.ArticleDate | parser_rmol.py:104-126 | the `<time>` attribute wins when it parses, else the text scan decides |
| Rmol.TryNode | parser_rmol.py:116-124 | one node: stripped, tested, parsed with the three formats (NodeDate) |
| Rmol.ScanTextNodes | parser_rmol.py:115-126 | the scan loop that leaves at the first date returns TextNodeDate |
| Rmol.ResolveDate | parser_rmol.py:104-126 | the date-extraction code returns ArticleDate |
| Lampost.Candidates | lampost_parser.py:87-91 | the opened anchors are the anchors whose href has "/202" and "lampost", in document order, each as often as it occurs |
| Lampost.PublishedText | lampost_parser.py:112 | the text before " -" is a prefix of the text with no " -"; it is the whole text iff " -" does not occur, else it stops at the first " -" |
| Lampost.PublishedDate | lampost_parser.py:113-119 | "%d %B %Y" wins when it parses; otherwise the result is `fromisoformat` of the same text; None iff both fail |
| Lampost.ArticleDate | lampost_parser.py:98-119 | the first parsing `<time>` attribute wins; otherwise the date is PublishedDate of the first class-`published` element (else the first `span.date`), and None when there is neither |
| Lampost.ResolveDate | lampost_parser.py:98-119 | the date-extraction code returns ArticleDate |
| Antara.EnsureDate | parsersAntara.py:15-31 | as the other copy for None, dates, datetimes and other types; a string goes to dateutil, then `fromisoformat`, unstripped, else ValueError quoting it |
| Antara.EnsureDateAgrees | parsersAntara.py:15-21 | on anything but a string the two `_ensure_date` variants agree |
| Antara.DiscoverLinks | parsersAntara.py:89-95 | the visited links are accepted anchors with distinct hrefs, and every accepted href is among them |
| Antara.ArticleDate | parsersAntara.py:104-122 | the first parsing `<time>` attribute wins; otherwise the date is dateutil's on the text of the first class-`date` element, and None when there is none |
| Antara.DateFallbackUnused | parsersAntara.py:116 | the `find("p", class_="date")` fallback never changes what is found |
| Antara.ResolveDate | parsersAntara.py:104-122 | the date-extraction code returns ArticleDate |
| Runner.Normalise | parser_detik.py:77-78 | a normalised bound is None, a date or a datetime |
| Runner.CandidatesHrefOk | parser_detik.py:97-100 | every link a listing page yields passed its portal's href rule |
| Runner.ArticleStep | parser_detik.py:112-159 | an unreachable article is skipped; a reachable one is dated (the page's date, else today) and then emitted iff that date passes the window check, as the record of the link's stripped title, the link, that date and the paragraphs; skipped when the check says no; and when the check raises, skipped by detik and a `Fail(CompareError)` in the other runners; it fails exactly when `Raises` holds |
| Runner.RunOutcome | parser_rmol.py:80-138 | a run whose bounds normalise visits the links of the loaded listing pages in page and link order; it raises the first failing link's error if that link is reached before `max_articles` records are collected, and otherwise returns the first `max_articles` records the links emit |
| Runner.ArticleRecord | parser_detik.py:137-155 | a link gives a record iff its page loads and the page's date, or today when there is none, passes the window; the record is the title, link, that date and the page's paragraphs |
| Runner.RunRecords | parser_detik.py:86-161 | when no article can raise (detik, or no datetime bound), a run returns exactly the first `max_articles` records the listing pages emit, in page order and link order |
| Runner.LoopFacts | parser_detik.py:86-161 | the two loops end with at most `max_articles` kept records, or with the comparison error |
| Runner.StepFacts | parser_detik.py:141-159 | a link that passed the rule emits a kept record; a failure is the comparison error |
| Runner.ListingFacts | parser_detik.py:96-107 | every link a listing yields passed the href rule |
| Runner.RunLoopFacts | parser_detik.py:86-161 | the loops of a run with normalised bounds keep the cap and the window, or end with the comparison error |
| Runner.RunCap | parser_detik.py:109-161 | a run returns at most `max_articles` records, and none when that is zero or negative |
| Runner.RunRecordsInWindow | parser_detik.py:141-156 | every returned record's date is inside the inclusive window of the normalised bounds, and its link passed the href rule |
| Runner.RunErrors | parser_rmol.py:73-132 | a run raises only what `_ensure_date` raises for a bound or, outside detik, the comparison TypeError |
| Runner.DetikCompletes | parser_detik.py:112-159 | once both bounds normalise, the detik runner never raises |
| Runner.DateTimeBoundEmpty | parser_rmol.py:129-132 | with a datetime bound no record is ever returned; when the bounds normalise and `max_articles` is positive, a run raises the comparison TypeError iff some link of a loaded listing page opens and reaches the date filter outside detik, and otherwise returns an empty table |
| Runner.DateTimeBoundRaises | parser_rmol.py:129-132 | the same iff, for bounds already known to normalise with one of them a datetime |
| Runner.OfflineRunEmpty | parser_detik.py:86-91 | when no page loads, a run whose bounds normalise returns no records |
| Runner.DiscoverLinks | parser_rmol.py:89-95 | each portal's discovery code returns its Candidates |
| Runner.ResolveDate | parser_detik.py:117-139 | each portal's date code returns its ArticleDate |
| Runner.ProcessArticle | parser_detik.py:112-159 | the body of the article loop for one link computes the article step |
| Runner.VisitLinks | parser_detik.py:109-159 | the article loop of one listing page computes `Crawl.ArticlesFrom` |
| Runner.VisitPage | parser_detik.py:86-107 | one listing page: skipped when it cannot be loaded, else its links are visited; done at the cap or on a failure |
| Runner.VisitPages | parser_detik.py:86-161 | the page loop over pages 1..`max_pages` computes `Crawl.PagesFrom` |
| Runner.RunPortal | parser_detik.py:72-171 | a whole run (normalise the bounds, then the loops) computes RunSpec |
| Runner.ParseDetikLampung | parser_detik.py:72-171 | `parse_detik_lampung` is RunSpec on detik and returns at most `max_articles` records |
| Runner.ParseRmolLampung | parser_rmol.py:72-148 | `parse_rmol_lampung` is RunSpec on rmol and returns at most `max_articles` records |
| Runner.ParseLampost | lampost_parser.py:71-141 | `parse_lampost`, `max_articles` before `max_pages`, is RunSpec on lampost and returns at most `max_articles` records |
| Runner.ParseAntara | parsersAntara.py:69-146 | `parse_antara` is RunSpec on antara and returns at most `max_articles` records |
| Crawl.ArticlesFromEmitted | parser_detik.py:109-159 | when no link fails, the article loop appends exactly the first records the links emit, in link order, up to the cap |
| Crawl.PagesFromEmitted | parser_detik.py:86-161 | when no link fails, the page loop appends exactly the first records the loaded pages emit, in page order, up to the cap |
| Crawl.FirstFail | parser_rmol.py:89-132 | the first link whose article raises: None iff none raises, else a raising link with no raising link before it |
| Crawl.ArticlesFromFirstFail | parser_rmol.py:89-134 | the article loop exactly: the first failing link's error when it is reached before the cap, else the records collected so far followed by the first records the links emit, up to the cap |
| Crawl.ArticlesFromAppend | parser_rmol.py:89-134 | the article loop over two lists of links runs over the first, then continues over the second from where it stopped |
| Crawl.PagesFromFlat | parser_rmol.py:80-137 | the page loop is the article loop over the links of every listing page that loads, in page order; a page that does not load adds no link |
| Crawl.PagesFromFirstFail | parser_rmol.py:80-137 | the page loop from page 1 is exactly the article loop's outcome over all those links |
| Crawl.ArticlesFromFacts | parser_detik.py:109-159 | the article loop extends the records with good ones within the cap, or fails with a bad error |
| Crawl.PagesFromFacts | parser_detik.py:86-161 | the same over every listing page |
| Crawl.PagesFromNoListing | parser_detik.py:86-91 | with no page loading, the page loop returns what it started with |
| Dedup.DedupByKeys | parser_detik.py:101-107 | de-duplication loses no key |
| Dedup.DedupByUnique | parser_detik.py:101-107 | after de-duplication no two items share a key |
| Dedup.DedupBySubsequence | parser_detik.py:101-107 | de-duplication keeps the order |
| Dedup.DedupByFirst | scraper_all.py:79 | each kept item is the first occurrence of its key |
| Dedup.DedupByCorrect | scraper_all.py:79 | de-duplication: unique keys, no key lost, order kept, first occurrences |
| Aggregator.FromRecords | parser_detik.py:168 | `pd.DataFrame(results)` is well formed, one row per record in order holding its `judul`, `link`, `tanggal` and `isi`, the four record columns, and empty iff there are no records |
| Aggregator.TryCall | scraper_all.py:7-13 | `_try_call` returns the parser's DataFrame, or an empty one when the parser raised |
| Aggregator.Collect | scraper_all.py:54-73 | `dfs` holds only non-empty DataFrames of imported parsers, no more than there are blocks |
| Aggregator.CollectOrder | scraper_all.py:54-73 | `dfs` keeps the order of the parser blocks |
| Aggregator.CollectComplete | scraper_all.py:54-73 | every imported parser's non-empty DataFrame is in `dfs` |
| Aggregator.CollectRows | scraper_all.py:54-73 | `dfs` holds no more rows than the parsers offered |
| Aggregator.ConcatColumnsFacts | scraper_all.py:79 | the concatenation's columns are distinct and are exactly the columns of the frames |
| Aggregator.Pad | scraper_all.py:79 | a row widened to the union of the columns keeps its cells and has NaN in the new ones |
| Aggregator.ConcatFacts | scraper_all.py:79 | `pd.concat` is well formed, has as many rows as the frames together, and its rows are exactly the frames' rows widened |
| Aggregator.ConcatOrder | scraper_all.py:79 | `pd.concat` lists the frames' rows frame after frame: row k of frame j, widened, is at the rows of the earlier frames plus k |
| Aggregator.DropDuplicates | scraper_all.py:79 | KeyError("link") iff there is no `link` column; otherwise the columns are kept and rows only removed |
| Aggregator.DropDuplicatesCorrect | scraper_all.py:79 | after `drop_duplicates` no two rows share a link, no link is lost, order is kept, and each row is the first with its link |
| Aggregator.DropDuplicatesWellFormed | scraper_all.py:79 | `drop_duplicates` keeps the frame well formed |
| Aggregator.SetColumn | scraper_all.py:90 | `df[c] = vals` puts `vals` in column `c`, appends `c` if new, changes no other cell and keeps the frame well formed |
| Aggregator.AddColumnIfMissing | scraper_all.py:81-82 | a missing column is added holding "" in every row; a present one leaves the frame unchanged |
| Aggregator.FillColumnsFacts | scraper_all.py:80-82 | the column loop keeps the frame well formed, adds the missing record columns holding "", and changes no existing cell |
| Aggregator.JoinPath | scraper_all.py:17 | `os.path.join(dir, p)` ends with `p` |
| Aggregator.ResolvePath | scraper_all.py:17 | an absolute model path is used as given; a relative one lies under the module's directory |
| Aggregator.LoadModelSafe | scraper_all.py:15-28 | a model is returned only when its file exists and loads, and it is what loading gives; otherwise None and never an exception |
| Aggregator.TextsCells | scraper_all.py:88 | the texts given to `predict`: the row's `isi` string, and "" when the row has no `isi` or it is NaN |
| Aggregator.Labels | scraper_all.py:85-98 | the model's predictions when it has `predict` and that succeeds with one label per row, otherwise -1 for every row |
| Aggregator.EconomicRowsCorrect | scraper_all.py:100 | the economic rows are exactly the rows labelled 1, in order |
| Aggregator.AggregateErrors | scraper_all.py:75-79 | no DataFrame gives two empty DataFrames; otherwise KeyError iff no collected DataFrame has a `link` column |
| Aggregator.LabelledLinks | scraper_all.py:80-98 | filling the columns and labelling keep every row's link, keep the frame well formed and add the record columns and `label` |
| Aggregator.AggregateTable | scraper_all.py:79-98 | the whole table is well formed, has the record columns and `label`, has one row per link, and no more rows than were collected |
| Aggregator.AggregateFirstRows | scraper_all.py:79-98 | each row of the whole table is, apart from `label`, the first concatenated row with its link, in the order `drop_duplicates` leaves them; the table has exactly the links of the collected rows |
| Aggregator.AggregateKeepsLinks | scraper_all.py:79 | the link of every collected row is the link of some row of the whole table |
| Aggregator.AggregateEconomic | scraper_all.py:100-101 | the economic table has the same columns and exactly the rows labelled 1, in order |
| Aggregator.AggregateWithoutModel | scraper_all.py:85-98 | without a model that has `predict` every row is labelled -1 and the economic table is empty |
| Aggregator.PortalFrameHasLink | parser_detik.py:150-155 | a portal runner's non-empty DataFrame has a `link` column |
| Aggregator.BlockIndex | scraper_all.py:54-69 | each portal has one of the four portal blocks |
| Aggregator.PortalCollected | scraper_all.py:54-69 | an imported portal's non-empty DataFrame is collected, and it has a `link` column |
| Aggregator.ScrapeKeyError | scraper_all.py:54-79 | a KeyError only when no portal contributed and radar's DataFrame, the only one collected, has no `link` column |
| Aggregator.ScrapeNothingFound | scraper_all.py:54-77 | when every runner raises or finds nothing and radar gives nothing, the result is two empty DataFrames |
| Aggregator.PortalRows | scraper_all.py:54-69 | no portal block offers more than `max_articles` rows |
| Aggregator.ScrapeRowBound | scraper_all.py:54-79 | the whole table has at most `max_articles` rows per portal plus radar's rows |
| Aggregator.CollectFrames | scraper_all.py:31-73 | the parser blocks, run in order, build the `dfs` of Collect |
| Aggregator.PortalBlock | scraper_all.py:54-69 | one portal block appends the portal's DataFrame when the parser was imported and the frame is not empty, and nothing otherwise |
| Aggregator.AggregateFrames | scraper_all.py:75-101 | concatenation, de-duplication, the column loop, labelling and the selection compute Aggregate |
| Aggregator.ScrapeDanKlasifikasi | scraper_all.py:30-101 | `scrape_dan_klasifikasi` computes ScrapeSpec: its result and its KeyError |

## Left out

- **Selenium.** `_make_chrome_driver`, `driver.quit()`, page-load timeouts and the `time.sleep`
  pauses are not modelled. The browser is a parameter. Its outcome for the i-th attempt on a URL
  is fixed, and so is the page shown for the URL. Pages that change between visits are not
  modelled.
- **BeautifulSoup.** HTML parsing is not modelled. A page is its elements in document order,
  each with a tag, classes, attributes and its stripped text, plus its text nodes. `soup.select`
  results that the runners compute but never use are left out.
- **Case folding and digits are ASCII only.** `lower()` lowers only `A`-`Z`, and `\d` and `int`
  read only `0`-`9`; their Unicode behaviour is not modelled. Whitespace for `strip()` is
  Python's full `str.isspace` set.
- **Opaque date parsers.** Locale-dependent `strptime` formats (`%A`, `%B`, `%b`),
  `datetime.fromisoformat` and `dateutil.parser.parse` are opaque functions. Only the numeric
  formats are modelled concretely.
- **The clock.** `datetime.now().date()` is a parameter of the run.
- **Module imports.** Whether each import succeeds is a parameter.
- **The radar parser.** parser_radarlampung is not part of this model. Its outcome is a parameter.
- **Printing and tracebacks.** `print`, `traceback.print_exc` and the warnings are not modelled.
- **Saving to Excel.** `simpan` / `to_excel` writes a file and returns nothing different, so it
  is not modelled.
- **The Streamlit front end.** It is not modelled.
- **The DataFrame index.** It is dropped: `ignore_index` and `reset_index` leave nothing to model.
- **Aggregator.Labels**: labels are integers; a model predicting strings is not modelled.
- **Aggregator.CellText**: a date outside 1..9999, which Python cannot build, has no text.
- **Aggregator.FillColumns**: its own contract states only the row count. The column facts are
  in `Aggregator.FillColumnsFacts`, which needs a well-formed frame.
- **Runner.RunPortal**: the exception that ends a run is the comparison TypeError, or what
  `_ensure_date` raises. Other exceptions are not modelled. These include a fetch that throws
  after `_safe_get` succeeded, an HTML library error, and an `isi` or title that is not a string.
