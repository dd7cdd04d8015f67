// The shape every runner shares, independent of the portal: a page loop over listing
// pages 1..max_pages and, inside it, an article loop over the page's links that stops at
// the cap on collected records. The portal's own behaviour comes in as two functions:
// what a listing page yields and what visiting one link comes to.

module Crawl {
  import opened Wrappers

  /** What visiting one link comes to: nothing, a record, or an exception that ends the run. */
  datatype Step<+R, +E> = Skip | Emit(record: R) | Fail(error: E)

  /**
   * The article loop over `links` with the records collected so far: it stops at the
   * cap, and a failing article ends the whole run.
   */
  function ArticlesFrom<L, R, E>(step: L -> Step<R, E>, links: seq<L>, acc: seq<R>, cap: int): Result<seq<R>, E>
  {
    if links == [] || |acc| >= cap then Ok(acc)
    else
      match step(links[0])
      case Skip => ArticlesFrom(step, links[1..], acc, cap)
      case Emit(r) => ArticlesFrom(step, links[1..], acc + [r], cap)
      case Fail(e) => Err(e)
  }

  /**
   * The page loop from `page` on: a listing page that cannot be loaded (None) is passed
   * over, and the loop ends once the cap is reached.
   */
  function PagesFrom<L, R, E>(listing: nat -> Option<seq<L>>, step: L -> Step<R, E>, page: nat, maxPages: int,
                              acc: seq<R>, cap: int): Result<seq<R>, E>
    decreases maxPages + 1 - page
  {
    if page > maxPages then Ok(acc)
    else
      match listing(page)
      case None => PagesFrom(listing, step, page + 1, maxPages, acc, cap)
      case Some(links) =>
        match ArticlesFrom(step, links, acc, cap)
        case Err(e) => Err(e)
        case Ok(acc') =>
          if |acc'| >= cap then Ok(acc') else PagesFrom(listing, step, page + 1, maxPages, acc', cap)
  }

  /** A listing page that cannot be loaded adds nothing. */
  lemma PagesFromSkip<L, R, E>(listing: nat -> Option<seq<L>>, step: L -> Step<R, E>, page: nat, maxPages: int,
                               acc: seq<R>, cap: int)
    requires page <= maxPages && listing(page).None?
    ensures PagesFrom(listing, step, page, maxPages, acc, cap) == PagesFrom(listing, step, page + 1, maxPages, acc, cap)
  {
  }

  /** A listing page that loads runs the article loop over its links. */
  lemma PagesFromVisit<L, R, E>(listing: nat -> Option<seq<L>>, step: L -> Step<R, E>, page: nat, maxPages: int,
                                links: seq<L>, acc: seq<R>, cap: int)
    requires page <= maxPages && listing(page) == Some(links)
    ensures var r := ArticlesFrom(step, links, acc, cap);
      PagesFrom(listing, step, page, maxPages, acc, cap)
      == if r.Err? || |r.value| >= cap then r else PagesFrom(listing, step, page + 1, maxPages, r.value, cap)
  {
  }

  /**
   * `rs` is `acc` followed by records that satisfy `good`, and the cap is respected: no
   * more than `cap` records unless `acc` already had more.
   */
  ghost predicate Extends<R>(good: R -> bool, acc: seq<R>, rs: seq<R>, cap: int)
  {
    |acc| <= |rs| && (|rs| <= cap || |rs| == |acc|) && rs[..|acc|] == acc
    && forall k :: |acc| <= k < |rs| ==> good(rs[k])
  }

  lemma ExtendsCons<R>(good: R -> bool, acc: seq<R>, r: R, rs: seq<R>, cap: int)
    requires |acc| < cap && good(r) && Extends(good, acc + [r], rs, cap)
    ensures Extends(good, acc, rs, cap)
  {
    assert rs[..|acc + [r]|][..|acc|] == rs[..|acc|];
  }

  lemma ExtendsTrans<R>(good: R -> bool, acc: seq<R>, mid: seq<R>, rs: seq<R>, cap: int)
    requires Extends(good, acc, mid, cap) && |mid| < cap && Extends(good, mid, rs, cap)
    ensures Extends(good, acc, rs, cap)
  {
    assert rs[..|mid|][..|acc|] == rs[..|acc|];
  }

  /**
   * When every link the loop sees is `ok`, an `ok` link that emits emits a `good`
   * record, and every failure is `bad`: the article loop extends `acc` with `good`
   * records within the cap, or fails with a `bad` error.
   */
  lemma {:induction false} ArticlesFromFacts<L, R, E>(step: L -> Step<R, E>, ok: L -> bool, good: R -> bool,
                                                      bad: E -> bool, links: seq<L>, acc: seq<R>, cap: int)
    requires forall l :: ok(l) && step(l).Emit? ==> good(step(l).record)
    requires forall l :: step(l).Fail? ==> bad(step(l).error)
    requires forall k :: 0 <= k < |links| ==> ok(links[k])
    ensures var r := ArticlesFrom(step, links, acc, cap);
      (r.Ok? ==> Extends(good, acc, r.value, cap)) && (r.Err? ==> bad(r.error))
    decreases |links|
  {
    if links != [] && |acc| < cap {
      var rest := links[1..];
      assert forall k :: 0 <= k < |rest| ==> rest[k] == links[k + 1];
      match step(links[0])
      case Skip =>
        ArticlesFromFacts(step, ok, good, bad, rest, acc, cap);
      case Emit(r) =>
        assert ok(links[0]);
        ArticlesFromFacts(step, ok, good, bad, rest, acc + [r], cap);
        var rs := ArticlesFrom(step, rest, acc + [r], cap);
        if rs.Ok? {
          ExtendsCons(good, acc, r, rs.value, cap);
        }
      case Fail(e) =>
    }
  }

  /** The article-loop facts carried over every listing page whose links are all `ok`. */
  lemma {:induction false} PagesFromFacts<L, R, E>(listing: nat -> Option<seq<L>>, step: L -> Step<R, E>,
                                                   ok: L -> bool, good: R -> bool, bad: E -> bool,
                                                   page: nat, maxPages: int, acc: seq<R>, cap: int)
    requires forall l :: ok(l) && step(l).Emit? ==> good(step(l).record)
    requires forall l :: step(l).Fail? ==> bad(step(l).error)
    requires forall pg :: listing(pg).Some? ==> forall k :: 0 <= k < |listing(pg).value| ==> ok(listing(pg).value[k])
    ensures var r := PagesFrom(listing, step, page, maxPages, acc, cap);
      (r.Ok? ==> Extends(good, acc, r.value, cap)) && (r.Err? ==> bad(r.error))
    decreases maxPages + 1 - page
  {
    if page <= maxPages {
      match listing(page)
      case None =>
        PagesFromFacts(listing, step, ok, good, bad, page + 1, maxPages, acc, cap);
      case Some(links) =>
        ArticlesFromFacts(step, ok, good, bad, links, acc, cap);
        var mid := ArticlesFrom(step, links, acc, cap);
        if mid.Ok? && |mid.value| < cap {
          PagesFromFacts(listing, step, ok, good, bad, page + 1, maxPages, mid.value, cap);
          var rs := PagesFrom(listing, step, page + 1, maxPages, mid.value, cap);
          if rs.Ok? {
            ExtendsTrans(good, acc, mid.value, rs.value, cap);
          }
        }
    }
  }

  /** The records the links emit, in order, with no cap. */
  function Emitted<L, R, E>(step: L -> Step<R, E>, links: seq<L>): seq<R>
  {
    if links == [] then []
    else (match step(links[0]) case Emit(r) => [r] case _ => []) + Emitted(step, links[1..])
  }

  /** The records emitted on the listing pages from `page` to `maxPages`, page by page, with no cap. */
  function AllEmitted<L, R, E>(listing: nat -> Option<seq<L>>, step: L -> Step<R, E>, page: nat, maxPages: int): seq<R>
    decreases maxPages + 1 - page
  {
    if page > maxPages then []
    else (match listing(page) case None => [] case Some(links) => Emitted(step, links))
         + AllEmitted(listing, step, page + 1, maxPages)
  }

  /** The first `n` elements of `xs`, or all of them when there are fewer. */
  function Take<R>(xs: seq<R>, n: int): seq<R>
  {
    if n <= 0 then [] else if n < |xs| then xs[..n] else xs
  }

  /** Taking from a concatenation takes from the first part first. */
  lemma TakeAppend<R>(a: seq<R>, b: seq<R>, n: int)
    ensures Take(a + b, n) == if n <= |a| then Take(a, n) else a + Take(b, n - |a|)
  {
    if |a| < n < |a + b| {
      assert (a + b)[..n] == a + b[..n - |a|];
    }
  }

  /**
   * When no link fails, the article loop appends the emitted records in order until the
   * cap: exactly the first `cap - |acc|` of them.
   */
  lemma {:induction false} ArticlesFromEmitted<L, R, E>(step: L -> Step<R, E>, links: seq<L>, acc: seq<R>, cap: int)
    requires forall l :: !step(l).Fail?
    ensures ArticlesFrom(step, links, acc, cap) == Ok(acc + Take(Emitted(step, links), cap - |acc|))
    decreases |links|
  {
    var em := Emitted(step, links);
    if links == [] || |acc| >= cap {
      assert Take(em, cap - |acc|) == [] && acc + [] == acc;
    } else {
      var rest := links[1..];
      var s := step(links[0]);
      assert !s.Fail?;
      if s.Skip? {
        assert ArticlesFrom(step, links, acc, cap) == ArticlesFrom(step, rest, acc, cap);
        assert em == Emitted(step, rest);
        ArticlesFromEmitted(step, rest, acc, cap);
      } else {
        var r := s.record;
        assert ArticlesFrom(step, links, acc, cap) == ArticlesFrom(step, rest, acc + [r], cap);
        assert em == [r] + Emitted(step, rest);
        ArticlesFromEmitted(step, rest, acc + [r], cap);
        TakeAppend([r], Emitted(step, rest), cap - |acc|);
        assert acc + [r] + Take(Emitted(step, rest), cap - |acc + [r]|) == acc + ([r] + Take(Emitted(step, rest), cap - |acc| - 1));
      }
    }
  }

  /**
   * When no link fails, the page loop returns the records it started with followed by
   * the first records the pages emit, in page order and link order, up to the cap.
   */
  lemma {:induction false} PagesFromEmitted<L, R, E>(listing: nat -> Option<seq<L>>, step: L -> Step<R, E>,
                                                     page: nat, maxPages: int, acc: seq<R>, cap: int)
    requires forall l :: !step(l).Fail?
    ensures PagesFrom(listing, step, page, maxPages, acc, cap)
            == Ok(acc + Take(AllEmitted(listing, step, page, maxPages), cap - |acc|))
    decreases maxPages + 1 - page
  {
    if page > maxPages {
      assert acc + Take([], cap - |acc|) == acc;
    } else if listing(page).None? {
      var rest := AllEmitted(listing, step, page + 1, maxPages);
      assert AllEmitted(listing, step, page, maxPages) == [] + rest;
      assert [] + rest == rest;
      PagesFromSkip(listing, step, page, maxPages, acc, cap);
      PagesFromEmitted(listing, step, page + 1, maxPages, acc, cap);
    } else {
      var links := listing(page).value;
      var em := Emitted(step, links);
      ArticlesFromEmitted(step, links, acc, cap);
      PagesFromVisit(listing, step, page, maxPages, links, acc, cap);
      var mid := acc + Take(em, cap - |acc|);
      if |mid| < cap {
        PagesFromEmitted(listing, step, page + 1, maxPages, mid, cap);
      }
      TakeThenRest(acc, em, AllEmitted(listing, step, page + 1, maxPages), cap);
    }
  }

  /**
   * Taking up to the cap from one page's records, and then, below the cap, from the
   * later pages' records, takes up to the cap from all of them.
   */
  lemma TakeThenRest<R>(acc: seq<R>, em: seq<R>, rest: seq<R>, cap: int)
    ensures var mid := acc + Take(em, cap - |acc|);
      (if |mid| >= cap then mid else mid + Take(rest, cap - |mid|)) == acc + Take(em + rest, cap - |acc|)
  {
    var n := cap - |acc|;
    TakeAppend(em, rest, n);
    var mid := acc + Take(em, n);
    if |mid| < cap {
      assert mid + Take(rest, cap - |mid|) == acc + (em + Take(rest, n - |em|));
    }
  }

  /** The index of the first link whose step fails, if any. */
  function FirstFail<L, R, E>(step: L -> Step<R, E>, links: seq<L>): (r: Option<nat>)
    ensures r.None? <==> forall k :: 0 <= k < |links| ==> !step(links[k]).Fail?
    ensures r.Some? ==> r.value < |links| && step(links[r.value]).Fail?
                        && forall j :: 0 <= j < r.value ==> !step(links[j]).Fail?
  {
    if links == [] then None
    else if step(links[0]).Fail? then Some(0)
    else
      match FirstFail(step, links[1..])
      case None => None
      case Some(k) => Some(k + 1)
  }

  /**
   * The article loop exactly: it raises the error of the first failing link when that
   * link is reached before the cap, and otherwise appends the first records the links
   * emit, in link order, up to the cap.
   */
  lemma {:induction false} ArticlesFromFirstFail<L, R, E>(step: L -> Step<R, E>, links: seq<L>, acc: seq<R>, cap: int)
    ensures var f := FirstFail(step, links);
      ArticlesFrom(step, links, acc, cap)
      == if f.Some? && |acc| + |Emitted(step, links[..f.value])| < cap then Err(step(links[f.value]).error)
         else Ok(acc + Take(Emitted(step, links), cap - |acc|))
    decreases |links|
  {
    if links == [] {
      assert acc + Take([], cap - |acc|) == acc;
    } else if |acc| >= cap {
      assert acc + Take(Emitted(step, links), cap - |acc|) == acc;
    } else if step(links[0]).Fail? {
      assert FirstFail(step, links) == Some(0) && links[..0] == [];
    } else {
      var rest := links[1..];
      var s := step(links[0]);
      var head: seq<R> := if s.Emit? then [s.record] else [];
      ArticlesFromFirstFail(step, rest, acc + head, cap);
      FirstFailCons(step, links, acc, cap);
      TakeHead(acc, head, Emitted(step, rest), cap);
    }
  }

  /** Records appended one step early are the first of those taken up to the cap. */
  lemma TakeHead<R>(acc: seq<R>, head: seq<R>, em: seq<R>, cap: int)
    requires |acc| < cap && |head| <= 1
    ensures (acc + head) + Take(em, cap - |acc + head|) == acc + Take(head + em, cap - |acc|)
  {
    TakeAppend(head, em, cap - |acc|);
  }

  /** One link that does not fail: the loop moves on, and the first failure moves one place. */
  lemma FirstFailCons<L, R, E>(step: L -> Step<R, E>, links: seq<L>, acc: seq<R>, cap: int)
    requires links != [] && |acc| < cap && !step(links[0]).Fail?
    ensures var s, rest := step(links[0]), links[1..];
      var head: seq<R> := if s.Emit? then [s.record] else [];
      var f, fr := FirstFail(step, links), FirstFail(step, rest);
      ArticlesFrom(step, links, acc, cap) == ArticlesFrom(step, rest, acc + head, cap)
      && Emitted(step, links) == head + Emitted(step, rest)
      && f == (if fr.Some? then Some(fr.value + 1) else None)
      && (fr.Some? ==> Emitted(step, links[..fr.value + 1]) == head + Emitted(step, rest[..fr.value])
                       && links[fr.value + 1] == rest[fr.value])
  {
    var rest := links[1..];
    var fr := FirstFail(step, rest);
    if step(links[0]).Skip? {
      assert acc + [] == acc;
    }
    if fr.Some? {
      assert links[..fr.value + 1][1..] == rest[..fr.value];
    }
  }

  /** Links none of which emits emit nothing. */
  lemma {:induction false} EmittedNone<L, R, E>(step: L -> Step<R, E>, links: seq<L>)
    requires forall l :: !step(l).Emit?
    ensures Emitted(step, links) == []
    decreases |links|
  {
    if links != [] {
      assert !step(links[0]).Emit?;
      EmittedNone(step, links[1..]);
    }
  }

  /** The links of the listing pages from `page` to `maxPages` that load, page by page. */
  function AllLinks<L>(listing: nat -> Option<seq<L>>, page: nat, maxPages: int): seq<L>
    decreases maxPages + 1 - page
  {
    if page > maxPages then []
    else (match listing(page) case None => [] case Some(links) => links) + AllLinks(listing, page + 1, maxPages)
  }

  /** Running the article loop over two lists of links runs it over the first, then from there over the second. */
  lemma {:induction false} ArticlesFromAppend<L, R, E>(step: L -> Step<R, E>, a: seq<L>, b: seq<L>, acc: seq<R>, cap: int)
    ensures ArticlesFrom(step, a + b, acc, cap)
            == match ArticlesFrom(step, a, acc, cap) case Err(e) => Err(e) case Ok(mid) => ArticlesFrom(step, b, mid, cap)
    decreases |a|
  {
    if a == [] {
      assert a + b == b;
    } else if |acc| < cap {
      assert (a + b)[0] == a[0] && (a + b)[1..] == a[1..] + b;
      match step(a[0])
      case Skip => ArticlesFromAppend(step, a[1..], b, acc, cap);
      case Emit(r) => ArticlesFromAppend(step, a[1..], b, acc + [r], cap);
      case Fail(e) =>
    }
  }

  /**
   * The page loop is the article loop over the links of every listing page that loads,
   * in page order: a page that does not load adds no link, and once the cap is reached
   * no later link is visited.
   */
  lemma {:induction false} PagesFromFlat<L, R, E>(listing: nat -> Option<seq<L>>, step: L -> Step<R, E>,
                                                  page: nat, maxPages: int, acc: seq<R>, cap: int)
    ensures PagesFrom(listing, step, page, maxPages, acc, cap) == ArticlesFrom(step, AllLinks(listing, page, maxPages), acc, cap)
    decreases maxPages + 1 - page
  {
    if page <= maxPages {
      var rest := AllLinks(listing, page + 1, maxPages);
      match listing(page)
      case None =>
        assert AllLinks(listing, page, maxPages) == [] + rest && [] + rest == rest;
        PagesFromFlat(listing, step, page + 1, maxPages, acc, cap);
      case Some(links) =>
        assert AllLinks(listing, page, maxPages) == links + rest;
        ArticlesFromAppend(step, links, rest, acc, cap);
        var mid := ArticlesFrom(step, links, acc, cap);
        if mid.Ok? {
          if |mid.value| >= cap {
            assert ArticlesFrom(step, rest, mid.value, cap) == Ok(mid.value);
          } else {
            PagesFromFlat(listing, step, page + 1, maxPages, mid.value, cap);
          }
        }
    }
  }

  /**
   * The page loop from page 1 with no records yet, exactly: the article loop's outcome
   * over the links of every listing page that loads.
   */
  lemma PagesFromFirstFail<L, R, E>(listing: nat -> Option<seq<L>>, step: L -> Step<R, E>, maxPages: int, cap: int)
    ensures var links := AllLinks(listing, 1, maxPages);
      var f := FirstFail(step, links);
      PagesFrom(listing, step, 1, maxPages, [], cap)
      == if f.Some? && |Emitted(step, links[..f.value])| < cap then Err(step(links[f.value]).error)
         else Ok(Take(Emitted(step, links), cap))
  {
    var links := AllLinks(listing, 1, maxPages);
    PagesFromFlat(listing, step, 1, maxPages, [], cap);
    ArticlesFromFirstFail(step, links, [], cap);
    assert [] + Take(Emitted(step, links), cap - 0) == Take(Emitted(step, links), cap);
  }

  /** When no listing page can be loaded, the page loop returns what it started with. */
  lemma {:induction false} PagesFromNoListing<L, R, E>(listing: nat -> Option<seq<L>>, step: L -> Step<R, E>,
                                                       page: nat, maxPages: int, acc: seq<R>, cap: int)
    requires forall pg :: listing(pg).None?
    ensures PagesFrom(listing, step, page, maxPages, acc, cap) == Ok(acc)
    decreases maxPages + 1 - page
  {
    if page <= maxPages {
      assert listing(page).None?;
      PagesFromNoListing(listing, step, page + 1, maxPages, acc, cap);
    }
  }
}
