/**
 * The page fetcher: `_safe_get` retries `driver.get(url)` and reports whether one of the
 * attempts succeeded; after a success, `driver.page_source` is the page for that URL.
 */
module Fetch {

  import opened Wrappers
  import opened Page

  /**
   * A browser session: whether the i-th `driver.get(url)` attempt succeeds, and the page
   * it then shows. Attempts and pages are fixed per URL.
   */
  datatype Browser = Browser(attempt: (string, nat) -> bool, render: string -> Document)

  /** `_safe_get`'s default number of attempts. */
  const Retries: int := 3

  /** Some attempt among the first `n` succeeds. */
  function AnyAttempt(b: Browser, url: string, n: int): bool
    decreases n
  {
    n > 0 && (AnyAttempt(b, url, n - 1) || b.attempt(url, n - 1))
  }

  lemma {:induction false} AnyAttemptIff(b: Browser, url: string, n: int)
    ensures AnyAttempt(b, url, n) <==> exists i :: 0 <= i < n && b.attempt(url, i)
    decreases n
  {
    if n > 0 {
      AnyAttemptIff(b, url, n - 1);
    }
  }

  /**
   * `_safe_get(driver, url, retries)`: at most `retries` attempts, True at the first one
   * that succeeds, False only when every attempt failed. `tries` is how many calls to
   * `driver.get` were made; the sleeps between them are not modelled.
   */
  method SafeGet(b: Browser, url: string, retries: int) returns (ok: bool, tries: nat)
    ensures ok <==> exists i :: 0 <= i < retries && b.attempt(url, i)
    ensures ok ==> 1 <= tries <= retries && b.attempt(url, tries - 1)
    ensures forall i :: 0 <= i < tries - 1 ==> !b.attempt(url, i)
    ensures !ok ==> tries == (if retries > 0 then retries else 0)
  {
    var i := 0;
    while i < retries
      invariant 0 <= i && (retries > 0 ==> i <= retries) && (retries <= 0 ==> i == 0)
      invariant forall j :: 0 <= j < i ==> !b.attempt(url, j)
    {
      if b.attempt(url, i) {
        return true, i + 1;
      }
      i := i + 1;
    }
    return false, i;
  }

  /** What a runner gets for `url`: the rendered page when `_safe_get` succeeds, None otherwise. */
  function Visit(b: Browser, url: string): Option<Document>
  {
    if AnyAttempt(b, url, Retries) then Some(b.render(url)) else None
  }
}
