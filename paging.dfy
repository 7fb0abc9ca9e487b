/** Page arithmetic of the asset table in cryptoInvestor.js: page count, clamping,
    the slice shown for a page, when the controls appear, and the prev/next steps. */
module Paging {
  import opened Js

  /** `PAGE_SIZE` (cryptoInvestor.js:30). */
  const PAGE_SIZE: nat := 10

  function Max(a: int, b: int): int { if a < b then b else a }
  function Min(a: int, b: int): int { if a < b then a else b }

  /** `Math.ceil(n / PAGE_SIZE)`: the fewest pages of PAGE_SIZE rows that hold n rows
      (0 for an empty list). */
  function PageCount(n: nat): (r: nat)
    ensures n <= r * PAGE_SIZE
    ensures r > 0 ==> (r - 1) * PAGE_SIZE < n
    ensures r == 0 <==> n == 0
  {
    (n + PAGE_SIZE - 1) / PAGE_SIZE
  }

  /** `Math.max(1, Math.min(page, pages))`: a page within [1, pages], or 1 when there
      are no pages at all. */
  function ClampPage(page: int, pages: nat): (r: int)
    ensures 1 <= r <= Max(1, pages)
    ensures 1 <= page <= pages ==> r == page
    ensures page > pages ==> r == Max(1, pages)
    ensures page < 1 ==> r == 1
  {
    Max(1, Min(page, pages))
  }

  /** `startingPageIndex` for a page. */
  function PageStart(page: int): int {
    (page - 1) * PAGE_SIZE
  }

  /** `endingPageIndex` for a page over n rows. */
  function PageEnd(page: int, n: nat): int {
    Min(page * PAGE_SIZE, n)
  }

  /** `priceList.slice(startingPageIndex, endingPageIndex)`. */
  function Page<T>(rows: seq<T>, page: int): seq<T> {
    Slice(rows, PageStart(page), PageEnd(page, |rows|))
  }

  /** A page in range, or page 1 of an empty list. */
  predicate InRange(page: int, n: nat) {
    1 <= page <= Max(1, PageCount(n))
  }

  /** The page shown for a page number in range is the contiguous block of rows
      starting at (page - 1) * PAGE_SIZE, at most PAGE_SIZE rows long, and it is empty
      only when the whole list is. */
  lemma PageShape<T>(rows: seq<T>, page: int)
    requires InRange(page, |rows|)
    ensures 0 <= PageStart(page) <= PageEnd(page, |rows|) <= |rows|
    ensures Page(rows, page) == rows[PageStart(page)..PageEnd(page, |rows|)]
    ensures 0 < |Page(rows, page)| <= PAGE_SIZE || (|Page(rows, page)| == 0 && rows == [])
  {
    var n := |rows|;
    if n > 0 {
      assert (PageCount(n) - 1) * PAGE_SIZE < n;
      assert (page - 1) * PAGE_SIZE <= (PageCount(n) - 1) * PAGE_SIZE;
    }
  }

  /** The first k pages laid end to end. */
  function FirstPages<T>(rows: seq<T>, k: nat): seq<T> {
    if k == 0 then [] else FirstPages(rows, k - 1) + Page(rows, k)
  }

  lemma {:induction false} FirstPagesPrefix<T>(rows: seq<T>, k: nat)
    ensures FirstPages(rows, k) == rows[..Min(k * PAGE_SIZE, |rows|)]
  {
    if k > 0 {
      FirstPagesPrefix(rows, k - 1);
      var lo, hi := Min((k - 1) * PAGE_SIZE, |rows|), Min(k * PAGE_SIZE, |rows|);
      assert Page(rows, k) == rows[lo..hi];
      assert rows[..lo] + rows[lo..hi] == rows[..hi];
    }
  }

  /** Paging through pages 1 .. PageCount(n) shows every row exactly once, in order. */
  lemma PagesCoverList<T>(rows: seq<T>)
    ensures FirstPages(rows, PageCount(|rows|)) == rows
  {
    FirstPagesPrefix(rows, PageCount(|rows|));
  }

  /** `isPaginator`: `priceList.length >= PAGE_SIZE + 1`. */
  predicate ShowsControls(n: nat) {
    n >= PAGE_SIZE + 1
  }

  /** The controls appear exactly when there is more than one page: a list of exactly
      PAGE_SIZE rows fits on one page and shows none. */
  lemma ControlsIffSeveralPages(n: nat)
    ensures ShowsControls(n) <==> PageCount(n) >= 2
  {
    if ShowsControls(n) {
      assert PageCount(n) * PAGE_SIZE >= n > PAGE_SIZE;
    }
  }

  /** `nextHandler`'s guard: one page forward unless already on the last page. */
  function NextPage(page: int, pages: nat): (r: int)
    ensures page < pages ==> r == page + 1
    ensures page >= pages ==> r == page
    ensures 1 <= page <= Max(1, pages) ==> 1 <= r <= Max(1, pages)
  {
    if page < pages then page + 1 else page
  }

  /** `prevHandler`'s guard: one page back unless already on the first page. */
  function PrevPage(page: int): (r: int)
    ensures page > 1 ==> r == page - 1
    ensures page <= 1 ==> r == page
    ensures 1 <= page ==> 1 <= r <= page
  {
    if page > 1 then page - 1 else page
  }

  /** Pressing "next" k times from a page in range stops at the last page; it never
      wraps around. */
  function NextTimes(page: int, pages: nat, k: nat): int {
    if k == 0 then page else NextPage(NextTimes(page, pages, k - 1), pages)
  }

  lemma {:induction false} NextTimesSaturates(page: int, pages: nat, k: nat)
    requires 1 <= page <= pages
    ensures NextTimes(page, pages, k) == Min(page + k, pages)
  {
    if k > 0 {
      NextTimesSaturates(page, pages, k - 1);
    }
  }

  /** "prev" undoes "next" away from the last page, and "next" undoes "prev" away
      from the first. */
  lemma PrevNextInverse(page: int, pages: nat)
    requires 1 <= page <= pages
    ensures page < pages ==> PrevPage(NextPage(page, pages)) == page
    ensures page > 1 ==> NextPage(PrevPage(page), pages) == page
  {
  }
}
