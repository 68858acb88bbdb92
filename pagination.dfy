/** The page-by-page aggregation shared by the changed-files and reviews fetchers:
    pages are requested as 1, 2, 3, ... with a fixed page size, and requesting stops
    after the first page whose length is not exactly the page size. */
module Pagination {

  /** The `per_page` of every listing request. */
  const PerPage: nat := 100

  /** The remote listing as a page source: page p (1-based) of `pages` is `pages[p - 1]`;
      past the end of the collection the listing answers with an empty page. */
  function PageAt<T>(pages: seq<seq<T>>, p: nat): seq<T>
  {
    if 1 <= p <= |pages| then pages[p - 1] else []
  }

  /** The loop's continuation test, `length === per_page`. */
  predicate Full<T>(page: seq<T>) {
    |page| == PerPage
  }

  /** The first page, from `from` on, whose length is not the page size. */
  function FirstShortPage<T>(pages: seq<seq<T>>, from: nat): (k: nat)
    requires 1 <= from <= |pages| + 1
    ensures from <= k <= |pages| + 1
    ensures !Full(PageAt(pages, k))
    ensures forall p :: from <= p < k ==> Full(PageAt(pages, p))
    decreases |pages| + 1 - from
  {
    if !Full(PageAt(pages, from)) then from else FirstShortPage(pages, from + 1)
  }

  /** The last page the do-while loop requests, which is also the number of requests it makes. */
  function LastPage<T>(pages: seq<seq<T>>): (k: nat)
    ensures 1 <= k <= |pages| + 1
    ensures !Full(PageAt(pages, k))
    ensures forall p :: 1 <= p < k ==> Full(PageAt(pages, p))
  {
    FirstShortPage(pages, 1)
  }

  /** Pages 1..k concatenated in page order. */
  function Returned<T>(pages: seq<seq<T>>, k: nat): seq<T>
  {
    if k == 0 then [] else Returned(pages, k - 1) + PageAt(pages, k)
  }

  /** The stop page is characterised exactly: k is the last page requested if and only if
      every page before k is full and page k is not. */
  lemma LastPageIsFirstShort<T>(pages: seq<seq<T>>, k: nat)
    requires k >= 1
    ensures LastPage(pages) == k <==>
      (forall p :: 1 <= p < k ==> Full(PageAt(pages, p))) && !Full(PageAt(pages, k))
  {
  }

  /** An empty collection: the first answer is an empty page, so exactly one request is made
      and nothing is returned. */
  lemma EmptyCollectionOneRequest<T>(pages: seq<seq<T>>)
    requires PageAt(pages, 1) == []
    ensures LastPage(pages) == 1 && Returned(pages, LastPage(pages)) == []
  {
  }

  /** A page longer than the page size also ends the loop: later pages are never requested. */
  lemma OversizedPageStops<T>(pages: seq<seq<T>>)
    requires |pages| >= 1 && |pages[0]| > PerPage
    ensures LastPage(pages) == 1 && Returned(pages, LastPage(pages)) == pages[0]
  {
  }

  /** How a remote service splits a collection into pages of `PerPage` items:
      full pages, then a non-empty remainder if there is one. */
  function Chunks<T>(xs: seq<T>): (pages: seq<seq<T>>)
    decreases |xs|
  {
    if |xs| <= PerPage then (if xs == [] then [] else [xs])
    else [xs[..PerPage]] + Chunks(xs[PerPage..])
  }

  /** Putting a full page in front shifts the stop page by one. */
  lemma {:induction false} FirstShortPageShift<T>(first: seq<T>, rest: seq<seq<T>>, from: nat)
    requires Full(first) && 1 <= from <= |rest| + 1
    ensures FirstShortPage([first] + rest, from + 1) == FirstShortPage(rest, from) + 1
    decreases |rest| + 1 - from
  {
    assert PageAt([first] + rest, from + 1) == PageAt(rest, from);
    if Full(PageAt(rest, from)) {
      FirstShortPageShift(first, rest, from + 1);
    }
  }

  /** Putting a page in front puts its items in front of what the first k+1 pages return. */
  lemma {:induction false} ReturnedShift<T>(first: seq<T>, rest: seq<seq<T>>, k: nat)
    ensures Returned([first] + rest, k + 1) == first + Returned(rest, k)
    decreases k
  {
    if k == 0 {
      assert Returned([first] + rest, 1) == [] + first;
    } else {
      ReturnedShift(first, rest, k - 1);
      assert PageAt([first] + rest, k + 1) == PageAt(rest, k);
    }
  }

  /** For a collection of N items served in pages of PerPage, the loop makes N / PerPage + 1
      requests (ceil(N / PerPage) when N is not a multiple of PerPage, one more for the trailing
      empty page when it is) and returns exactly the N items in their original order. */
  lemma {:induction false} ChunkedListing<T>(xs: seq<T>)
    ensures LastPage(Chunks(xs)) == |xs| / PerPage + 1
    ensures Returned(Chunks(xs), LastPage(Chunks(xs))) == xs
    decreases |xs|
  {
    var pages := Chunks(xs);
    if |xs| < PerPage {
      assert !Full(PageAt(pages, 1));
      assert Returned(pages, 1) == [] + xs;
    } else if |xs| == PerPage {
      assert pages == [xs];
      assert Full(PageAt(pages, 1)) && PageAt(pages, 2) == [];
      assert Returned(pages, 1) == [] + xs;
      assert Returned(pages, 2) == Returned(pages, 1) + [];
    } else {
      var first, rest := xs[..PerPage], xs[PerPage..];
      assert pages == [first] + Chunks(rest);
      ChunkedListing(rest);
      FirstShortPageShift(first, Chunks(rest), 1);
      assert LastPage(pages) == LastPage(Chunks(rest)) + 1;
      ReturnedShift(first, Chunks(rest), LastPage(Chunks(rest)));
      assert first + rest == xs;
    }
  }

  /** A collection whose size is an exact multiple of PerPage costs one extra request,
      whose answer is the trailing empty page. */
  lemma {:induction false} ExactMultipleTrailingEmptyPage<T>(xs: seq<T>)
    requires |xs| % PerPage == 0
    ensures LastPage(Chunks(xs)) == |xs| / PerPage + 1
    ensures PageAt(Chunks(xs), LastPage(Chunks(xs))) == []
    decreases |xs|
  {
    ChunkedListing(xs);
    if |xs| > PerPage {
      var first, rest := xs[..PerPage], xs[PerPage..];
      assert Chunks(xs) == [first] + Chunks(rest);
      ExactMultipleTrailingEmptyPage(rest);
      assert PageAt(Chunks(xs), LastPage(Chunks(xs))) == PageAt(Chunks(rest), LastPage(Chunks(rest)));
    } else if |xs| == PerPage {
      assert Chunks(xs) == [xs];
    }
  }
}
