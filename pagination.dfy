/** The page selector under the listing (`src/components/Pagination.tsx`): a
    window of page numbers around the current page plus the first and last,
    ellipses over gaps, and navigation that writes `page` into the URL. */
module Pagination {
  import opened Wrappers
  import opened Text
  import opened SearchParams

  /** Page `p` gets a button: it is the first, the last, or next to the
      current page. */
  predicate InWindow(p: int, page: int, totalPages: int) {
    p == 1 || p == totalPages || (page - 1 <= p && p <= page + 1)
  }

  predicate StrictlyIncreasing(s: seq<int>) {
    forall i, j | 0 <= i < j < |s| :: s[i] < s[j]
  }

  /** The numbers `from..totalPages` that are in the window, in order. */
  function WindowFrom(from: int, page: int, totalPages: int): (pages: seq<int>)
    decreases totalPages - from
    ensures StrictlyIncreasing(pages)
    ensures forall p :: p in pages <==> from <= p <= totalPages && InWindow(p, page, totalPages)
  {
    if from > totalPages then []
    else
      var rest := WindowFrom(from + 1, page, totalPages);
      if InWindow(from, page, totalPages) then
        assert forall j | 0 <= j < |rest| :: rest[j] in rest;
        [from] + rest
      else rest
  }

  /** `pages`. */
  function Pages(page: int, totalPages: int): (pages: seq<int>)
    ensures StrictlyIncreasing(pages)
    ensures forall p :: p in pages <==> 1 <= p <= totalPages && InWindow(p, page, totalPages)
  {
    WindowFrom(1, page, totalPages)
  }

  /** A sequence of distinct elements drawn from `s` is no longer than `s`. */
  lemma {:induction false} DistinctWithin(xs: seq<int>, s: set<int>)
    requires StrictlyIncreasing(xs)
    requires forall x | x in xs :: x in s
    ensures |xs| <= |s|
  {
    if xs != [] {
      var rest := xs[1..];
      assert StrictlyIncreasing(rest) by {
        forall i, j | 0 <= i < j < |rest| ensures rest[i] < rest[j] {
          assert rest[i] == xs[i + 1] && rest[j] == xs[j + 1];
        }
      }
      forall x | x in rest ensures x in s - {xs[0]} {
        var j :| 0 <= j < |rest| && rest[j] == x;
        assert xs[0] < xs[j + 1] == x;
      }
      DistinctWithin(rest, s - {xs[0]});
      assert xs[0] in s;
      assert |s - {xs[0]}| == |s| - 1;
    }
  }

  /** At most five buttons, and the first and last pages always have one. */
  lemma PagesBounds(page: int, totalPages: int)
    requires totalPages >= 1
    ensures |Pages(page, totalPages)| <= 5
    ensures 1 in Pages(page, totalPages) && totalPages in Pages(page, totalPages)
    ensures Pages(page, totalPages)[0] == 1 && Pages(page, totalPages)[|Pages(page, totalPages)| - 1] == totalPages
  {
    var pages := Pages(page, totalPages);
    var s := {1, totalPages, page - 1, page, page + 1};
    assert |s| <= 5 by {
      assert s == {1} + {totalPages} + {page - 1} + {page} + {page + 1};
    }
    DistinctWithin(pages, s);
    assert 1 in pages;
    var last := |pages| - 1;
    assert pages[0] in pages && pages[last] in pages;
    assert forall k | 0 <= k < |pages| :: pages[0] <= pages[k] <= pages[last];
    assert totalPages in pages;
  }

  /** `prev && p - prev > 1`: `prev` is `pages[i - 1]`, undefined for the first
      entry, and a zero would count as false. */
  predicate Ellipsis(pages: seq<int>, i: nat)
    requires i < |pages|
  {
    i > 0 && pages[i - 1] != 0 && pages[i] - pages[i - 1] > 1
  }

  /** An ellipsis goes before an entry exactly when a page between it and the
      previous entry has no button. */
  lemma EllipsisMarksGap(page: int, totalPages: int, i: nat)
    requires i < |Pages(page, totalPages)|
    ensures Ellipsis(Pages(page, totalPages), i) <==>
      i > 0 && exists p :: Pages(page, totalPages)[i - 1] < p < Pages(page, totalPages)[i] && 1 <= p <= totalPages && p !in Pages(page, totalPages)
  {
    var pages := Pages(page, totalPages);
    if i > 0 {
      assert pages[i - 1] in pages && pages[i] in pages;
      if pages[i] - pages[i - 1] > 1 {
        var p := pages[i - 1] + 1;
        forall k | 0 <= k < |pages| ensures pages[k] != p {
          if k < i - 1 {
            assert pages[k] < pages[i - 1];
          } else if i < k {
            assert pages[i] < pages[k];
          }
        }
        assert pages[i - 1] < p < pages[i] && 1 <= p <= totalPages && p !in pages;
      }
    }
  }

  /** Nothing is rendered for a single page or none. */
  function Rendered(totalPages: int): (shown: bool)
    ensures shown <==> totalPages >= 2
  {
    !(totalPages <= 1)
  }

  predicate PrevDisabled(page: int) { page == 1 }
  predicate NextDisabled(page: int, totalPages: int) { page == totalPages }

  /** On a page within range, the current page has a button, and an enabled
      arrow leads to a page that has one too. */
  lemma ArrowsStayInWindow(page: int, totalPages: int)
    requires 1 <= page <= totalPages
    ensures page in Pages(page, totalPages)
    ensures !PrevDisabled(page) ==> page - 1 in Pages(page, totalPages)
    ensures !NextDisabled(page, totalPages) ==> page + 1 in Pages(page, totalPages)
  {
  }

  /** `goTo(p)`: the copy's `page` becomes `String(p)`, which reads back as `p`;
      nothing else changes. */
  method GoTo(params: Params, p: int) returns (pushed: Params)
    ensures Get(pushed, "page") == Some(IntToString(p)) && Count(pushed, "page") == 1
    ensures ParseNumber(Get(pushed, "page").value) == Num(p)
    ensures forall k | k != "page" :: Get(pushed, k) == Get(params, k) && Count(pushed, k) == Count(params, k)
  {
    var sp := params;
    sp := Set(sp, "page", IntToString(p));
    IntToStringRoundTrip(p);
    pushed := sp;
  }
}
