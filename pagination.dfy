/** The pager shared by the reference-data pages: a previous button that fires
    only above page 1 and a next button that fires only below the total page
    count, with callers stepping the page by one. */
module Pagination {
  import opened Wrappers

  /** `page < totalPages` where the total comes from a response that may not
      have arrived: a comparison with `undefined` is false. */
  predicate Below(page: int, totalPages: Option<int>) {
    totalPages.Some? && page < totalPages.value
  }

  /** The previous button's guard and the caller's `p - 1`. */
  function Prev(page: int): (r: int)
    ensures page > 1 ==> r == page - 1
    ensures page <= 1 ==> r == page
    ensures page >= 1 ==> r >= 1
  {
    if page > 1 then page - 1 else page
  }

  /** The next button's guard and the caller's `p + 1`. */
  function Next(page: int, totalPages: Option<int>): (r: int)
    ensures Below(page, totalPages) ==> r == page + 1 && r <= totalPages.value
    ensures !Below(page, totalPages) ==> r == page
  {
    if Below(page, totalPages) then page + 1 else page
  }

  datatype Click = PrevClick | NextClick

  /** One click of either button: a page in range stays in range, and no
      click moves the page by more than one. */
  function Step(page: int, totalPages: Option<int>, c: Click): (r: int)
    ensures InRange(page, totalPages) ==> InRange(r, totalPages)
    ensures -1 <= r - page <= 1
  {
    match c
    case PrevClick => Prev(page)
    case NextClick => Next(page, totalPages)
  }

  /** The page after a run of clicks against a fixed total; it lies no
      further from the start than the number of clicks. */
  function Run(page: int, totalPages: Option<int>, clicks: seq<Click>): (r: int)
    ensures -|clicks| <= r - page <= |clicks|
    decreases |clicks|
  {
    if clicks == [] then page else Run(Step(page, totalPages, clicks[0]), totalPages, clicks[1..])
  }

  /** A page is in range when it is at least 1 and, once a positive total is
      known, at most that total. */
  predicate InRange(page: int, totalPages: Option<int>) {
    1 <= page && (totalPages.Some? && totalPages.value >= 1 ==> page <= totalPages.value)
  }

  /** Any run of clicks keeps a page that starts in range within range. */
  lemma {:induction false} RunInRange(page: int, totalPages: Option<int>, clicks: seq<Click>)
    requires InRange(page, totalPages)
    ensures InRange(Run(page, totalPages, clicks), totalPages)
    decreases |clicks|
  {
    if clicks != [] {
      RunInRange(Step(page, totalPages, clicks[0]), totalPages, clicks[1..]);
    }
  }

  /** With at most one page (or no total yet), page 1 never moves, whatever
      is clicked. */
  lemma {:induction false} RunSinglePage(totalPages: Option<int>, clicks: seq<Click>)
    requires totalPages.None? || totalPages.value <= 1
    ensures Run(1, totalPages, clicks) == 1
    decreases |clicks|
  {
    if clicks != [] {
      assert Step(1, totalPages, clicks[0]) == 1;
      RunSinglePage(totalPages, clicks[1..]);
    }
  }

  /** Without a known total, no run of clicks ever raises the page. */
  lemma {:induction false} RunWithoutTotal(page: int, clicks: seq<Click>)
    ensures Run(page, None, clicks) <= page
    decreases |clicks|
  {
    if clicks != [] {
      RunWithoutTotal(Step(page, None, clicks[0]), clicks[1..]);
    }
  }
}
