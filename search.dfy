/**
 * The per-request pagination record and the two steps of the search handler
 * that change it after the upstream results have arrived.
 */
module Pagination {
  import opened GoInt
  import opened Articles

  /** The number of articles requested per page. */
  const PageSize: int := 20

  /** The decoded upstream response: status text, reported total, the page's articles in upstream order. */
  datatype ResultSet = ResultSet(status: string, totalResults: int, articles: seq<Article>)

  /**
   * The number of pages that `TotalPages` would hold if the ceiling were
   * taken of the true quotient; used only to state how the stored value
   * differs from it.
   */
  function PagesNeeded(total: nat): nat {
    (total + PageSize - 1) / PageSize
  }

  /**
   * With the division done on integers first, the ceiling has nothing to
   * round: `TotalPages` is one short of the pages needed whenever the total
   * is not a multiple of the page size, and the last partial page is never
   * counted.
   */
  lemma TotalPagesUndercounts(total: nat)
    ensures Quo(total, PageSize) <= PagesNeeded(total)
    ensures Quo(total, PageSize) == PagesNeeded(total) <==> total % PageSize == 0
    ensures Quo(total, PageSize) * PageSize <= total
  {
  }

  /** 45 results give 2 pages, 40 give 2, 19 give none. */
  lemma TotalPagesExamples()
    ensures Quo(45, PageSize) == 2 && PagesNeeded(45) == 3
    ensures Quo(40, PageSize) == 2 && Quo(19, PageSize) == 0
  {
  }

  class Search {
    var SearchKey: string
    var NextPage: int
    var TotalPages: int
    var Results: ResultSet

    /** Every integer field holds a Go `int`. */
    ghost predicate Valid()
      reads this
    {
      IsInt64(NextPage) && IsInt64(TotalPages) && IsInt64(Results.totalResults)
    }

    /** `&Search{}`: every field at its zero value. */
    constructor ()
      ensures Valid()
      ensures SearchKey == "" && NextPage == 0 && TotalPages == 0
      ensures Results == ResultSet("", 0, [])
    {
      SearchKey := "";
      NextPage := 0;
      TotalPages := 0;
      Results := ResultSet("", 0, []);
    }

    /**
     * No further page exists: the page to link to next is not below the page
     * count. With at most one page counted, every page from 1 on is the last;
     * off the last page the following page number is still within the count,
     * so moving to it neither passes the count nor overflows an int64.
     */
    predicate IsLastPage()
      reads this
      ensures TotalPages <= 1 && NextPage >= 1 ==> IsLastPage()
      ensures Valid() && !IsLastPage() ==> NextPage + 1 <= TotalPages && IsInt64(NextPage + 1)
    {
      NextPage >= TotalPages
    }

    /**
     * The page being shown: the one before `NextPage`, except that page 1 is
     * its own current page. It is never more than one below `NextPage`, and
     * at least 1 whenever `NextPage` is.
     */
    function CurrentPage(): (r: int)
      reads this
      ensures r <= NextPage <= r + 1
      ensures NextPage == r <==> NextPage == 1
      ensures NextPage >= 1 ==> r >= 1
    {
      if NextPage == 1 then NextPage else NextPage - 1
    }

    /**
     * One before the current page: 0 for `NextPage` 1, otherwise two below
     * `NextPage`; 0 exactly when `NextPage` is 1 or 2.
     */
    function PreviousPage(): (r: int)
      reads this
      ensures r == (if NextPage == 1 then 0 else NextPage - 2)
      ensures NextPage - 2 <= r < NextPage
      ensures NextPage >= 1 ==> r >= 0 && (r == 0 <==> NextPage <= 2)
    {
      CurrentPage() - 1
    }

    /**
     * `TotalPages = int(math.Ceil(float64(Results.TotalResults / pageSize)))`:
     * Go's truncating division by 20; the ceiling of an integer changes
     * nothing.
     */
    method UpdateTotalPages()
      requires Valid()
      modifies this`TotalPages
      ensures Valid()
      ensures TotalPages == Quo(Results.totalResults, PageSize)
      ensures Results.totalResults >= 0 ==>
        0 <= TotalPages && TotalPages * PageSize <= Results.totalResults < (TotalPages + 1) * PageSize
    {
      TotalPages := Quo(Results.totalResults, PageSize);
    }

    /**
     * `if !IsLastPage() { NextPage++ }`. The increment never overflows, an
     * advanced `NextPage` never passes `TotalPages`, and the current page
     * afterwards is the page that was fetched. On the last page nothing
     * moves, and the current page then reads one below the fetched page
     * unless that page is 1.
     */
    method AdvancePage()
      requires Valid()
      modifies this`NextPage
      ensures Valid()
      ensures old(IsLastPage()) ==> NextPage == old(NextPage)
      ensures !old(IsLastPage()) ==> NextPage == old(NextPage) + 1 && NextPage <= TotalPages
      ensures !old(IsLastPage()) && old(NextPage) >= 1 ==> CurrentPage() == old(NextPage)
      ensures old(IsLastPage()) && old(NextPage) != 1 ==> CurrentPage() == old(NextPage) - 1
    {
      if !IsLastPage() {
        NextPage := NextPage + 1;
      }
    }
  }
}
