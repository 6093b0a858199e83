/**
 * The `/search` route: read `q` and `page`, fill a fresh `Search`, query the
 * upstream news API once, then compute the pagination. The upstream call is
 * the parameter `fetch`, which maps the request the handler builds to what
 * came back.
 */
module Handler {
  import opened Wrappers
  import opened GoInt
  import opened Strconv
  import opened Pagination

  const StatusOK: int := 200
  const StatusInternalServerError: int := 500

  /** The parameters of the upstream query that depend on the request. */
  datatype UpstreamRequest = UpstreamRequest(query: string, pageSize: int, page: int)

  /**
   * What the upstream call produced: no response at all, or a status code
   * and a body that either decodes into a result set or does not (`None`).
   */
  datatype Fetch = Unreachable | Response(statusCode: int, body: Option<ResultSet>)

  /**
   * The response of the route: an error status with the exact body written
   * (`http.Error` ends its message with a newline; a bare `WriteHeader`
   * writes nothing), or the page rendered from a search.
   */
  datatype Outcome = Failed(status: int, message: string) | Rendered(search: Search)

  /**
   * The upstream answered 200 with a body that decodes; a `totalResults`
   * outside int64 does not decode into a Go `int`.
   */
  predicate Usable(f: Fetch)
    ensures f.Unreachable? ==> !Usable(f)
    ensures f.Response? && f.statusCode != StatusOK ==> !Usable(f)
    ensures Usable(f) ==> f.body.Some? && IsInt64(Quo(f.body.value.totalResults, PageSize))
  {
    f.Response? && f.statusCode == StatusOK && f.body.Some? && IsInt64(f.body.value.totalResults)
  }

  /** An absent or empty `page` parameter reads as "1". */
  function DefaultPage(raw: string): (page: string)
    ensures raw != "" ==> page == raw
    ensures raw == "" ==> Atoi(page) == Some(1)
  {
    assert ParseDigits("1") == Some(1);
    if raw == "" then "1" else raw
  }

  /** The body `http.Error` writes for a page that does not parse. */
  const ParseErrorBody: string := "Unexpected server error\n"


  method SearchHandler(q: string, pageParam: string, fetch: UpstreamRequest -> Fetch) returns (outcome: Outcome)
    ensures Atoi(DefaultPage(pageParam)).None? ==>
      outcome == Failed(StatusInternalServerError, ParseErrorBody)
    ensures Atoi(DefaultPage(pageParam)).Some? ==>
      var f := fetch(UpstreamRequest(q, PageSize, Atoi(DefaultPage(pageParam)).value));
      (outcome.Rendered? <==> Usable(f)) &&
      (!Usable(f) ==> outcome == Failed(StatusInternalServerError, ""))
    ensures outcome.Rendered? ==>
      Atoi(DefaultPage(pageParam)).Some? &&
      var page := Atoi(DefaultPage(pageParam)).value;
      var results := fetch(UpstreamRequest(q, PageSize, page)).body.value;
      var s := outcome.search;
      fresh(s) && s.Valid() &&
      s.SearchKey == q &&
      s.Results == results &&
      s.TotalPages == Quo(results.totalResults, PageSize) &&
      s.NextPage == (if page >= s.TotalPages then page else page + 1)
  {
    var page := DefaultPage(pageParam);
    var search := new Search();
    search.SearchKey := q;
    var next := Atoi(page);
    if next.None? {
      return Failed(StatusInternalServerError, ParseErrorBody);
    }
    search.NextPage := next.value;
    var response := fetch(UpstreamRequest(search.SearchKey, PageSize, search.NextPage));
    if response.Unreachable? || response.statusCode != StatusOK {
      return Failed(StatusInternalServerError, "");
    }
    if response.body.None? || !IsInt64(response.body.value.totalResults) {
      return Failed(StatusInternalServerError, "");
    }
    search.Results := response.body.value;
    search.UpdateTotalPages();
    search.AdvancePage();
    return Rendered(search);
  }

  /** An upstream that always answers 200 with 45 results and no articles on the page. */
  function FortyFiveResults(): UpstreamRequest -> Fetch {
    req => Response(StatusOK, Some(ResultSet("ok", 45, [])))
  }

  /** Page 1 of 45 results: two pages are counted and the next page is 2. */
  method FirstPageAdvances() returns (nextPage: int, totalPages: int)
    ensures totalPages == 2 && nextPage == 2
  {
    assert Atoi("1") == Some(1) by {
      assert ParseDigits("1") == Some(1);
    }
    var outcome := SearchHandler("golang", "1", FortyFiveResults());
    nextPage, totalPages := outcome.search.NextPage, outcome.search.TotalPages;
  }

  /** No `page` parameter behaves as page 1. */
  method MissingPageIsFirst() returns (nextPage: int, currentPage: int)
    ensures nextPage == 2 && currentPage == 1
  {
    assert Atoi("1") == Some(1) by {
      assert ParseDigits("1") == Some(1);
    }
    var outcome := SearchHandler("golang", "", FortyFiveResults());
    nextPage, currentPage := outcome.search.NextPage, outcome.search.CurrentPage();
  }

  /** Page 3 of 45 results is past the two counted pages: it is the last page and `NextPage` stays 3. */
  method ThirdPageIsLast() returns (lastPage: bool, nextPage: int, currentPage: int)
    ensures lastPage && nextPage == 3 && currentPage == 2
  {
    assert Atoi("3") == Some(3) by {
      assert ParseDigits("3") == Some(3);
    }
    var outcome := SearchHandler("golang", "3", FortyFiveResults());
    lastPage := outcome.search.IsLastPage();
    nextPage, currentPage := outcome.search.NextPage, outcome.search.CurrentPage();
  }

  /** A page that is not an integer ends the request before the upstream is asked. */
  method NonNumericPageFails() returns (status: int, message: string)
    ensures status == StatusInternalServerError && message == "Unexpected server error\n"
  {
    AtoiRejectsNonDigit("abc", 0);
    var outcome := SearchHandler("golang", "abc", FortyFiveResults());
    status, message := outcome.status, outcome.message;
  }

  /** An upstream 503 becomes a 500 with an empty body. */
  method UpstreamErrorFails() returns (status: int, message: string)
    ensures status == StatusInternalServerError && message == ""
  {
    assert Atoi("1") == Some(1) by {
      assert ParseDigits("1") == Some(1);
    }
    var outcome := SearchHandler("golang", "1", req => Response(503, None));
    status, message := outcome.status, outcome.message;
  }
}
