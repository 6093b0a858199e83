# go-news pagination, modelled in Dafny

go-news is a small web server. It takes a search term `q` and a page
number `page`, asks an external news-search API for one page of 20
articles, and renders the results with "previous" and "next" links. This
project models the part of it that has logic of its own: the `Search`
record and its derived page queries, the pagination steps of
`searchHandler`, and the date line shown for each article.

Modules, one per concern of `main.go`:

- `GoInt` (goint.dfy): the int64 range of Go's `int` and Go's `/`, which truncates toward zero.
- `Strconv` (strconv.dfy): `%d` formatting (`Itoa`) and `strconv.Atoi` (optional sign, one or more ASCII digits, int64 range), with the round trip between them.
- `Articles` (articles.dfy): `Article`, its `Source`, the month names and `FormatPublishedDate`.
- `Pagination` (search.dfy): the `Search` class with `IsLastPage`, `CurrentPage`, `PreviousPage`, and the two steps that update it after the upstream answers: `UpdateTotalPages` and `AdvancePage`.
- `Handler` (handler.dfy): `SearchHandler`, the `/search` route from the query parameters to either an error status or a rendered `Search`. The upstream call is a parameter `fetch` from the request the handler builds (query, page size, page) to what came back. Five scenario methods state what the handler gives for fixed inputs.

Two points where the code does less than it appears to intend:

- `math.Ceil` at main.go:134 shows that the page count was meant to be rounded up. But `TotalResults / pageSize` is integer division, done before the conversion to `float64`, so the ceiling has nothing to round. 45 results give 2 pages, not 3. The model keeps the truncation, and `Pagination.TotalPagesUndercounts` states how the stored value relates to the pages actually needed.
- Nothing at main.go:105-111 checks the range of the parsed page. `strconv.Atoi` accepts `"0"` and `"-3"`, so no invariant of `Search` assumes a positive page. The properties that need one say so in their own premises.

The Go result type `Results` is called `ResultSet` here. The class field that holds it keeps the Go name `Results`.

## Model

| member | source | states |
|---|---|---|
| GoInt.Quo | main.go:134 | Go's integer `/` by the page size: the quotient has the sign of the dividend, `q*b` is within one divisor of the dividend on the zero side, and it stays in int64 |
| Strconv.NatDigits | main.go:42 | `%d` writes at least one ASCII digit and never pads with zeros: a leading '0' only for 0 itself |
| Strconv.Itoa | main.go:42 | `%d` of an int: digits only for non-negative numbers, '-' then digits for negative ones, never a comma or a space |
| Strconv.DigitsValueOfNatDigits | main.go:42 | reading the printed digits back gives the number printed |
| Strconv.ParseDecimalOfItoa | main.go:42 | the decimal syntax reads any printed integer back exactly |
| Strconv.ItoaInjective | main.go:42 | distinct integers are printed differently |
| Strconv.Atoi | main.go:105 | a successful `strconv.Atoi` returns an int64, from non-empty text starting with a digit or a sign |
| Strconv.AtoiOfItoa | main.go:105 | `strconv.Atoi` inverts `%d` on every int64 |
| Strconv.AtoiRejectsNoDigits | main.go:105-109 | the empty text and a bare sign are parse errors |
| Strconv.AtoiRejectsNonDigit | main.go:105-109 | any non-digit other than a leading sign is a parse error |
| Strconv.AtoiRejectsOutOfRange | main.go:105-109 | well-formed text whose value is outside int64 is a parse error |
| Strconv.AtoiAcceptsZeroAndNegative | main.go:105-111 | "0", "-3" and "+7" are accepted as they are: page numbers are not range-checked |
| Articles.MonthName | main.go:42 | `%v` of a month is its English name: a capital letter, then letters, at least three of them |
| Articles.MonthNameInjective | main.go:42 | the twelve month names are distinct |
| Articles.FormatPublishedDate | main.go:40-43 | the date line is the full month name, a space, the day, ", " and the year; the day between them is ASCII digits with no zero padding and reads back as the day of the month |
| Articles.DateLineInjective | main.go:40-43 | two dates with the same date line are the same date, so different publication dates never look alike |
| Articles.FormatPublishedDateExample | main.go:40-43 | 5 March 2021 is shown as "March 5, 2021" |
| Pagination.TotalPagesUndercounts | main.go:134 | the stored page count never exceeds the pages needed, equals it exactly when the total is a multiple of 20, and covers no more results than reported |
| Pagination.TotalPagesExamples | main.go:134 | 45 results give 2 pages (3 would be needed), 40 give 2, 19 give 0 |
| Pagination.Search.constructor | main.go:102 | a new `Search` has every field at its zero value |
| Pagination.Search.IsLastPage | main.go:59-61 | with at most one page counted, every page from 1 on is the last; off the last page the next page number is within the page count and fits an int64 |
| Pagination.Search.CurrentPage | main.go:69-75 | the current page is `NextPage` or one below it, equal to `NextPage` exactly when that is 1, and at least 1 whenever `NextPage` is |
| Pagination.Search.PreviousPage | main.go:63-66 | the previous page is one below the current page: 0 when `NextPage` is 1, otherwise `NextPage - 2`; for `NextPage >= 1` it is non-negative and 0 exactly when `NextPage` is 1 or 2 |
| Pagination.Search.UpdateTotalPages | main.go:134 | only `TotalPages` changes; it becomes the truncated quotient of `TotalResults` by 20, so for a non-negative total `TotalPages*20 <= TotalResults < (TotalPages+1)*20` |
| Pagination.Search.AdvancePage | main.go:135-137 | only `NextPage` changes: up by exactly one when not on the last page, never past `TotalPages` and without overflow, and for a fetched page of at least 1 the fetched page becomes the current page; unchanged on the last page, where the current page reads one below the fetched page unless that is 1 |
| Handler.DefaultPage | main.go:97-100 | an absent or empty `page` parameter becomes "1", which parses as page 1; any other value is kept as it is |
| Handler.Usable | main.go:115-132 | an unreachable upstream or a status other than 200 is never usable; a usable response has a decoded body whose page count fits an int64 |
| Handler.SearchHandler | main.go:95-137 | an empty `page` reads as "1"; a page that does not parse gives 500 with the body "Unexpected server error" and a newline, before any upstream call; the upstream is asked for the parsed page with page size 20; an unreachable upstream, a non-200 status or an undecodable body gives 500 with an empty body; otherwise a fresh `Search` holds the key, the results, the truncated page count and the advanced next page |
| Handler.FirstPageAdvances | main.go:97-137 | page 1 with 45 results: 2 pages, next page 2 |
| Handler.MissingPageIsFirst | main.go:97-100 | no `page` parameter: next page 2, current page 1 |
| Handler.ThirdPageIsLast | main.go:134-137 | page 3 with 45 results: last page, next page stays 3, current page shows 2 |
| Handler.NonNumericPageFails | main.go:105-109 | page "abc": status 500, body "Unexpected server error" followed by a newline |
| Handler.UpstreamErrorFails | main.go:123-126 | upstream status 503: status 500 with an empty body |

## Left out

- HTTP plumbing (`indexHandler`, `ServeMux`, the static file server, `ListenAndServe`, response writing) is I/O with no logic of its own.
- Parsing the request URL and its query string (`url.Parse`, `u.Query()`, `params.Get`): the handler takes `q` and `page` as strings, "" when absent. The error branch of `url.Parse` at main.go:88-93 is not modelled.
- Building the upstream URL (`url.QueryEscape`, the API key, `sortBy`, `language`) and `http.Get`: the model keeps only the parts of the request that vary (query, page size 20, page), and `fetch` stands for the network call.
- JSON decoding: `fetch` returns the decoded `ResultSet` or `None` for an undecodable body. A `totalResults` outside int64 counts as undecodable, as Go's decoder reports an error for it.
- Template parsing and execution, including the 500 written when rendering fails: a rendered outcome stops at the populated `Search`.
- Startup (`PORT`, the `-apikey` flag, `log.Fatal`) is process configuration.
- `time.Time.Date()`: a publication date is given as year, month and day, with no timestamps or time zones.
- `Source.ID` is loosely typed in Go. Here it is a string or absent, and no logic depends on it.
- Strconv.Atoi: one `None` stands for every error, without Go's distinction between a syntax error and a range error. The handler treats both alike.
- Pagination.Search.UpdateTotalPages: does not model `float64` rounding of the quotient. It is exact when the quotient is at most 2^53 in magnitude, which needs more than 1.8e17 results to fail.
- The model assumes a 64-bit platform (`int` is int64).
