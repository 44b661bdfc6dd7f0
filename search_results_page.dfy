/**
  The search results page: the template with an endpoint on `search` that
  carries the term `q` of the page's own URL, and a redirect home when there
  is no term.
*/
module SearchResultsPage {
  import opened Wrappers
  import opened Text
  import Endpoints
  import QueryParams
  import Models
  import Views

  /** `append('q', searchQuery)`: a missing term is written as the string "null". */
  function TermText(searchQuery: Option<string>): string
  {
    if searchQuery.Some? then searchQuery.value else "null"
  }

  /** `redirectCondition`: `!searchQuery`. */
  predicate Redirects(searchQuery: Option<string>)
  {
    searchQuery.None? || searchQuery.value == ""
  }

  /** The query the endpoint carries: `q`, `page`, `page_size=10`, then `status` when filtering. */
  function Query(searchQuery: Option<string>, statusFilter: string, page: int): QueryParams.Params
  {
    [("q", TermText(searchQuery)), ("page", IntToString(page)), ("page_size", "10")]
      + (if statusFilter != "" then [("status", statusFilter)] else [])
  }

  /** `buildEndpoint(page)`: the pairs are appended one at a time to the `search` URL. */
  method BuildEndpoint(base: string, searchQuery: Option<string>, statusFilter: string, page: int)
    returns (url: QueryParams.Url)
    ensures url == QueryParams.Url(Endpoints.Search(base), Query(searchQuery, statusFilter, page))
  {
    var query: QueryParams.Params := [];
    query := QueryParams.Append(query, "q", TermText(searchQuery));
    query := QueryParams.Append(query, "page", IntToString(page));
    query := QueryParams.Append(query, "page_size", "10");
    if statusFilter != "" {
      query := QueryParams.Append(query, "status", statusFilter);
    }
    url := QueryParams.Url(Endpoints.Search(base), query);
  }

  /** Read back on the server, the query names the term, the page, a page size of ten, and the
      status exactly when a filter is set. */
  lemma QueryReadsBack(searchQuery: Option<string>, statusFilter: string, page: nat)
    ensures var q := Query(searchQuery, statusFilter, page);
      && QueryParams.Get(q, "q") == Some(TermText(searchQuery))
      && QueryParams.Get(q, "page").Some? && IsDecimal(QueryParams.Get(q, "page").value)
      && DecimalValue(QueryParams.Get(q, "page").value) == page
      && QueryParams.Get(q, "page_size") == Some("10")
      && (QueryParams.Get(q, "status").Some? <==> statusFilter != "")
      && (statusFilter != "" ==> QueryParams.Get(q, "status") == Some(statusFilter))
  {
    DecimalRoundTrip(page);
    var q := Query(searchQuery, statusFilter, page);
    assert q[0] == ("q", TermText(searchQuery)) && q[1] == ("page", IntToString(page));
    assert q[2] == ("page_size", "10");
    if statusFilter != "" {
      assert q[3] == ("status", statusFilter);
    }
  }

  /** A page that does not redirect sends its own term, which the server's search accepts and
      answers with the tasks whose titles contain it in any letter case (before the status
      filter and ordering the filter backends apply). The literal "null"
      sent for a missing term would be searched too; the redirect keeps it from being sent. */
  lemma ShownSearchIsAccepted(rows: map<int, Models.Task>, searchQuery: Option<string>, statusFilter: string, page: nat)
    ensures !Redirects(searchQuery) ==>
      var term := QueryParams.Get(Query(searchQuery, statusFilter, page), "q");
      && term == searchQuery
      && Views.Search(rows, term).Ok?
      && Views.Search(rows, term).value ==
           set pk | pk in rows && ContainsIgnoringCase(rows[pk].title, searchQuery.value)
    ensures searchQuery.None? ==>
      Views.Search(rows, QueryParams.Get(Query(searchQuery, statusFilter, page), "q")).Ok?
  {
    QueryReadsBack(searchQuery, statusFilter, page);
  }
}
