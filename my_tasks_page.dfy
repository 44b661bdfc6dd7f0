/**
  The "My Tasks" page: the template with an endpoint on `my_tasks` and no
  redirect condition. The status filter comes from the `status` parameter
  of the page's own URL.
*/
module MyTasksPage {
  import opened Wrappers
  import opened Text
  import Endpoints
  import QueryParams
  import TasksPageTemplate

  /** `searchParams.get('status') || ''`. */
  function StatusFilter(search: QueryParams.Params): (r: string)
    ensures QueryParams.Get(search, "status").Some? ==> r == QueryParams.Get(search, "status").value
    ensures QueryParams.Get(search, "status").None? ==> r == ""
  {
    QueryParams.Get(search, "status").GetOr("")
  }

  /** The query the endpoint carries: `page`, `page_size=10`, then `status` when filtering. */
  function Query(statusFilter: string, page: int): QueryParams.Params
  {
    [("page", IntToString(page)), ("page_size", "10")]
      + (if statusFilter != "" then [("status", statusFilter)] else [])
  }

  /** `buildEndpoint(page)`: the pairs are appended one at a time to the `my_tasks` URL. */
  method BuildEndpoint(base: string, statusFilter: string, page: int) returns (url: QueryParams.Url)
    ensures url == QueryParams.Url(Endpoints.MyTasks(base), Query(statusFilter, page))
  {
    var query: QueryParams.Params := [];
    query := QueryParams.Append(query, "page", IntToString(page));
    query := QueryParams.Append(query, "page_size", "10");
    if statusFilter != "" {
      query := QueryParams.Append(query, "status", statusFilter);
    }
    url := QueryParams.Url(Endpoints.MyTasks(base), query);
  }

  /** Read back on the server, the query names the requested page, a page size of ten, and the
      status exactly when a filter is set. */
  lemma QueryReadsBack(statusFilter: string, page: nat)
    ensures var q := Query(statusFilter, page);
      && QueryParams.Get(q, "page").Some? && IsDecimal(QueryParams.Get(q, "page").value)
      && DecimalValue(QueryParams.Get(q, "page").value) == page
      && QueryParams.Get(q, "page_size") == Some("10")
      && (QueryParams.Get(q, "status").Some? <==> statusFilter != "")
      && (statusFilter != "" ==> QueryParams.Get(q, "status") == Some(statusFilter))
      && !QueryParams.HasKey(q, "user_id")
  {
    DecimalRoundTrip(page);
    var q := Query(statusFilter, page);
    assert q[0] == ("page", IntToString(page)) && q[1] == ("page_size", "10");
    if statusFilter != "" {
      assert q[2] == ("status", statusFilter);
    }
  }

  /** The page passes no `redirectCondition`, so the template's default `() => false` holds. */
  predicate Redirects()
  {
    false
  }

  /** The page's route effect redirects only a signed-out user; signed in it refetches or stays. */
  method RouteNeverRedirectsSignedIn<B(==)>(page: TasksPageTemplate.TasksPage<B>, isAuthenticated: bool,
                                           search: QueryParams.Params, builder: B)
    returns (action: TasksPageTemplate.RouteAction)
    requires TasksPageTemplate.PageParamReadable(search)
    modifies page
    ensures action.Redirect? <==> !isAuthenticated
  {
    action := page.RouteEffect(isAuthenticated, Redirects(), search, builder);
  }
}
