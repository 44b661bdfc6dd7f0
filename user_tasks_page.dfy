/**
  The page of one user's tasks: the template with an endpoint on the task
  list that carries the route's `username`, and a redirect home when the
  route has no user name.
*/
module UserTasksPage {
  import opened Wrappers
  import opened Text
  import Endpoints
  import QueryParams
  import Models
  import Views

  /** `append('username', username)`: a missing route parameter is written as "undefined". */
  function NameText(username: Option<string>): string
  {
    if username.Some? then username.value else "undefined"
  }

  /** `redirectCondition`: `!username`. */
  predicate Redirects(username: Option<string>)
  {
    username.None? || username.value == ""
  }

  /** The query the endpoint carries: `username`, `page`, `page_size=10`, then `status` when
      filtering. */
  function Query(username: Option<string>, statusFilter: string, page: int): QueryParams.Params
  {
    [("username", NameText(username)), ("page", IntToString(page)), ("page_size", "10")]
      + (if statusFilter != "" then [("status", statusFilter)] else [])
  }

  /** `buildEndpoint(page)`: the pairs are appended one at a time to the task list URL. */
  method BuildEndpoint(base: string, username: Option<string>, statusFilter: string, page: int)
    returns (url: QueryParams.Url)
    ensures url == QueryParams.Url(Endpoints.TasksBase(base), Query(username, statusFilter, page))
  {
    var query: QueryParams.Params := [];
    query := QueryParams.Append(query, "username", NameText(username));
    query := QueryParams.Append(query, "page", IntToString(page));
    query := QueryParams.Append(query, "page_size", "10");
    if statusFilter != "" {
      query := QueryParams.Append(query, "status", statusFilter);
    }
    url := QueryParams.Url(Endpoints.TasksBase(base), query);
  }

  /** Read back on the server, the query names the user, the page, a page size of ten, and the
      status exactly when a filter is set; it never carries `user_id`. */
  lemma QueryReadsBack(username: Option<string>, statusFilter: string, page: nat)
    ensures var q := Query(username, statusFilter, page);
      && QueryParams.Get(q, "username") == Some(NameText(username))
      && QueryParams.Get(q, "page").Some? && IsDecimal(QueryParams.Get(q, "page").value)
      && DecimalValue(QueryParams.Get(q, "page").value) == page
      && QueryParams.Get(q, "page_size") == Some("10")
      && (QueryParams.Get(q, "status").Some? <==> statusFilter != "")
      && !QueryParams.HasKey(q, "user_id")
  {
    DecimalRoundTrip(page);
    var q := Query(username, statusFilter, page);
    assert q[0] == ("username", NameText(username)) && q[1] == ("page", IntToString(page));
    assert q[2] == ("page_size", "10");
    if statusFilter != "" {
      assert q[3] == ("status", statusFilter);
    }
  }

  /** The list action ignores every query parameter outside the filter backends, so the
      `username` this page sends narrows nothing: every user's page starts from every task,
      before the status filter and ordering the filter backends apply. */
  lemma EveryUserSeesAllTasks(rows: map<int, Models.Task>, username: Option<string>, statusFilter: string, page: nat)
    ensures Views.ListTasks(rows, Query(username, statusFilter, page)) == rows.Keys
    ensures forall other: Option<string> ::
      Views.ListTasks(rows, Query(other, statusFilter, page)) == Views.ListTasks(rows, Query(username, statusFilter, page))
  {
    Views.NoParameterNarrowsList(rows, Query(username, statusFilter, page), []);
  }
}
