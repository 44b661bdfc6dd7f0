/**
  The shared task page: its state (`tasks`, `pagination`, `loading`, `error`,
  and the refs `initialLoad`, `prevSearch`, `prevBuildEndpoint`) and the
  handlers that update it.

  The page's `buildEndpoint` is compared by identity; a page's builder is
  recreated exactly when the values it closes over change, so the model
  compares a value `B` standing for those values. `apiFetch` is not called
  here: an effect answers which page to fetch, and `FetchTasks` receives what
  the call returned or the message it threw.
*/
module TasksPageTemplate {
  import opened Wrappers
  import opened Text
  import QueryParams
  import TasksList
  import PaginationControls

  datatype Pagination = Pagination(currentPage: int, totalPages: int, pageSize: int, totalItems: int)

  /** The tasks shown before anything is fetched. */
  const InitialPagination: Pagination := Pagination(1, 1, 10, 0)

  /** The parts of a list reply the page reads: `results` (`None` when absent), `pagination`
      (`None` when absent) and `count` (0 when absent). */
  datatype Listing = Listing(results: Option<seq<TasksList.TaskItem>>, pagination: Option<Pagination>, count: int)

  /** `Math.ceil(a / b)` for a positive divisor. */
  function CeilDiv(a: int, b: int): int
    requires b > 0
  {
    -((-a) / b)
  }

  /** The ceiling is the least multiple count that covers `a`. */
  lemma CeilDivBounds(a: int, b: int)
    requires b > 0
    ensures b * (CeilDiv(a, b) - 1) < a <= b * CeilDiv(a, b)
    ensures a <= 0 ==> CeilDiv(a, b) <= 0
    ensures a > 0 ==> CeilDiv(a, b) >= 1
  {
    var q := (-a) / b;
    var r := (-a) % b;
    assert -a == b * q + r && 0 <= r < b;
  }

  /** The pagination made up when a reply has results but no `pagination`. */
  function FallbackPagination(page: int, results: seq<TasksList.TaskItem>, count: int): Pagination
  {
    var n := if count != 0 then count else |results|;
    Pagination(page, CeilDiv(n, 10), 10, n)
  }

  /** The made-up pagination counts `count` items, or the results when there is no count, on
      pages of ten, as few pages as hold them. */
  lemma FallbackCoversItems(page: int, results: seq<TasksList.TaskItem>, count: int)
    ensures var p := FallbackPagination(page, results, count);
      && p.currentPage == page && p.pageSize == 10
      && p.totalItems == (if count != 0 then count else |results|)
      && 10 * (p.totalPages - 1) < p.totalItems <= 10 * p.totalPages
  {
    CeilDivBounds(if count != 0 then count else |results|, 10);
  }

  /** The page guard of `handlePageChange`. */
  predicate InRange(newPage: int, totalPages: int)
  {
    1 <= newPage <= totalPages
  }

  /** What the route effect decides. */
  datatype RouteAction = Redirect(path: string) | Refetch(page: int) | Stay

  /** The `page` parameter as the route effect reads it: absent or empty means page 1. */
  function PageParam(search: QueryParams.Params): int
    requires PageParamReadable(search)
  {
    var p := QueryParams.Get(search, "page");
    if p.None? || p.value == "" then 1 else DecimalValue(p.value)
  }

  /** The `page` parameter is absent, empty or a decimal numeral. */
  predicate PageParamReadable(search: QueryParams.Params)
  {
    var p := QueryParams.Get(search, "page");
    p.None? || p.value == "" || IsDecimal(p.value)
  }

  class TasksPage<B(==)> {
    const redirectPath: string
    const errorMessage: string
    var tasks: seq<TasksList.TaskItem>
    var loading: bool
    var error: string
    var pagination: Pagination
    var initialLoad: bool
    var prevSearch: QueryParams.Params
    var prevBuilder: B

    /** Page sizes are positive, so the ceiling after a deletion is defined. */
    predicate Valid()
      reads this
    {
      pagination.pageSize > 0
    }

    /** The first render: no tasks, loading, no error, the initial pagination, and the refs
        holding the current search and builder. */
    constructor (redirectPath: string, errorMessage: string, search: QueryParams.Params, builder: B)
      ensures Valid()
      ensures this.redirectPath == redirectPath && this.errorMessage == errorMessage
      ensures tasks == [] && loading && error == "" && pagination == InitialPagination
      ensures initialLoad && prevSearch == search && prevBuilder == builder
    {
      this.redirectPath := redirectPath;
      this.errorMessage := errorMessage;
      tasks := [];
      loading := true;
      error := "";
      pagination := InitialPagination;
      initialLoad := true;
      prevSearch := search;
      prevBuilder := builder;
    }

    /** `fetchTasks(page)` once `apiFetch` has answered: `outcome` is the reply or the message
        of what it threw. */
    method FetchTasks(page: int, outcome: Result<Listing, string>)
      requires Valid()
      requires outcome.Success? && outcome.value.pagination.Some? ==> outcome.value.pagination.value.pageSize > 0
      modifies this
      ensures Valid() && !loading
      ensures outcome.Failure? ==>
        && error == (if outcome.error != "" then outcome.error else errorMessage)
        && tasks == old(tasks) && pagination == old(pagination)
      ensures outcome.Success? ==> error == ""
      ensures outcome.Success? && outcome.value.results.None? ==>
        tasks == old(tasks) && pagination == old(pagination)
      ensures outcome.Success? && outcome.value.results.Some? ==>
        && tasks == outcome.value.results.value
        && pagination == outcome.value.pagination.GetOr(
             FallbackPagination(page, outcome.value.results.value, outcome.value.count))
      ensures initialLoad == old(initialLoad) && prevSearch == old(prevSearch) && prevBuilder == old(prevBuilder)
    {
      loading := true;
      error := "";
      match outcome {
        case Failure(message) =>
          error := if message != "" then message else errorMessage;
        case Success(listing) =>
          if listing.results.Some? {
            tasks := listing.results.value;
            if listing.pagination.Some? {
              pagination := listing.pagination.value;
            } else {
              var n := if listing.count != 0 then listing.count else |listing.results.value|;
              pagination := Pagination(page, CeilDiv(n, 10), 10, n);
            }
          }
      }
      loading := false;
    }

    /** `handlePageChange(newPage)`: the query to navigate to, if the page is in range. */
    method HandlePageChange(newPage: int, search: QueryParams.Params) returns (target: Option<QueryParams.Params>)
      ensures target.Some? <==> InRange(newPage, pagination.totalPages)
      ensures target.Some? ==>
        && QueryParams.Get(target.value, "page") == Some(IntToString(newPage))
        && forall k :: k != "page" ==> QueryParams.Get(target.value, k) == QueryParams.Get(search, k)
      ensures target.Some? ==> QueryParams.Without(target.value, "page") == QueryParams.Without(search, "page")
    {
      if 1 <= newPage <= pagination.totalPages {
        var next := QueryParams.Set(search, "page", IntToString(newPage));
        forall k | k != "page" ensures QueryParams.Get(next, k) == QueryParams.Get(search, k) {
          QueryParams.SetProperties(search, "page", IntToString(newPage), k);
        }
        QueryParams.SetProperties(search, "page", IntToString(newPage), "");
        target := Some(next);
      } else {
        target := None;
      }
    }

    /** `handleTaskUpdated(updatedTasks)`: a shorter list counts as one deletion. */
    method HandleTaskUpdated(updated: seq<TasksList.TaskItem>)
      requires Valid()
      modifies this
      ensures Valid() && tasks == updated
      ensures |updated| >= |old(tasks)| ==> pagination == old(pagination)
      ensures |updated| < |old(tasks)| ==>
        var items := old(pagination).totalItems - 1;
        var pages := CeilDiv(items, old(pagination).pageSize);
        pagination == old(pagination).(totalItems := items, totalPages := pages,
                                       currentPage := if old(pagination).currentPage <= pages
                                                      then old(pagination).currentPage else pages)
      ensures loading == old(loading) && error == old(error) && initialLoad == old(initialLoad)
      ensures prevSearch == old(prevSearch) && prevBuilder == old(prevBuilder)
    {
      var shrunk := |updated| < |tasks|;
      tasks := updated;
      if shrunk {
        var items := pagination.totalItems - 1;
        var pages := CeilDiv(items, pagination.pageSize);
        var current := if pagination.currentPage <= pages then pagination.currentPage else pages;
        pagination := pagination.(totalItems := items, totalPages := pages, currentPage := current);
      }
    }

    /** The initial-load effect: fetch page 1 once, when signed in and not redirecting. */
    method InitialLoadEffect(isAuthenticated: bool, redirect: bool) returns (fetch: Option<int>)
      modifies this
      ensures fetch.Some? <==> old(initialLoad) && isAuthenticated && !redirect
      ensures fetch.Some? ==> fetch.value == 1 && !initialLoad
      ensures fetch.None? ==> initialLoad == old(initialLoad)
      ensures tasks == old(tasks) && pagination == old(pagination) && loading == old(loading) && error == old(error)
      ensures prevSearch == old(prevSearch) && prevBuilder == old(prevBuilder)
    {
      if initialLoad && isAuthenticated && !redirect {
        fetch := Some(1);
        initialLoad := false;
      } else {
        fetch := None;
      }
    }

    /** The route effect: redirect when signed out or when the page's condition holds;
        otherwise refetch only if the search or the builder changed since the last run. */
    method RouteEffect(isAuthenticated: bool, redirect: bool, search: QueryParams.Params, builder: B)
      returns (action: RouteAction)
      requires PageParamReadable(search)
      modifies this
      ensures !isAuthenticated || redirect ==>
        action == Redirect(redirectPath) && prevSearch == old(prevSearch) && prevBuilder == old(prevBuilder)
      ensures isAuthenticated && !redirect && (search != old(prevSearch) || builder != old(prevBuilder)) ==>
        action == Refetch(PageParam(search)) && prevSearch == search && prevBuilder == builder
      ensures isAuthenticated && !redirect && search == old(prevSearch) && builder == old(prevBuilder) ==>
        action == Stay && prevSearch == old(prevSearch) && prevBuilder == old(prevBuilder)
      ensures tasks == old(tasks) && pagination == old(pagination) && loading == old(loading) && error == old(error)
      ensures initialLoad == old(initialLoad)
    {
      if !isAuthenticated || redirect {
        return Redirect(redirectPath);
      }
      var p := QueryParams.Get(search, "page");
      var page := if p.None? || p.value == "" then 1 else DecimalValue(p.value);
      if search != prevSearch || builder != prevBuilder {
        action := Refetch(page);
        prevSearch := search;
        prevBuilder := builder;
      } else {
        action := Stay;
      }
    }
  }

  /** A navigation from `handlePageChange` makes the route effect refetch exactly that page. */
  lemma PageChangeRefetchesThatPage(search: QueryParams.Params, target: QueryParams.Params, newPage: int)
    requires newPage >= 1 && QueryParams.Get(target, "page") == Some(IntToString(newPage))
    ensures PageParamReadable(target) && PageParam(target) == newPage
  {
    DecimalRoundTrip(newPage);
  }

  /** When the list is consistent with its pagination, the deletion bookkeeping keeps it so,
      and removing the last item leaves zero pages and page zero. */
  lemma DeletionBookkeeping(p: Pagination)
    requires p.pageSize > 0 && p.totalItems >= 1 && 1 <= p.currentPage <= p.totalPages
    ensures var items := p.totalItems - 1;
      var pages := CeilDiv(items, p.pageSize);
      && p.pageSize * (pages - 1) < items <= p.pageSize * pages
      && (items == 0 ==> pages == 0 && (if p.currentPage <= pages then p.currentPage else pages) == 0)
  {
    CeilDivBounds(p.totalItems - 1, p.pageSize);
  }

  /** The list component never passes up a shorter list, so its reports never change the
      pagination: the deletion bookkeeping is not reached through it. */
  lemma ListReportsKeepPagination(tasks: seq<TasksList.TaskItem>, updated: Option<TasksList.TaskItem>)
    ensures TasksList.HandleTaskUpdated(tasks, updated).Success? ==>
      !(|TasksList.HandleTaskUpdated(tasks, updated).value| < |tasks|)
  {
    TasksList.NeverShrinks(tasks, updated);
  }

  /** On a page in range, every request the pagination bar can make passes the page guard:
      an enabled Previous or Next, and every page button. */
  lemma ControlsStayInRange(currentPage: int, totalPages: int, pages: seq<int>)
    requires 1 <= currentPage <= totalPages
    requires |pages| == totalPages && forall i :: 0 <= i < |pages| ==> pages[i] == i + 1
    ensures !PaginationControls.PreviousDisabled(currentPage) ==>
      InRange(PaginationControls.PreviousTarget(currentPage), totalPages)
    ensures !PaginationControls.NextDisabled(currentPage, totalPages) ==>
      InRange(PaginationControls.NextTarget(currentPage), totalPages)
    ensures forall i :: 0 <= i < |pages| ==> InRange(pages[i], totalPages)
    ensures PaginationControls.PreviousDisabled(currentPage) ==> !InRange(PaginationControls.PreviousTarget(currentPage), totalPages)
    ensures PaginationControls.NextDisabled(currentPage, totalPages) ==> !InRange(PaginationControls.NextTarget(currentPage), totalPages)
  {
  }
}
