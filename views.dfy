/**
  The backend's views: the task actions that change one row (`update_status`,
  `update_title`, `complete`), the user's `update_field`, the task queries
  (`search`, `list` and the lookup queryset), the permission list per action, the
  paginator constants and envelopes, logout, and the cookie-based token
  refresh.

  The task table is a `TaskTable` object whose `rows` map primary keys to
  tasks; an action's request body value is a `Json` (`Undefined` when the key
  is absent) or, where only text makes sense, an `Option<string>`. Token
  signing and blacklisting belong to the JWT library and are parameters.
*/
module Views {
  import opened Wrappers
  import opened Text
  import opened JsonValues
  import opened Models
  import opened Serializers
  import QueryParams

  /** What an action answers: the row (or user) it now holds, a refusal with its status code
      and `detail`, or an unhandled exception. */
  datatype Outcome<T> = Ok(value: T) | Rejected(code: int, detail: string) | ServerError

  const NotFound: string := "Not found."
  const StatusRequired: string := "Status is required"
  const InvalidStatus: string := "Invalid status"
  const NoReturnToNew: string := "Cannot set status back to NEW once task has progressed"
  const TitleWindowClosed: string := "Title can only be updated within 5 minutes of creation"
  const TitleRequired: string := "Title is required"
  const TitleTaken: string := "You already have a task with this title"
  const InvalidField: string := "Invalid or missing field/value"
  const SearchTermRequired: string := "Search term 'q' is required"

  /** The checks of `update_status`, in order, on the task's current row. */
  function StatusChange(t: Task, value: Json): Outcome<Status>
  {
    if !PyTruthy(value) then Rejected(400, StatusRequired)
    else if value.Arr? || value.Obj? then ServerError  // an unhashable value in `dict(...)`
    else if !value.Str? || ParseStatus(value.s).None? then Rejected(400, InvalidStatus)
    else
      var s := ParseStatus(value.s).value;
      if !CanChangeToNew(t) && s == New then Rejected(400, NoReturnToNew)
      else Ok(s)
  }

  /** `update_status` accepts exactly a status code of the choices that is not a return to NEW;
      the missing value is refused first, then an unknown one, then the return to NEW. */
  lemma StatusChangeRules(t: Task, value: Json)
    ensures StatusChange(t, value).Ok? <==>
      value.Str? && IsChoice(value.s) && (t.status == New || value.s != "NEW")
    ensures StatusChange(t, value).Ok? ==> StatusCode(StatusChange(t, value).value) == value.s
    ensures StatusChange(t, value) == Rejected(400, StatusRequired) <==> !PyTruthy(value)
    ensures StatusChange(t, value) == Rejected(400, InvalidStatus) <==>
      PyTruthy(value) && !value.Arr? && !value.Obj? && !(value.Str? && IsChoice(value.s))
    ensures StatusChange(t, value).ServerError? <==>
      (value.Arr? && |value.items| > 0) || (value.Obj? && |value.fields| > 0)
    ensures StatusChange(t, value) == Rejected(400, NoReturnToNew) <==>
      value == Str("NEW") && t.status != New
  {
    if value.Str? && IsChoice(value.s) {
      ChoicesAreTheThreeCodes(value.s);
    }
  }

  /** The status after a run of `update_status` requests; refused requests change nothing. */
  function StatusAfter(t: Task, requests: seq<Json>): Status
    decreases |requests|
  {
    if |requests| == 0 then t.status
    else
      var next := match StatusChange(t, requests[0]) case Ok(s) => t.(status := s) case _ => t;
      StatusAfter(next, requests[1..])
  }

  /** Through `update_status` a task that has left NEW never returns to it. */
  lemma {:induction false} NeverBackToNew(t: Task, requests: seq<Json>)
    requires t.status != New
    ensures StatusAfter(t, requests) != New
    decreases |requests|
  {
    if |requests| > 0 {
      var next := match StatusChange(t, requests[0]) case Ok(s) => t.(status := s) case _ => t;
      StatusChangeRules(t, requests[0]);
      if StatusChange(t, requests[0]).Ok? {
        assert StatusCode(next.status) == requests[0].s && requests[0].s != "NEW";
      }
      NeverBackToNew(next, requests[1..]);
    }
  }

  /** NEW to NEW is allowed. */
  lemma NewToNewAllowed(t: Task)
    requires t.status == New
    ensures StatusChange(t, Str("NEW")) == Ok(New)
  {
  }

  /** The checks of `update_title`, in order: the five-minute window, a present title, and no
      other task of the same owner with that exact title. The view does not check the title's
      length; PostgreSQL refuses to save one longer than the 200-character column, and the view
      does not catch the error, so the request ends in a server error. */
  function TitleChange(rows: map<int, Task>, pk: int, title: Option<string>, now: int): Outcome<string>
    requires pk in rows
  {
    var t := rows[pk];
    if !CanEditTitle(t, now) then Rejected(403, TitleWindowClosed)
    else if title.None? || title.value == "" then Rejected(400, TitleRequired)
    else if exists other :: other in rows && other != pk && rows[other].owner == t.owner && rows[other].title == title.value
    then Rejected(400, TitleTaken)
    else if |title.value| > TitleMaxLength then ServerError
    else Ok(title.value)
  }

  /** `update_title` refuses in order (window, missing title, duplicate), fails on a title too
      long for its column, and otherwise sets a valid title no other task of the owner has, so the
      table stays free of duplicate titles. */
  lemma TitleChangeRules(rows: map<int, Task>, pk: int, title: Option<string>, now: int)
    requires pk in rows
    ensures TitleChange(rows, pk, title, now) == Rejected(403, TitleWindowClosed) <==> !CanEditTitle(rows[pk], now)
    ensures TitleChange(rows, pk, title, now) == Rejected(400, TitleRequired) <==>
      CanEditTitle(rows[pk], now) && (title.None? || title.value == "")
    ensures TitleChange(rows, pk, title, now) == ServerError ==>
      CanEditTitle(rows[pk], now) && title.Some? && |title.value| > TitleMaxLength
    ensures CanEditTitle(rows[pk], now) && title.Some? && |title.value| > TitleMaxLength ==>
      TitleChange(rows, pk, title, now) in {ServerError, Rejected(400, TitleTaken)}
    ensures TitleChange(rows, pk, title, now).Ok? ==>
      && title == Some(TitleChange(rows, pk, title, now).value) && TitleValid(title.value)
      && (UniqueTitles(rows) ==> UniqueTitles(rows[pk := rows[pk].(title := title.value)]))
  {
    if TitleChange(rows, pk, title, now).Ok? && UniqueTitles(rows) {
      var updated := rows[pk := rows[pk].(title := title.value)];
      forall a, b | a in updated && b in updated && a != b && updated[a].owner == updated[b].owner
        ensures updated[a].title != updated[b].title
      {
        if a == pk {
          assert rows[b].owner == rows[pk].owner;
        } else if b == pk {
          assert rows[a].owner == rows[pk].owner;
        }
      }
    }
  }

  class TaskTable {
    var rows: map<int, Task>

    constructor (rows: map<int, Task>)
      ensures this.rows == rows
    {
      this.rows := rows;
    }

    /** `update_status`. */
    method UpdateStatus(pk: int, value: Json) returns (r: Outcome<Task>)
      modifies this
      ensures pk !in old(rows) ==> r == Rejected(404, NotFound) && rows == old(rows)
      ensures pk in old(rows) ==>
        match StatusChange(old(rows)[pk], value)
        case Ok(s) => r == Ok(old(rows)[pk].(status := s)) && rows == old(rows)[pk := r.value]
        case Rejected(code, detail) => r == Rejected(code, detail) && rows == old(rows)
        case ServerError => r == ServerError && rows == old(rows)
    {
      if pk !in rows {
        return Rejected(404, NotFound);
      }
      var task := rows[pk];
      if !PyTruthy(value) {
        return Rejected(400, StatusRequired);
      }
      if value.Arr? || value.Obj? {
        return ServerError;
      }
      if !value.Str? || ParseStatus(value.s).None? {
        return Rejected(400, InvalidStatus);
      }
      var s := ParseStatus(value.s).value;
      if !CanChangeToNew(task) && s == New {
        return Rejected(400, NoReturnToNew);
      }
      task := task.(status := s);
      rows := rows[pk := task];
      r := Ok(task);
    }

    /** `update_title`; `now` is the clock reading. */
    method UpdateTitle(pk: int, title: Option<string>, now: int) returns (r: Outcome<Task>)
      modifies this
      ensures pk !in old(rows) ==> r == Rejected(404, NotFound) && rows == old(rows)
      ensures pk in old(rows) ==>
        match TitleChange(old(rows), pk, title, now)
        case Ok(t) => r == Ok(old(rows)[pk].(title := t)) && rows == old(rows)[pk := r.value]
        case Rejected(code, detail) => r == Rejected(code, detail) && rows == old(rows)
        case ServerError => r == ServerError && rows == old(rows)
      ensures UniqueTitles(old(rows)) ==> UniqueTitles(rows)
      ensures (forall k :: k in old(rows) ==> TitleValid(old(rows)[k].title)) ==>
        forall k :: k in rows ==> TitleValid(rows[k].title)
    {
      if pk !in rows {
        return Rejected(404, NotFound);
      }
      TitleChangeRules(rows, pk, title, now);
      var task := rows[pk];
      if !CanEditTitle(task, now) {
        return Rejected(403, TitleWindowClosed);
      }
      if title.None? || title.value == "" {
        return Rejected(400, TitleRequired);
      }
      if exists other :: other in rows && other != pk && rows[other].owner == task.owner && rows[other].title == title.value {
        return Rejected(400, TitleTaken);
      }
      if |title.value| > TitleMaxLength {
        return ServerError;
      }
      task := task.(title := title.value);
      rows := rows[pk := task];
      r := Ok(task);
    }

    /** `complete`: the status becomes COMPLETED whatever it was. */
    method Complete(pk: int) returns (r: Outcome<Task>)
      modifies this
      ensures pk !in old(rows) ==> r == Rejected(404, NotFound) && rows == old(rows)
      ensures pk in old(rows) ==>
        r == Ok(old(rows)[pk].(status := Completed)) && rows == old(rows)[pk := r.value]
      ensures UniqueTitles(old(rows)) ==> UniqueTitles(rows)
    {
      if pk !in rows {
        return Rejected(404, NotFound);
      }
      var task := rows[pk].(status := Completed);
      rows := rows[pk := task];
      r := Ok(task);
    }
  }

  /** `update_field`: only `email` or `contact_number` with a non-empty value. `email` is a
      column and is saved; `contact_number` is not a field of the user model, so saving
      leaves the row as it was. The answer is the public user shape. */
  function UpdateField(u: User, field: Json, value: Option<string>): (r: (Outcome<map<string, Json>>, User))
  {
    if !(field == Str("email") || field == Str("contact_number")) || value.None? || value.value == "" then
      (Rejected(400, InvalidField), u)
    else
      var saved := if field == Str("email") then u.(email := value.value) else u;
      (Ok(PublicUser(saved)), saved)
  }

  /** A refused `update_field` changes nothing; an accepted one changes at most the e-mail and
      never what the public shape shows. */
  lemma UpdateFieldRules(u: User, field: Json, value: Option<string>)
    ensures var (out, saved) := UpdateField(u, field, value);
      && (out.Rejected? <==> !(field == Str("email") || field == Str("contact_number")) || value.None? || value.value == "")
      && (out.Rejected? ==> out.code == 400 && saved == u)
      && (out.Ok? ==> out.value == PublicUser(u) && saved == u.(email := saved.email))
      && (out.Ok? && field == Str("email") ==> saved.email == value.value)
      && (field == Str("contact_number") ==> saved == u)
  {
  }

  /** `search`: a missing or empty `q` is refused; otherwise the tasks whose title contains `q`,
      ignoring case. */
  function Search(rows: map<int, Task>, q: Option<string>): (r: Outcome<set<int>>)
    ensures q.None? || q.value == "" <==> r == Rejected(400, SearchTermRequired)
    ensures r.Ok? ==> r.value <= rows.Keys
  {
    if q.None? || q.value == "" then Rejected(400, SearchTermRequired)
    else Ok(set pk | pk in rows && ContainsIgnoringCase(rows[pk].title, q.value))
  }

  /** Search finds a task exactly when its title contains the term in any letter case. */
  lemma SearchMatchesIgnoringCase(rows: map<int, Task>, q: string, pk: int)
    requires q != "" && pk in rows
    ensures pk in Search(rows, Some(q)).value <==> Includes(Lower(rows[pk].title), Lower(q))
  {
  }

  /** `get_queryset`, the queryset `get_object` looks a task up in: all tasks, or those of one
      owner when `user_id` is given. The server reads the last `user_id` of the query, and the
      lookup converts it with `int()`: text `int` refuses makes the query raise. */
  function LookupQueryset(rows: map<int, Task>, params: QueryParams.Params): (r: Outcome<set<int>>)
    ensures r.Ok? ==> r.value <= rows.Keys
  {
    var userId := QueryParams.GetLast(params, "user_id");
    if userId.None? || userId.value == "" then Ok(rows.Keys)
    else
      match PyInt(userId.value)
      case None => ServerError
      case Some(owner) => Ok(set pk | pk in rows && rows[pk].owner == owner)
  }

  /** Only `user_id` narrows the lookup queryset: without it every task is there, whatever other
      parameters (such as `username`) are sent. */
  lemma LookupNarrowsOnlyByUserId(rows: map<int, Task>, params: QueryParams.Params)
    ensures !QueryParams.HasKey(params, "user_id") ==> LookupQueryset(rows, params) == Ok(rows.Keys)
    ensures forall pk :: pk in rows && LookupQueryset(rows, params).Ok? && pk !in LookupQueryset(rows, params).value ==>
      QueryParams.HasKey(params, "user_id")
  {
  }

  /** `list`: it filters `get_base_queryset()`, not `get_queryset()`, so before the filter
      backends it starts from the whole table, whatever the query carries. */
  function ListTasks(rows: map<int, Task>, params: QueryParams.Params): set<int>
  {
    rows.Keys
  }

  /** No query parameter narrows the list: two queries list the same tasks, every task is listed,
      and a task a `user_id` would exclude from the lookup queryset is listed all the same. */
  lemma NoParameterNarrowsList(rows: map<int, Task>, params: QueryParams.Params, other: QueryParams.Params)
    ensures ListTasks(rows, params) == ListTasks(rows, other)
    ensures forall pk :: pk in rows ==> pk in ListTasks(rows, params)
    ensures LookupQueryset(rows, params).Ok? ==> LookupQueryset(rows, params).value <= ListTasks(rows, params)
  {
  }

  /** A `user_id` naming an owner, read last, leaves every other owner's tasks out of the lookup
      queryset, while the list still carries them. */
  lemma UserIdIgnoredByList(rows: map<int, Task>, params: QueryParams.Params, owner: int, pk: int)
    requires QueryParams.GetLast(params, "user_id") == Some(IntToString(owner))
    requires pk in rows && rows[pk].owner != owner
    ensures LookupQueryset(rows, params).Ok? && pk !in LookupQueryset(rows, params).value
    ensures pk in ListTasks(rows, params)
  {
    PyIntRoundTrip(owner);
  }

  /** Only the last `user_id` counts: an empty last value filters nothing, whatever came before,
      and a signed one is read as `int` reads it. */
  lemma LastUserIdDecides(rows: map<int, Task>, first: string, owner: int)
    ensures LookupQueryset(rows, [("user_id", first), ("user_id", "")]) == Ok(rows.Keys)
    ensures LookupQueryset(rows, [("user_id", IntToString(owner))]) ==
      Ok(set pk | pk in rows && rows[pk].owner == owner)
  {
    var ps: QueryParams.Params := [("user_id", first), ("user_id", "")];
    assert ps[1] == ("user_id", "");
    PyIntRoundTrip(owner);
  }

  /** A `user_id` padded with non-ASCII whitespace is read as `int` reads it. */
  lemma PaddedUserIdIsRead(rows: map<int, Task>)
    ensures LookupQueryset(rows, [("user_id", "\U{00A0}5")]) == Ok(set pk | pk in rows && rows[pk].owner == 5)
  {
    var ps: QueryParams.Params := [("user_id", "\U{00A0}5")];
    assert QueryParams.GetLast(ps, "user_id") == Some("\U{00A0}5");
    PyIntSkipsNoBreakSpace();
  }

  /** A `user_id` led by the separator U+001F, which `int` does not skip, makes the query raise. */
  lemma SeparatorInUserIdRaises(rows: map<int, Task>)
    ensures LookupQueryset(rows, [("user_id", "\U{001F}5")]) == ServerError
  {
    var ps: QueryParams.Params := [("user_id", "\U{001F}5")];
    assert QueryParams.GetLast(ps, "user_id") == Some("\U{001F}5") && "\U{001F}5" != "";
    PyIntRefusesUnitSeparator();
  }

  datatype Permission = IsAuthenticated | IsTaskCreator

  const OwnerActions: seq<string> :=
    ["update", "partial_update", "destroy", "complete", "update_title", "update_description"]

  /** `get_permissions`: the owner check is added only for the listed actions. */
  function PermissionsFor(action: string): (r: seq<Permission>)
    ensures |r| > 0 && r[0] == IsAuthenticated
    ensures IsTaskCreator in r <==> action in OwnerActions
  {
    if action in OwnerActions then [IsAuthenticated, IsTaskCreator] else [IsAuthenticated]
  }

  /** `update_status` is not owner-checked while `complete` and `update_title` are. */
  lemma StatusChangeIsNotOwnerChecked()
    ensures IsTaskCreator !in PermissionsFor("update_status")
    ensures IsTaskCreator in PermissionsFor("complete") && IsTaskCreator in PermissionsFor("update_title")
  {
    assert OwnerActions[3] == "complete" && OwnerActions[4] == "update_title";
  }

  /** `TaskPaginator`. */
  const PageSize: nat := 10
  const PageSizeQueryParam: string := "page_size"
  const MaxPageSize: nat := 100

  /** The envelope of a paginated answer. `page_size` is the paginator's attribute, not the
      size a `page_size` parameter asked for. */
  function PaginatedEnvelope(number: int, numPages: int, count: int, next: Json, previous: Json,
                             results: seq<Json>): (r: Json)
    ensures r.Obj? && r.fields.Keys == {"pagination", "results"} && r.fields["results"] == Arr(results)
    ensures r.fields["pagination"].Obj?
    ensures r.fields["pagination"].fields.Keys ==
            {"next", "previous", "current_page", "total_pages", "page_size", "total_items"}
    ensures r.fields["pagination"].fields["page_size"] == Num(PageSize)
    ensures r.fields["pagination"].fields["current_page"] == Num(number)
    ensures r.fields["pagination"].fields["total_pages"] == Num(numPages)
    ensures r.fields["pagination"].fields["total_items"] == Num(count)
  {
    Obj(map[
      "pagination" := Obj(map[
        "next" := next, "previous" := previous, "current_page" := Num(number),
        "total_pages" := Num(numPages), "page_size" := Num(PageSize), "total_items" := Num(count)]),
      "results" := Arr(results)])
  }

  /** The envelope when the queryset is not paginated: page 1 of 1 with no results. */
  function FallbackEnvelope(count: int): (r: Json)
    ensures r.Obj? && "results" in r.fields && r.fields["results"] == Arr([]) && "pagination" in r.fields
    ensures var p := r.fields["pagination"];
      p.Obj? && p.fields.Keys == {"next", "previous", "current_page", "total_pages", "page_size", "total_items"} &&
      p.fields["current_page"] == Num(1) && p.fields["total_pages"] == Num(1) &&
      p.fields["total_items"] == Num(count) && p.fields["page_size"] == Num(PageSize) &&
      p.fields["next"] == Null && p.fields["previous"] == Null
  {
    PaginatedEnvelope(1, 1, count, Null, Null, [])
  }

  /** Both envelopes have the same shape: only the numbers and the results differ. */
  lemma EnvelopesAgree(count: int)
    ensures FallbackEnvelope(count).fields.Keys == PaginatedEnvelope(1, 1, count, Null, Null, []).fields.Keys
    ensures FallbackEnvelope(count).fields["pagination"].fields.Keys ==
            {"next", "previous", "current_page", "total_pages", "page_size", "total_items"}
  {
  }

  /** A `Set-Cookie` header. */
  datatype Cookie = Cookie(key: string, value: string, maxAge: int, path: string, secure: bool,
                           httpOnly: bool, sameSite: string)

  datatype LogoutReply = LogoutReply(status: int, detail: string, cookie: Cookie)

  /** What blacklisting the refresh cookie does, which does not reach the answer. */
  datatype Blacklisting = NoCookie | Blacklisted | TokenRejected

  /** `LogoutViewSet.create`. */
  function Logout(blacklisting: Blacklisting): (r: LogoutReply)
    ensures r.status == 200 && r.detail == "Successfully logged out."
    ensures r.cookie.key == "refresh_token" && r.cookie.maxAge == 0
    ensures r.cookie.path == "/" && r.cookie.secure && r.cookie.httpOnly && r.cookie.sameSite == "Lax"
  {
    var cookie := Cookie("refresh_token", "Token from South Park", 0, "/", true, true, "Lax");
    match blacklisting
    case NoCookie => LogoutReply(200, "Successfully logged out.", cookie)
    case Blacklisted => LogoutReply(200, "Successfully logged out.", cookie)
    case TokenRejected => LogoutReply(200, "Successfully logged out.", cookie)
  }

  /** Logout answers the same whatever became of the refresh token. */
  lemma LogoutIgnoresBlacklisting(a: Blacklisting, b: Blacklisting)
    ensures Logout(a) == Logout(b)
  {
  }

  /** The data the token refresh view hands to the JWT library: a refresh cookie, when present,
      replaces the `refresh` of the body. */
  function RefreshInput(cookie: Option<string>, body: map<string, Json>): (r: map<string, Json>)
    ensures cookie.Some? && cookie.value != "" ==> r == body["refresh" := Str(cookie.value)]
    ensures cookie.None? || cookie.value == "" ==> r == body
  {
    if cookie.Some? && cookie.value != "" then body["refresh" := Str(cookie.value)] else body
  }

  /** `CookieTokenRefreshView.post` after the library answered `status` with `data`. The user is
      looked up from the cookie (not from the body): `owner` is the user the cookie's token
      names, `None` when it is invalid or the user is gone. */
  function RefreshReply(cookie: Option<string>, status: int, data: map<string, Json>, owner: Option<User>)
    : map<string, Json>
  {
    if status == 200 && "access" in data && cookie.Some? && cookie.value != "" && owner.Some? then
      var u := owner.value;
      data["user" := Obj(map["id" := Num(u.id), "username" := Str(u.username),
                             "first_name" := Str(u.firstName), "last_name" := Str(u.lastName)])]
    else data
  }

  /** A user is added exactly after a successful refresh through a cookie naming an existing
      user, and it has the public user shape; otherwise the library's answer is passed on. */
  lemma RefreshReplyRules(cookie: Option<string>, status: int, data: map<string, Json>, owner: Option<User>)
    ensures var r := RefreshReply(cookie, status, data, owner);
      var added := status == 200 && "access" in data && cookie.Some? && cookie.value != "" && owner.Some?;
      && (added ==> r.Keys == data.Keys + {"user"} && r["user"] == Obj(PublicUser(owner.value)))
      && (added ==> forall k :: k in data && k != "user" ==> r[k] == data[k])
      && (!added ==> r == data)
  {
  }
}
