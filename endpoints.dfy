/**
  The `API` constant tree of the client: every endpoint is the configured
  base URL (`REACT_APP_API_BASE_URL`, or the empty string) followed by a fixed
  path under `/api/` that ends in `/`. The base is a parameter here because it
  comes from the build environment.
*/
module Endpoints {
  import opened Wrappers
  import opened Text

  /** The groups of string-valued members of `API`. */
  datatype Group = Auth | AuthToken | Users | Tasks

  /** `API.<group>.<key>` for the members that are strings; `None` is `undefined`. */
  function Entry(base: string, g: Group, key: string): (r: Option<string>)
    ensures r.Some? ==> |r.value| > |base| + 5 && r.value[..|base| + 5] == base + "/api/"
    ensures r.Some? ==> r.value[|r.value| - 1] == '/'
  {
    var path: Option<string> :=
      match g
      case Auth =>
        if key == "LOGIN" then Some("login/")
        else if key == "REGISTER" then Some("register/")
        else if key == "ME" then Some("users/me/")
        else if key == "LOGOUT" then Some("logout/")
        else if key == "UPDATE_FIELD" then Some("users/update_field/")
        else None
      case AuthToken =>
        if key == "OBTAIN" then Some("token/")
        else if key == "REFRESH" then Some("token/refresh/")
        else if key == "VERIFY" then Some("token/verify/")
        else None
      case Users =>
        if key == "BASE" then Some("users/") else None
      case Tasks =>
        if key == "BASE" then Some("tasks/")
        else if key == "MY_TASKS" then Some("tasks/my_tasks/")
        else if key == "SEARCH" then Some("tasks/search/")
        else None;
    match path
    case None => None
    case Some(p) =>
      assert (base + "/api/" + p)[..|base| + 5] == base + "/api/";
      Some(base + "/api/" + p)
  }

  function Login(base: string): string { base + "/api/login/" }
  function Register(base: string): string { base + "/api/register/" }
  function TokenRefresh(base: string): string { base + "/api/token/refresh/" }
  function Logout(base: string): string { base + "/api/logout/" }
  function TasksBase(base: string): string { base + "/api/tasks/" }
  function MyTasks(base: string): string { base + "/api/tasks/my_tasks/" }
  function Search(base: string): string { base + "/api/tasks/search/" }

  /** `API.USERS.BY_ID(id)`; `id` is the text the template literal prints. */
  function UserById(base: string, id: string): string { base + "/api/users/" + id + "/" }
  function GetUser(base: string, id: string): string { base + "/api/users/" + id + "/get_user/" }

  function TaskById(base: string, id: string): string { base + "/api/tasks/" + id + "/" }
  function Complete(base: string, id: string): string { base + "/api/tasks/" + id + "/complete/" }
  function UpdateTitle(base: string, id: string): string { base + "/api/tasks/" + id + "/update_title/" }
  function UpdateDescription(base: string, id: string): string { base + "/api/tasks/" + id + "/update_description/" }
  function UpdateStatus(base: string, id: string): string { base + "/api/tasks/" + id + "/update_status/" }

  /** The substring `apiFetch` uses to recognise the refresh endpoint. */
  const RefreshMarker: string := "/token/refresh/"

  /** The named string constants are the entries of the tree. */
  lemma EntriesAreTheConstants(base: string)
    ensures Entry(base, Auth, "LOGIN") == Some(Login(base))
    ensures Entry(base, Auth, "REGISTER") == Some(Register(base))
    ensures Entry(base, Auth, "LOGOUT") == Some(Logout(base))
    ensures Entry(base, AuthToken, "REFRESH") == Some(TokenRefresh(base))
    ensures Entry(base, Tasks, "BASE") == Some(TasksBase(base))
    ensures Entry(base, Tasks, "MY_TASKS") == Some(MyTasks(base))
    ensures Entry(base, Tasks, "SEARCH") == Some(Search(base))
  {
    assert base + "/api/" + "login/" == Login(base);
    assert base + "/api/" + "register/" == Register(base);
    assert base + "/api/" + "logout/" == Logout(base);
    assert base + "/api/" + "token/refresh/" == TokenRefresh(base);
    assert base + "/api/" + "tasks/" == TasksBase(base);
    assert base + "/api/" + "tasks/my_tasks/" == MyTasks(base);
    assert base + "/api/" + "tasks/search/" == Search(base);
  }

  /** `ME` exists under `AUTH` only: `API.USERS.ME` is `undefined`. */
  lemma MeOnlyUnderAuth(base: string)
    ensures Entry(base, Users, "ME") == None
    ensures Entry(base, Auth, "ME") == Some(base + "/api/users/me/")
  {
    assert base + "/api/" + "users/me/" == base + "/api/users/me/";
  }

  /** The per-task builders extend `TASKS.BASE` and `BY_ID(id)`. */
  lemma TaskBuildersExtendById(base: string, id: string)
    ensures TaskById(base, id) == TasksBase(base) + id + "/"
    ensures Complete(base, id) == TaskById(base, id) + "complete/"
    ensures UpdateTitle(base, id) == TaskById(base, id) + "update_title/"
    ensures UpdateDescription(base, id) == TaskById(base, id) + "update_description/"
    ensures UpdateStatus(base, id) == TaskById(base, id) + "update_status/"
  {
    var byId := base + "/api/tasks/" + id;
    assert "/" + "complete/" == "/complete/";
    assert "/" + "update_title/" == "/update_title/";
    assert "/" + "update_description/" == "/update_description/";
    assert "/" + "update_status/" == "/update_status/";
    assert TaskById(base, id) == byId + "/";
  }

  /** `USERS.GET_USER(id)` extends `USERS.BY_ID(id)`. */
  lemma GetUserExtendsById(base: string, id: string)
    ensures GetUser(base, id) == UserById(base, id) + "get_user/"
  {
  }

  /** The refresh endpoint contains the marker, so `apiFetch` never retries it. */
  lemma RefreshIsExempt(base: string)
    ensures Includes(TokenRefresh(base), RefreshMarker)
  {
    var u := TokenRefresh(base);
    assert u[|base| + 4..|base| + 4 + |RefreshMarker|] == RefreshMarker;
    assert OccursAt(u, RefreshMarker, |base| + 4);
  }
}
