/**
  The session controller (`AuthProvider`): four pieces of React state updated
  step by step by the startup check, `login`, `register` and `logout`, on top
  of the token store and the request pipeline of module Fetch.

  The current-user lookup reads `API.USERS.ME`, which does not exist, so it
  calls `apiFetch(undefined)`: the request goes to the relative URL
  "undefined", and a 401 answer makes `url.includes` throw.
*/
module AuthContext {
  import opened Wrappers
  import opened JsonValues
  import Endpoints
  import opened Fetch

  /** `authModalType`: `null`, `'login'` or `'register'`. */
  datatype ModalType = NoModal | LoginModal | RegisterModal

  /** What `login` and `register` resolve to: `{success: true}` or `{success: false, error}`. */
  datatype LoginResult = LoginSucceeded | LoginFailed(error: FetchError)

  /** The object the session's own `tryRefreshToken` resolves to. */
  datatype RefreshData = RefreshData(access: Json, user: Json)

  /** A login outcome together with the user value `login` stores on success. */
  datatype LoginStep = LoginStep(outcome: LoginResult, user: Json)

  /** The URL the current-user lookup passes to `apiFetch`. */
  function MeUrl(base: string): Option<string>
  {
    Endpoints.Entry(base, Endpoints.Users, "ME")
  }

  /** `getUserData()`: the body `apiFetch` returns, or `null` when it throws. */
  function UserDataRun(base: string, token: Option<string>, replies: seq<Reply>, fuel: nat): Run<Json>
  {
    var call := ApiFetchRun(base, token, MeUrl(base), NoOptions, replies, fuel);
    Run(if call.result.Success? then call.result.value else Null, call.token, call.sent, call.rest)
  }

  /** The user object of a refresh reply: `data.user`, or else one built from top-level fields. */
  function RefreshedUser(data: Json): Json
    requires !data.IsNullish()
  {
    Or(Prop(data, "user"),
       Obj(map["id" := Prop(data, "id"), "username" := Prop(data, "username"),
               "first_name" := Prop(data, "first_name"), "last_name" := Prop(data, "last_name")]))
  }

  /** The session's `tryRefreshToken()`: `null` unless the reply is ok with a non-null JSON body. */
  function SessionRefreshRun(base: string, token: Option<string>, replies: seq<Reply>): Run<Option<RefreshData>>
  {
    var reply := Head(replies);
    var rest := Tail(replies);
    var sent := [RefreshRequest(base)];
    match reply
    case NetworkDown => Run(None, token, sent, rest)
    case Reply(status, body) =>
      if !IsOk(status) || body.None? || body.value.IsNullish() then Run(None, token, sent, rest)
      else
        var data := body.value;
        Run(Some(RefreshData(Prop(data, "access"), RefreshedUser(data))),
            Some(ToJsString(Prop(data, "access"))), sent, rest)
  }

  function PostOptions(body: Json): Options
  {
    Options(Some("POST"), map[], body)
  }

  /** `login(credentials)`. */
  function LoginRun(base: string, token: Option<string>, credentials: Json, replies: seq<Reply>, fuel: nat): Run<LoginStep>
  {
    var call := ApiFetchRun(base, token, Some(Endpoints.Login(base)), PostOptions(credentials), replies, fuel);
    if call.result.Failure? then
      Run(LoginStep(LoginFailed(call.result.error), Null), call.token, call.sent, call.rest)
    else if call.result.value.IsNullish() then
      Run(LoginStep(LoginFailed(TypeError), Null), call.token, call.sent, call.rest)  // `data.access` on null
    else
      var stored := Some(ToJsString(Prop(call.result.value, "access")));
      var lookup := UserDataRun(base, stored, call.rest, fuel);
      Run(LoginStep(LoginSucceeded, lookup.result), lookup.token, call.sent + lookup.sent, lookup.rest)
  }

  /** The credentials `register` logs in with: the registration's own username and password. */
  function CredentialsOf(userData: map<string, Json>): Json
  {
    Obj(map["username" := Prop(Obj(userData), "username"), "password" := Prop(Obj(userData), "password")])
  }

  /** The logout request: it always carries a bearer header, `Bearer null` when no token is stored. */
  function LogoutRequest(base: string, token: Option<string>): Request
  {
    Request(Endpoints.Logout(base), Some("POST"),
            map["Content-Type" := "application/json",
                "Authorization" := "Bearer " + (if token.Some? then token.value else "null")],
            Undefined, true)
  }

  /** The current-user lookup is one request to the relative URL "undefined" that never
      refreshes and leaves the token alone; a network failure, any non-ok reply (a 401
      included) or a non-JSON body all come back as `null`, and an ok JSON reply yields its body. */
  lemma UserLookupIsOneRequest(base: string, token: Option<string>, replies: seq<Reply>, fuel: nat)
    requires fuel > 0
    ensures var run := UserDataRun(base, token, replies, fuel);
      && run.token == token && run.rest == Tail(replies)
      && run.sent == [ApiRequest(token, None, NoOptions)] && run.sent[0].url == "undefined"
      && (Head(replies).NetworkDown? ==> run.result == Null)
      && (Head(replies).Reply? && Head(replies).status == 401 ==> run.result == Null)
      && (Head(replies).Reply? && !IsOk(Head(replies).status) ==> run.result == Null)
      && (Head(replies).Reply? && Head(replies).body.None? ==> run.result == Null)
      && (Head(replies).Reply? && IsOk(Head(replies).status) && Head(replies).body.Some? ==>
            run.result == Head(replies).body.value)
  {
    Endpoints.MeOnlyUnderAuth(base);
  }

  /** The session's refresh: an ok JSON reply stores `String(data.access)` and answers the user
      from `data.user` when it is truthy, else from the top-level fields; any other reply
      answers `null` and leaves the stored token as it was. */
  lemma SessionRefreshRules(base: string, token: Option<string>, replies: seq<Reply>)
    ensures var run := SessionRefreshRun(base, token, replies);
      var reply := Head(replies);
      && run.sent == [RefreshRequest(base)] && run.rest == Tail(replies)
      && (run.result.Some? <==>
            reply.Reply? && IsOk(reply.status) && reply.body.Some? && !reply.body.value.IsNullish())
      && (run.result.None? ==> run.token == token)
      && (run.result.Some? ==>
            var data := reply.body.value;
            && run.token == Some(ToJsString(Prop(data, "access")))
            && run.result.value.access == Prop(data, "access")
            && (Truthy(Prop(data, "user")) ==> run.result.value.user == Prop(data, "user"))
            && (!Truthy(Prop(data, "user")) ==>
                  run.result.value.user.Obj? && run.result.value.user.fields.Keys ==
                    {"id", "username", "first_name", "last_name"}))
  {
  }

  /** A login whose first reply is ok with a JSON object succeeds whatever the user lookup
      answers: the lookup runs with the returned access token, and the user it answers,
      `null` included, is the user stored. */
  lemma LoginSucceedsWhateverTheLookup(base: string, token: Option<string>, credentials: Json,
                                       status: int, data: Json, rest: seq<Reply>, fuel: nat)
    requires fuel > 0 && IsOk(status) && !data.IsNullish()
    ensures var run := LoginRun(base, token, credentials, [Reply(status, Some(data))] + rest, fuel);
      var lookup := UserDataRun(base, Some(ToJsString(Prop(data, "access"))), rest, fuel);
      && run.result == LoginStep(LoginSucceeded, lookup.result)
      && run.token == Some(ToJsString(Prop(data, "access")))
      && run.sent == [ApiRequest(token, Some(Endpoints.Login(base)), PostOptions(credentials))] + lookup.sent
  {
    var replies := [Reply(status, Some(data))] + rest;
    assert Head(replies) == Reply(status, Some(data)) && Tail(replies) == rest;
    UserLookupIsOneRequest(base, Some(ToJsString(Prop(data, "access"))), rest, fuel);
  }

  /** A failed login changes no session value and reports the error `apiFetch` threw. */
  lemma FailedLoginReportsError(base: string, token: Option<string>, credentials: Json, replies: seq<Reply>, fuel: nat)
    ensures var call := ApiFetchRun(base, token, Some(Endpoints.Login(base)), PostOptions(credentials), replies, fuel);
      var run := LoginRun(base, token, credentials, replies, fuel);
      && (call.result.Failure? ==>
            run.result == LoginStep(LoginFailed(call.result.error), Null) && run.token == call.token && run.sent == call.sent)
      && (run.result.outcome.LoginSucceeded? <==> call.result.Success? && !call.result.value.IsNullish())
  {
  }

  class AuthProvider {
    const base: string
    const store: TokenStore
    const net: Network
    var user: Json
    var isAuthenticated: bool
    var isLoading: bool
    var authModalType: ModalType

    /** The initial state: no user, not authenticated, loading, no modal. */
    constructor (base: string, store: TokenStore, net: Network)
      ensures this.base == base && this.store == store && this.net == net
      ensures user == Null && !isAuthenticated && isLoading && authModalType == NoModal
    {
      this.base := base;
      this.store := store;
      this.net := net;
      user := Null;
      isAuthenticated := false;
      isLoading := true;
      authModalType := NoModal;
    }

    /** `setAuthModalType`, which the provider exposes to the UI. */
    method SetAuthModalType(m: ModalType)
      modifies this
      ensures authModalType == m
      ensures user == old(user) && isAuthenticated == old(isAuthenticated) && isLoading == old(isLoading)
    {
      authModalType := m;
    }

    method GetUserData(fuel: nat) returns (userData: Json)
      modifies store, net
      ensures var run := UserDataRun(base, old(store.slot), old(net.replies), fuel);
        userData == run.result && store.slot == run.token &&
        net.sent == old(net.sent) + run.sent && net.replies == run.rest
    {
      var r := ApiFetch(base, store, net, MeUrl(base), NoOptions, fuel);
      userData := if r.Success? then r.value else Null;
    }

    method TryRefreshSession() returns (data: Option<RefreshData>)
      modifies store, net
      ensures var run := SessionRefreshRun(base, old(store.slot), old(net.replies));
        data == run.result && store.slot == run.token &&
        net.sent == old(net.sent) + run.sent && net.replies == run.rest
    {
      var reply := net.Send(RefreshRequest(base));
      if reply.NetworkDown? || !IsOk(reply.status) || reply.body.None? || reply.body.value.IsNullish() {
        return None;
      }
      var body := reply.body.value;
      var userData := RefreshedUser(body);
      store.Store(Prop(body, "access"));
      return Some(RefreshData(Prop(body, "access"), userData));
    }

    /** `checkAuth`, run once on mount. */
    method CheckAuth(fuel: nat)
      modifies this, store, net
      ensures !isLoading
      ensures var fetched := UserDataRun(base, old(store.slot), old(net.replies), fuel);
        var refresh := SessionRefreshRun(base, fetched.token, fetched.rest);
        if Truthy(fetched.result) then
          && user == fetched.result && isAuthenticated && authModalType == old(authModalType)
          && store.slot == fetched.token && net.sent == old(net.sent) + fetched.sent && net.replies == fetched.rest
        else
          && store.slot == refresh.token && net.sent == old(net.sent) + fetched.sent + refresh.sent
          && net.replies == refresh.rest
          && if refresh.result.Some? then
               user == refresh.result.value.user && isAuthenticated && authModalType == old(authModalType)
             else
               user == old(user) && isAuthenticated == old(isAuthenticated) && authModalType == LoginModal
    {
      isLoading := true;
      var userData := GetUserData(fuel);
      if Truthy(userData) {
        user := userData;
        isAuthenticated := true;
      } else {
        var refreshData := TryRefreshSession();
        if refreshData.Some? {
          user := refreshData.value.user;
          isAuthenticated := true;
        } else {
          authModalType := LoginModal;
        }
      }
      isLoading := false;
    }

    /** `login(credentials)`: on success stores the token, looks the user up and opens the session. */
    method Login(credentials: Json, fuel: nat) returns (outcome: LoginResult)
      modifies this, store, net
      ensures var run := LoginRun(base, old(store.slot), credentials, old(net.replies), fuel);
        && outcome == run.result.outcome && store.slot == run.token
        && net.sent == old(net.sent) + run.sent && net.replies == run.rest
        && isLoading == old(isLoading)
        && (outcome.LoginSucceeded? ==> user == run.result.user && isAuthenticated && authModalType == NoModal)
        && (outcome.LoginFailed? ==>
              user == old(user) && isAuthenticated == old(isAuthenticated) && authModalType == old(authModalType))
    {
      var r := ApiFetch(base, store, net, Some(Endpoints.Login(base)), PostOptions(credentials), fuel);
      if r.Failure? {
        return LoginFailed(r.error);
      }
      if r.value.IsNullish() {
        return LoginFailed(TypeError);
      }
      OpenSession(Prop(r.value, "access"), fuel);
      return LoginSucceeded;
    }

    /** The success path of `login`: store the access token, look the user up, close the modal. */
    method OpenSession(access: Json, fuel: nat)
      modifies this, store, net
      ensures var lookup := UserDataRun(base, Some(ToJsString(access)), old(net.replies), fuel);
        && user == lookup.result && isAuthenticated && authModalType == NoModal && isLoading == old(isLoading)
        && store.slot == lookup.token && net.sent == old(net.sent) + lookup.sent && net.replies == lookup.rest
    {
      store.Store(access);
      var userData := GetUserData(fuel);
      user := userData;
      isAuthenticated := true;
      authModalType := NoModal;
    }

    /** `register(userData)`: logs in with the same username and password only after registering. */
    method Register(userData: map<string, Json>, fuel: nat) returns (outcome: LoginResult)
      modifies this, store, net
      ensures isLoading == old(isLoading)
      ensures var call := ApiFetchRun(base, old(store.slot), Some(Endpoints.Register(base)), PostOptions(Obj(userData)),
                                      old(net.replies), fuel);
        if call.result.Failure? then
          && outcome == LoginFailed(call.result.error)
          && store.slot == call.token && net.sent == old(net.sent) + call.sent && net.replies == call.rest
          && user == old(user) && isAuthenticated == old(isAuthenticated) && authModalType == old(authModalType)
        else
          var login := LoginRun(base, call.token, CredentialsOf(userData), call.rest, fuel);
          && outcome == login.result.outcome
          && store.slot == login.token && net.sent == old(net.sent) + call.sent + login.sent && net.replies == login.rest
          && (outcome.LoginSucceeded? ==> user == login.result.user && isAuthenticated && authModalType == NoModal)
          && (outcome.LoginFailed? ==>
                user == old(user) && isAuthenticated == old(isAuthenticated) && authModalType == old(authModalType))
    {
      var r := ApiFetch(base, store, net, Some(Endpoints.Register(base)), PostOptions(Obj(userData)), fuel);
      if r.Failure? {
        return LoginFailed(r.error);
      }
      outcome := Login(CredentialsOf(userData), fuel);
    }

    /** `logout()`: whatever the server answers, the token is cleared and the session closed. */
    method Logout()
      modifies this, store, net
      ensures store.slot == None && user == Null && !isAuthenticated && authModalType == LoginModal
      ensures isLoading == old(isLoading)
      ensures net.sent == old(net.sent) + [LogoutRequest(base, old(store.slot))]
      ensures net.replies == Tail(old(net.replies))
    {
      var token := store.Read();
      var _ := net.Send(LogoutRequest(base, token));
      store.Clear();
      user := Null;
      isAuthenticated := false;
      authModalType := LoginModal;
    }
  }
}
