/**
  The client's token store and its authenticated request pipeline
  (`apiFetch`, `tryRefreshToken`, `storeAccessToken`, `clearAuthTokens`,
  `getAccessToken`).

  The browser's `localStorage` slot `access_token` is a `TokenStore` object;
  the server is a `Network` object that answers each request with the next
  scripted reply and records what was sent. `apiFetch` calls itself after a
  successful refresh with no bound on the number of rounds, so the model
  carries a `fuel` count; running out of fuel is an outcome of its own.
*/
module Fetch {
  import opened Wrappers
  import opened Text
  import opened JsonValues
  import Endpoints

  /** What `fetch` is called with. `body` is `Undefined` when there is none. */
  datatype Request = Request(
    url: string,
    verb: Option<string>,
    headers: map<string, string>,
    body: Json,
    credentialsIncluded: bool)

  /** The `options` argument of `apiFetch`; `verb` is its `method` (GET when absent). */
  datatype Options = Options(verb: Option<string>, headers: map<string, string>, body: Json)

  const NoOptions: Options := Options(None, map[], Undefined)

  /** A scripted answer: a status and a body that is JSON (`Some`) or not, or a rejected `fetch`. */
  datatype Reply = Reply(status: int, body: Option<Json>) | NetworkDown

  /** The ways `apiFetch` can throw. */
  datatype FetchError =
    | ApiError(message: string)  // `new Error(...)` raised by `apiFetch` itself
    | TransportError             // `fetch` rejected
    | InvalidBody                // `response.json()` rejected on a 2xx reply
    | TypeError                  // a property read on `undefined` or `null`
    | OutOfFuel                  // the model's bound on retry rounds was reached

  const SessionExpired: string := "Session expired. Please login again."
  const GenericFailure: string := "API request failed"

  /** `response.ok`. */
  predicate IsOk(status: int) { 200 <= status <= 299 }

  /** The durable `access_token` slot; `None` is `null`. */
  class TokenStore {
    var slot: Option<string>

    constructor (initial: Option<string>)
      ensures slot == initial
    {
      slot := initial;
    }

    /** `storeAccessToken(access)`; `localStorage` keeps `String(access)`. */
    method Store(access: Json)
      modifies this
      ensures slot == Some(ToJsString(access))
    {
      slot := Some(ToJsString(access));
    }

    /** `clearAuthTokens()`. */
    method Clear()
      modifies this
      ensures slot == None
    {
      slot := None;
    }

    /** `getAccessToken()`. */
    method Read() returns (t: Option<string>)
      ensures t == slot
    {
      t := slot;
    }
  }

  /** Storing then reading gives back the string form; clearing then reading gives `null`. */
  method TokenStoreRoundTrip(store: TokenStore, access: string) returns (afterStore: Option<string>, afterClear: Option<string>)
    modifies store
    ensures afterStore == Some(access)
    ensures afterClear == None && store.slot == None
  {
    store.Store(Str(access));
    afterStore := store.Read();
    store.Clear();
    afterClear := store.Read();
  }

  /** The next scripted reply; an exhausted script behaves as an unreachable server. */
  function Head(replies: seq<Reply>): Reply
  {
    if |replies| == 0 then NetworkDown else replies[0]
  }

  /** The script after the next reply is taken. */
  function Tail(replies: seq<Reply>): seq<Reply>
  {
    if |replies| == 0 then [] else replies[1..]
  }

  class Network {
    var replies: seq<Reply>
    var sent: seq<Request>

    constructor (script: seq<Reply>)
      ensures replies == script && sent == []
    {
      replies := script;
      sent := [];
    }

    /** `await fetch(...)`: record the request and take the next reply. */
    method Send(req: Request) returns (reply: Reply)
      modifies this
      ensures sent == old(sent) + [req]
      ensures reply == Head(old(replies)) && replies == Tail(old(replies))
    {
      sent := sent + [req];
      if |replies| == 0 {
        reply := NetworkDown;
      } else {
        reply := replies[0];
        replies := replies[1..];
      }
    }
  }

  /** `if (token)`: a stored empty string is falsy. */
  predicate HasToken(token: Option<string>)
  {
    token.Some? && token.value != ""
  }

  /** `defaultHeaders` after the optional bearer header is added. */
  function DefaultHeaders(token: Option<string>): (h: map<string, string>)
    ensures "Content-Type" in h && h["Content-Type"] == "application/json"
    ensures "Authorization" in h <==> HasToken(token)
    ensures HasToken(token) ==> h["Authorization"] == "Bearer " + token.value
    ensures h.Keys <= {"Content-Type", "Authorization"}
  {
    var h := map["Content-Type" := "application/json"];
    if HasToken(token) then h["Authorization" := "Bearer " + token.value] else h
  }

  /** The request `apiFetch` issues: caller headers are spread after the defaults. */
  function ApiRequest(token: Option<string>, url: Option<string>, opts: Options): Request
  {
    Request(
      if url.Some? then url.value else "undefined",
      opts.verb,
      DefaultHeaders(token) + opts.headers,
      opts.body,
      true)
  }

  /** The refresh call of `tryRefreshToken`: a credentialed POST with no headers. */
  function RefreshRequest(base: string): Request
  {
    Request(Endpoints.TokenRefresh(base), Some("POST"), map[], Undefined, true)
  }

  /** The outcome of a run against the scripted server and the token it leaves behind. */
  datatype Run<T> = Run(result: T, token: Option<string>, sent: seq<Request>, rest: seq<Reply>)

  /** `tryRefreshToken`: only an ok reply whose body is a non-null JSON value writes the store. */
  function RefreshRun(base: string, token: Option<string>, replies: seq<Reply>): Run<bool>
  {
    var reply := Head(replies);
    var rest := Tail(replies);
    var sent := [RefreshRequest(base)];
    match reply
    case NetworkDown => Run(false, token, sent, rest)
    case Reply(status, body) =>
      if !IsOk(status) || body.None? || body.value.IsNullish() then Run(false, token, sent, rest)
      else Run(true, Some(ToJsString(Prop(body.value, "access"))), sent, rest)
  }

  /** The error a non-ok reply turns into: the body's `detail` when truthy. */
  function ErrorFromBody(body: Option<Json>): (e: FetchError)
    ensures e.ApiError? || e.TypeError?
  {
    match body
    case None => ApiError(GenericFailure)  // `.catch(() => ({}))`
    case Some(data) =>
      if data.IsNullish() then TypeError
      else
        var detail := Prop(data, "detail");
        if Truthy(detail) then ApiError(ToJsString(detail)) else ApiError(GenericFailure)
  }

  /** A 401 from a URL without the refresh marker triggers a refresh (`apiFetch` line 26). */
  predicate TriggersRefresh(reply: Reply, url: Option<string>)
  {
    reply.Reply? && reply.status == 401 && url.Some? && !Includes(url.value, Endpoints.RefreshMarker)
  }

  /** The outcome of a reply that does not trigger a refresh. */
  function DirectOutcome(reply: Reply, url: Option<string>): Result<Json, FetchError>
  {
    match reply
    case NetworkDown => Failure(TransportError)
    case Reply(status, body) =>
      if status == 401 && url.None? then Failure(TypeError)  // `url.includes` on undefined
      else if !IsOk(status) then Failure(ErrorFromBody(body))
      else if body.None? then Failure(InvalidBody)
      else Success(body.value)
  }

  /** What `apiFetch(url, options)` returns or throws, the token it leaves and what it sends. */
  function ApiFetchRun(base: string, token: Option<string>, url: Option<string>, opts: Options,
                       replies: seq<Reply>, fuel: nat): Run<Result<Json, FetchError>>
    decreases fuel, 1
  {
    if fuel == 0 then Run(Failure(OutOfFuel), token, [], replies)
    else
      var req := ApiRequest(token, url, opts);
      if TriggersRefresh(Head(replies), url) then
        var after := RetryRun(base, token, url, opts, Tail(replies), fuel);
        Run(after.result, after.token, [req] + after.sent, after.rest)
      else
        Run(DirectOutcome(Head(replies), url), token, [req], Tail(replies))
  }

  /** Lines 27-32 of `apiFetch`, after the 401: refresh, then either call `apiFetch` again
      with the same arguments or fail with "Session expired". */
  function RetryRun(base: string, token: Option<string>, url: Option<string>, opts: Options,
                    replies: seq<Reply>, fuel: nat): Run<Result<Json, FetchError>>
    requires fuel > 0
    decreases fuel, 0
  {
    var refresh := RefreshRun(base, token, replies);
    if refresh.result then
      var retry := ApiFetchRun(base, refresh.token, url, opts, refresh.rest, fuel - 1);
      Run(retry.result, retry.token, refresh.sent + retry.sent, retry.rest)
    else
      Run(Failure(ApiError(SessionExpired)), refresh.token, refresh.sent, refresh.rest)
  }

  /** `tryRefreshToken()` against the network, writing the store on success. */
  method TryRefreshToken(base: string, store: TokenStore, net: Network) returns (ok: bool)
    modifies store, net
    ensures var run := RefreshRun(base, old(store.slot), old(net.replies));
      ok == run.result && store.slot == run.token &&
      net.sent == old(net.sent) + run.sent && net.replies == run.rest
  {
    var reply := net.Send(RefreshRequest(base));
    if reply.NetworkDown? {
      return false;
    }
    if !IsOk(reply.status) || reply.body.None? || reply.body.value.IsNullish() {
      return false;
    }
    store.Store(Prop(reply.body.value, "access"));
    return true;
  }

  /** `apiFetch(url, options)`. `url` is `None` when the caller passes `undefined`. */
  method ApiFetch(base: string, store: TokenStore, net: Network, url: Option<string>, opts: Options, fuel: nat)
    returns (result: Result<Json, FetchError>)
    modifies store, net
    ensures var run := ApiFetchRun(base, old(store.slot), url, opts, old(net.replies), fuel);
      result == run.result && store.slot == run.token &&
      net.sent == old(net.sent) + run.sent && net.replies == run.rest
    decreases fuel
  {
    if fuel == 0 {
      return Failure(OutOfFuel);
    }
    ghost var sent0 := net.sent;
    var req := BuildRequest(store, url, opts);
    var reply := net.Send(req);
    if TriggersRefresh(reply, url) {
      ghost var sent1 := net.sent;
      result := RefreshAndRetry(base, store, net, url, opts, fuel);
      assert net.sent == sent0 + ([req] + (net.sent[|sent1|..])) by {
        assert sent1 == sent0 + [req];
      }
    } else {
      result := Settle(reply, url);
    }
  }

  /** Lines 5-23 of `apiFetch`: default headers, the bearer header when a token is stored, then
      the caller's options spread over them. */
  method BuildRequest(store: TokenStore, url: Option<string>, opts: Options) returns (req: Request)
    ensures req == ApiRequest(store.slot, url, opts)
  {
    var headers := map["Content-Type" := "application/json"];
    var token := store.Read();
    if HasToken(token) {
      headers := headers["Authorization" := "Bearer " + token.value];
    }
    req := Request(if url.Some? then url.value else "undefined", opts.verb, headers + opts.headers, opts.body, true);
  }

  /** Lines 34-40 of `apiFetch`: the outcome of a reply that does not trigger a refresh. */
  method Settle(reply: Reply, url: Option<string>) returns (result: Result<Json, FetchError>)
    requires !TriggersRefresh(reply, url)
    ensures result == DirectOutcome(reply, url)
  {
    if reply.NetworkDown? {
      result := Failure(TransportError);
    } else if reply.status == 401 && url.None? {
      result := Failure(TypeError);
    } else if !IsOk(reply.status) {
      result := Failure(ErrorFromBody(reply.body));
    } else if reply.body.None? {
      result := Failure(InvalidBody);
    } else {
      result := Success(reply.body.value);
    }
  }

  /** Lines 26-32 of `apiFetch`: refresh after a 401 and call `apiFetch` again on success. */
  method RefreshAndRetry(base: string, store: TokenStore, net: Network, url: Option<string>, opts: Options,
                         fuel: nat)
    returns (result: Result<Json, FetchError>)
    requires fuel > 0
    modifies store, net
    ensures var run := RetryRun(base, old(store.slot), url, opts, old(net.replies), fuel);
      result == run.result && store.slot == run.token &&
      net.sent == old(net.sent) + run.sent && net.replies == run.rest
    decreases fuel, 0
  {
    var refreshed := TryRefreshToken(base, store, net);
    if refreshed {
      result := ApiFetch(base, store, net, url, opts, fuel - 1);
    } else {
      result := Failure(ApiError(SessionExpired));
    }
  }

  /** Headers of the first request: caller headers win over the defaults; without an override,
      `Content-Type` is JSON and `Authorization` is present exactly when a token is stored. */
  lemma FirstRequestHeaders(base: string, token: Option<string>, url: Option<string>, opts: Options,
                            replies: seq<Reply>, fuel: nat)
    requires fuel > 0
    ensures var req := ApiFetchRun(base, token, url, opts, replies, fuel).sent[0];
      && req.credentialsIncluded
      && req.headers.Keys == DefaultHeaders(token).Keys + opts.headers.Keys
      && (forall k :: k in opts.headers ==> req.headers[k] == opts.headers[k])
      && ("Content-Type" !in opts.headers ==> req.headers["Content-Type"] == "application/json")
      && ("Authorization" !in opts.headers ==> ("Authorization" in req.headers <==> HasToken(token)))
      && ("Authorization" !in opts.headers && HasToken(token) ==>
            req.headers["Authorization"] == "Bearer " + token.value)
  {
  }

  /** An ok reply with a JSON body is returned as is; nothing else is sent and the store is untouched. */
  lemma OkReplyReturnsBody(base: string, token: Option<string>, url: Option<string>, opts: Options,
                           status: int, body: Json, rest: seq<Reply>, fuel: nat)
    requires fuel > 0 && IsOk(status)
    ensures ApiFetchRun(base, token, url, opts, [Reply(status, Some(body))] + rest, fuel)
         == Run(Success(body), token, [ApiRequest(token, url, opts)], rest)
  {
    assert ([Reply(status, Some(body))] + rest)[1..] == rest;
  }

  /** Any other non-ok reply fails with the body's `detail`, or the generic message when it has none. */
  lemma NonOkReplyFailsWithDetail(base: string, token: Option<string>, url: Option<string>, opts: Options,
                                  status: int, fields: map<string, Json>, rest: seq<Reply>, fuel: nat)
    requires fuel > 0 && !IsOk(status) && status != 401
    ensures var run := ApiFetchRun(base, token, url, opts, [Reply(status, Some(Obj(fields)))] + rest, fuel);
      && |run.sent| == 1 && run.token == token && run.rest == rest
      && ("detail" in fields && fields["detail"].Str? && fields["detail"].s != "" ==>
            run.result == Failure(ApiError(fields["detail"].s)))
      && ("detail" !in fields ==> run.result == Failure(ApiError(GenericFailure)))
  {
    assert ([Reply(status, Some(Obj(fields)))] + rest)[1..] == rest;
  }

  /** A 401 from a URL containing `/token/refresh/` is not retried: it takes the generic error path. */
  lemma RefreshUrlIsNotRetried(base: string, token: Option<string>, u: string, opts: Options,
                               body: Option<Json>, rest: seq<Reply>, fuel: nat)
    requires fuel > 0 && Includes(u, Endpoints.RefreshMarker)
    ensures ApiFetchRun(base, token, Some(u), opts, [Reply(401, body)] + rest, fuel)
         == Run(Failure(ErrorFromBody(body)), token, [ApiRequest(token, Some(u), opts)], rest)
  {
    assert ([Reply(401, body)] + rest)[1..] == rest;
  }

  /** In particular the refresh endpoint itself is never retried. */
  lemma RefreshEndpointIsNotRetried(base: string, token: Option<string>, opts: Options,
                                    body: Option<Json>, rest: seq<Reply>, fuel: nat)
    requires fuel > 0
    ensures |ApiFetchRun(base, token, Some(Endpoints.TokenRefresh(base)), opts, [Reply(401, body)] + rest, fuel).sent| == 1
  {
    Endpoints.RefreshIsExempt(base);
    RefreshUrlIsNotRetried(base, token, Endpoints.TokenRefresh(base), opts, body, rest, fuel);
  }

  /** A 401 followed by a failed refresh ends in "Session expired", and the stored token is NOT cleared. */
  lemma FailedRefreshExpiresSession(base: string, token: Option<string>, u: string, opts: Options,
                                    body: Option<Json>, refreshReply: Reply, rest: seq<Reply>, fuel: nat)
    requires fuel > 0 && !Includes(u, Endpoints.RefreshMarker)
    requires refreshReply.NetworkDown? || !IsOk(refreshReply.status) || refreshReply.body.None?
             || refreshReply.body.value.IsNullish()
    ensures ApiFetchRun(base, token, Some(u), opts, [Reply(401, body), refreshReply] + rest, fuel)
         == Run(Failure(ApiError(SessionExpired)), token, [ApiRequest(token, Some(u), opts), RefreshRequest(base)], rest)
  {
    var script := [Reply(401, body), refreshReply] + rest;
    assert script[1..] == [refreshReply] + rest;
    assert ([refreshReply] + rest)[1..] == rest;
  }

  /** The first request of any run with fuel left is the one built from the arguments. */
  lemma FirstRequestIsApiRequest(base: string, token: Option<string>, url: Option<string>, opts: Options,
                                 replies: seq<Reply>, fuel: nat)
    requires fuel > 0
    ensures var run := ApiFetchRun(base, token, url, opts, replies, fuel);
      |run.sent| > 0 && run.sent[0] == ApiRequest(token, url, opts)
  {
  }

  /** An ok refresh reply with a non-null body stores `String(data.access)`. */
  lemma RefreshStoresAccess(base: string, token: Option<string>, status: int, data: Json, rest: seq<Reply>)
    requires IsOk(status) && !data.IsNullish()
    ensures RefreshRun(base, token, [Reply(status, Some(data))] + rest)
         == Run(true, Some(ToJsString(Prop(data, "access"))), [RefreshRequest(base)], rest)
  {
    assert ([Reply(status, Some(data))] + rest)[1..] == rest;
  }

  /** After a successful refresh the call is re-issued with the renewed token. */
  lemma RetryAfterRefresh(base: string, token: Option<string>, url: Option<string>, opts: Options,
                          status: int, data: Json, rest: seq<Reply>, fuel: nat)
    requires fuel > 0 && IsOk(status) && !data.IsNullish()
    ensures var retry := ApiFetchRun(base, Some(ToJsString(Prop(data, "access"))), url, opts, rest, fuel - 1);
      RetryRun(base, token, url, opts, [Reply(status, Some(data))] + rest, fuel)
        == Run(retry.result, retry.token, [RefreshRequest(base)] + retry.sent, retry.rest)
  {
    RefreshStoresAccess(base, token, status, data, rest);
  }

  /** A 401 followed by a successful refresh re-issues the same url and options, carrying the
      freshly stored token, and the outcome is that of the re-issued call. */
  lemma RetryUsesRefreshedToken(base: string, token: Option<string>, u: string, opts: Options,
                                body: Option<Json>, refreshStatus: int, data: Json, rest: seq<Reply>, fuel: nat)
    requires fuel > 1 && !Includes(u, Endpoints.RefreshMarker)
    requires IsOk(refreshStatus) && !data.IsNullish()
    ensures var renewed := Some(ToJsString(Prop(data, "access")));
      var retry := ApiFetchRun(base, renewed, Some(u), opts, rest, fuel - 1);
      var run := ApiFetchRun(base, token, Some(u), opts, [Reply(401, body), Reply(refreshStatus, Some(data))] + rest, fuel);
      && run == Run(retry.result, retry.token, [ApiRequest(token, Some(u), opts), RefreshRequest(base)] + retry.sent, retry.rest)
      && run.sent[2] == ApiRequest(renewed, Some(u), opts)
  {
    var tail := [Reply(refreshStatus, Some(data))] + rest;
    assert ([Reply(401, body)] + tail)[1..] == tail;
    assert [Reply(401, body), Reply(refreshStatus, Some(data))] + rest == [Reply(401, body)] + tail;
    RetryAfterRefresh(base, token, Some(u), opts, refreshStatus, data, rest, fuel);
    FirstRequestIsApiRequest(base, Some(ToJsString(Prop(data, "access"))), Some(u), opts, rest, fuel - 1);
  }

  /** `n` rounds of "401, then a successful refresh", then an ok reply. */
  function RetryScript(n: nat, access: string, final: Json): (script: seq<Reply>)
    ensures |script| == 2 * n + 1
  {
    if n == 0 then [Reply(200, Some(final))]
    else [Reply(401, None), Reply(200, Some(Obj(map["access" := Str(access)])))] + RetryScript(n - 1, access, final)
  }

  /** There is no cap on retries: every round of 401-then-refresh is followed by another attempt,
      so `n` rounds send `2n + 1` requests and still succeed. */
  lemma {:induction false} RetriesAreUnbounded(base: string, token: Option<string>, u: string, opts: Options,
                                               n: nat, access: string, final: Json, fuel: nat)
    requires !Includes(u, Endpoints.RefreshMarker) && fuel > n
    ensures var run := ApiFetchRun(base, token, Some(u), opts, RetryScript(n, access, final), fuel);
      && run.result == Success(final)
      && |run.sent| == 2 * n + 1
      && run.rest == []
      && run.token == (if n == 0 then token else Some(access))
    decreases n
  {
    if n == 0 {
      OkReplyReturnsBody(base, token, Some(u), opts, 200, final, [], fuel);
      assert RetryScript(0, access, final) == [Reply(200, Some(final))] + [];
    } else {
      var data := Obj(map["access" := Str(access)]);
      var rest := RetryScript(n - 1, access, final);
      assert RetryScript(n, access, final) == [Reply(401, None), Reply(200, Some(data))] + rest;
      assert ToJsString(Prop(data, "access")) == access;
      var retry := ApiFetchRun(base, Some(access), Some(u), opts, rest, fuel - 1);
      RetriesAreUnbounded(base, Some(access), u, opts, n - 1, access, final, fuel - 1);
      assert retry.result == Success(final) && |retry.sent| == 2 * (n - 1) + 1;
      RetryUsesRefreshedToken(base, token, u, opts, None, 200, data, rest, fuel);
      var run := ApiFetchRun(base, token, Some(u), opts, RetryScript(n, access, final), fuel);
      assert run == Run(retry.result, retry.token, [ApiRequest(token, Some(u), opts), RefreshRequest(base)] + retry.sent, retry.rest);
    }
  }
}
