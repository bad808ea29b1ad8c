/**
 * The client's `ApiService`: each endpoint method builds a verb, a path under `/api` and a
 * JSON body, and `request` turns the `fetch` outcome into a value or an error.
 */
module Api {
  import opened Wrappers
  import opened Text
  import opened Http
  import ServerRoutes

  const ApiPrefix: string := "/api"
  const JsonContentType: Header := Header("Content-Type", "application/json")
  const HttpErrorPrefix: string := "HTTP error! status: "

  /** A request body; `Option` fields are the optional ones `JSON.stringify` leaves out when undefined. */
  datatype Payload =
    | NoBody
    | UserBody(email: string, name: string, picture: Option<string>)
    | HabitBody(name: string, category: string, targetValue: Option<string>, unit: Option<string>)
    | LogBody(habitId: string, value: string, notes: Option<string>)
    | ChatBody(message: string)
    | SessionBody(sessionId: string)

  /** One call of an `ApiService` method with its arguments; `None` is an omitted `limit`. */
  datatype Endpoint =
    | CreateUser(email: string, name: string, picture: Option<string>)
    | GetUser(userId: string)
    | UpdateUserScore(userId: string)
    | CreateHabit(userId: string, name: string, category: string, targetValue: Option<string>, unit: Option<string>)
    | GetUserHabits(userId: string)
    | DeleteHabit(habitId: string)
    | LogHabit(userId: string, habitId: string, value: string, notes: Option<string>)
    | GetHabitLogs(userId: string, limit: Option<nat>)
    | SendChatMessage(userId: string, message: string)
    | GetChatHistory(userId: string, limit: Option<nat>)
    | GetLeaderboard(limit: Option<nat>)

  datatype Call = Call(verb: Method, path: string, body: Payload)

  /** What `fetch` is given. */
  datatype Fetch = Fetch(url: string, verb: Method, headers: seq<Header>, body: Payload)

  datatype ApiError = HttpStatus(status: nat, message: string) | Network | BadJson

  function LimitOr(limit: Option<nat>, default: nat): nat {
    if limit.Some? then limit.value else default
  }

  /** The verb, path and body each endpoint method hands to `request`. */
  function CallOf(e: Endpoint): Call {
    match e
    case CreateUser(email, name, picture) => Call(Post, "/users", UserBody(email, name, picture))
    case GetUser(id) => Call(Get, "/users/" + id, NoBody)
    case UpdateUserScore(id) => Call(Put, "/users/" + id + "/score", NoBody)
    case CreateHabit(id, name, category, target, unit) =>
      Call(Post, "/users/" + id + "/habits", HabitBody(name, category, target, unit))
    case GetUserHabits(id) => Call(Get, "/users/" + id + "/habits", NoBody)
    case DeleteHabit(id) => Call(Delete, "/habits/" + id, NoBody)
    case LogHabit(id, habitId, value, notes) =>
      Call(Post, "/users/" + id + "/habit-logs", LogBody(habitId, value, notes))
    case GetHabitLogs(id, limit) =>
      Call(Get, "/users/" + id + "/habit-logs?limit=" + NatToString(LimitOr(limit, 50)), NoBody)
    case SendChatMessage(id, message) => Call(Post, "/users/" + id + "/chat", ChatBody(message))
    case GetChatHistory(id, limit) =>
      Call(Get, "/users/" + id + "/chat?limit=" + NatToString(LimitOr(limit, 50)), NoBody)
    case GetLeaderboard(limit) => Call(Get, "/leaderboard?limit=" + NatToString(LimitOr(limit, 100)), NoBody)
  }

  /** `request`'s `fetch` arguments: the URL under the `/api` base, and the JSON content type. */
  function FetchOf(base: string, c: Call): (f: Fetch)
    ensures |f.url| == |base| + |ApiPrefix| + |c.path|
    ensures f.url[..|base|] == base && f.url[|base|..] == ApiPrefix + c.path
    ensures f.headers == [JsonContentType] && f.verb == c.verb && f.body == c.body
  {
    Fetch(base + ApiPrefix + c.path, c.verb, [JsonContentType], c.body)
  }

  /** The text of the error `request` throws for a non-2xx status. */
  function HttpErrorMessage(status: nat): string {
    HttpErrorPrefix + NatToString(status)
  }

  /** Reads the status back out of an error message. */
  function StatusOfMessage(message: string): Option<nat> {
    if |HttpErrorPrefix| < |message| && message[..|HttpErrorPrefix|] == HttpErrorPrefix
       && AllDigits(message[|HttpErrorPrefix|..])
    then Some(DecimalValue(message[|HttpErrorPrefix|..]))
    else None
  }

  /** The message of a status error names exactly that status. */
  lemma {:induction false} ErrorMessageNamesStatus(status: nat)
    ensures StatusOfMessage(HttpErrorMessage(status)) == Some(status)
  {
    var m := HttpErrorMessage(status);
    assert m[|HttpErrorPrefix|..] == NatToString(status);
    DecimalRoundTrip(status);
  }

  /**
   * `request`: the decoded body on a 2xx status, an error naming the status otherwise, and the
   * `fetch` or `json()` failure rethrown unchanged; there is no retry.
   */
  function Request<T>(reply: Reply<T>): (r: Result<T, ApiError>)
    ensures r.Ok? <==> reply.Response? && IsOk(reply.status) && reply.body.Some?
    ensures r.Ok? ==> r.value == reply.body.value
    ensures reply.Response? && !IsOk(reply.status) ==>
              r == Err(HttpStatus(reply.status, HttpErrorMessage(reply.status)))
    ensures reply.Response? && IsOk(reply.status) && reply.body.None? ==> r == Err(BadJson)
    ensures reply.NetworkFailure? ==> r == Err(Network)
  {
    match reply
    case NetworkFailure => Err(Network)
    case Response(status, body) =>
      if !IsOk(status) then Err(HttpStatus(status, HttpErrorMessage(status)))
      else if body.None? then Err(BadJson)
      else Ok(body.value)
  }

  // ---------------------------------------------------------------------------------------
  // Client paths against the server's router

  /** The path parameters of an endpoint. */
  function IdsOf(e: Endpoint): seq<string> {
    match e
    case CreateUser(_, _, _) => []
    case GetUser(id) => [id]
    case UpdateUserScore(id) => [id]
    case CreateHabit(id, _, _, _, _) => [id]
    case GetUserHabits(id) => [id]
    case DeleteHabit(id) => [id]
    case LogHabit(id, _, _, _) => [id]
    case GetHabitLogs(id, _) => [id]
    case SendChatMessage(id, _) => [id]
    case GetChatHistory(id, _) => [id]
    case GetLeaderboard(_) => []
  }

  /** The server handler each endpoint is meant for, with the `limit` the client sends. */
  function RouteOf(e: Endpoint): ServerRoutes.Route {
    match e
    case CreateUser(_, _, _) => ServerRoutes.CreateUser
    case GetUser(id) => ServerRoutes.GetUser(id)
    case UpdateUserScore(id) => ServerRoutes.UpdateUserScore(id)
    case CreateHabit(id, _, _, _, _) => ServerRoutes.CreateHabit(id)
    case GetUserHabits(id) => ServerRoutes.ListHabits(id)
    case DeleteHabit(id) => ServerRoutes.DeleteHabit(id)
    case LogHabit(id, _, _, _) => ServerRoutes.LogHabit(id)
    case GetHabitLogs(id, limit) => ServerRoutes.ListHabitLogs(id, LimitOr(limit, 50))
    case SendChatMessage(id, _) => ServerRoutes.SendChatMessage(id)
    case GetChatHistory(id, limit) => ServerRoutes.ChatHistory(id, LimitOr(limit, 50))
    case GetLeaderboard(limit) => ServerRoutes.Leaderboard(LimitOr(limit, 100))
  }

  /** A string holding neither separator is left alone by joining. */
  lemma {:induction false} JoinAvoids(parts: seq<string>, sep: char, c: char)
    requires |parts| >= 1 && c != sep
    requires forall i :: 0 <= i < |parts| ==> c !in parts[i]
    ensures c !in Join(parts, sep)
  {
    if |parts| > 1 {
      JoinAvoids(parts[1..], sep, c);
    }
  }

  /** The router's view of a target built from `/`-joined segments and a query. */
  lemma TargetParts(segs: seq<string>, query: string)
    requires |segs| >= 1
    requires forall i :: 0 <= i < |segs| ==> '/' !in segs[i] && '?' !in segs[i]
    requires query == [] || query[0] == '?'
    ensures var target := Join(segs, '/') + query;
            && BeforeFirst(target, '?') == Join(segs, '/')
            && Split(BeforeFirst(target, '?'), '/') == segs
            && target[|Join(segs, '/')|..] == query
  {
    var path := Join(segs, '/');
    JoinAvoids(segs, '/', '?');
    JoinSplit(segs, '/');
    if query == [] {
      assert path + query == path;
    } else {
      assert path + query == path + ['?'] + query[1..];
      SplitAfterSeparator(path, query[1..], '?');
    }
  }

  lemma TopPathJoin(top: string)
    ensures "/api/" + top == Join(["", "api", top], '/')
  {
    JoinCons("api", [top], '/');
    JoinCons("", ["api", top], '/');
  }

  lemma IdPathJoin(top: string, id: string)
    ensures "/api/" + top + "/" + id == Join(["", "api", top, id], '/')
  {
    JoinCons(top, [id], '/');
    JoinCons("api", [top, id], '/');
    JoinCons("", ["api", top, id], '/');
  }

  lemma UserPathJoin(id: string, sub: string)
    ensures "/api/users/" + id + "/" + sub == Join(["", "api", "users", id, sub], '/')
  {
    JoinCons(id, [sub], '/');
    JoinCons("users", [id, sub], '/');
    JoinCons("api", ["users", id, sub], '/');
    JoinCons("", ["api", "users", id, sub], '/');
  }

  /** How the router sees `/api/<top>` followed by a query. */
  lemma TopTarget(top: string, q: string)
    requires '/' !in top && '?' !in top
    requires q == [] || q[0] == '?'
    ensures Split(BeforeFirst("/api/" + top + q, '?'), '/') == ["", "api", top]
    ensures ("/api/" + top + q)[|BeforeFirst("/api/" + top + q, '?')|..] == q
  {
    TopPathJoin(top);
    TargetParts(["", "api", top], q);
  }

  /** How the router sees `/api/<top>/<id>`. */
  lemma IdTarget(top: string, id: string)
    requires '/' !in top && '?' !in top && ServerRoutes.IsSegment(id)
    ensures Split(BeforeFirst("/api/" + top + "/" + id, '?'), '/') == ["", "api", top, id]
    ensures ("/api/" + top + "/" + id)[|BeforeFirst("/api/" + top + "/" + id, '?')|..] == ""
  {
    var segs := ["", "api", top, id];
    IdPathJoin(top, id);
    TargetParts(segs, "");
    assert Join(segs, '/') + "" == Join(segs, '/');
  }

  /** How the router sees `/api/users/<id>/<sub>` followed by a query. */
  lemma UserTarget(id: string, sub: string, q: string)
    requires ServerRoutes.IsSegment(id) && '/' !in sub && '?' !in sub
    requires q == [] || q[0] == '?'
    ensures Split(BeforeFirst("/api/users/" + id + "/" + sub + q, '?'), '/') == ["", "api", "users", id, sub]
    ensures ("/api/users/" + id + "/" + sub + q)[|BeforeFirst("/api/users/" + id + "/" + sub + q, '?')|..] == q
  {
    var segs := ["", "api", "users", id, sub];
    UserPathJoin(id, sub);
    TargetParts(segs, q);
  }

  /** The `/api` base followed by a user sub-resource path. */
  lemma UserSubPath(id: string, sub: string)
    ensures ApiPrefix + ("/users/" + id + ("/" + sub)) == "/api/users/" + id + "/" + sub + ""
  {
    assert ApiPrefix + "/users/" == "/api/users/";
  }

  /** The `/api` base followed by a user sub-resource path and a limit query. */
  lemma UserQueryPath(id: string, sub: string, ns: string)
    ensures ApiPrefix + ("/users/" + id + ("/" + sub + "?limit=") + ns)
            == "/api/users/" + id + "/" + sub + ("?limit=" + ns)
  {
    assert ApiPrefix + "/users/" == "/api/users/";
  }

  lemma ReachesUserSub(verb: Method, id: string, sub: string)
    requires ServerRoutes.IsSegment(id)
    requires '/' !in sub && '?' !in sub
    ensures var r := ServerRoutes.Resolve(verb, "/api/users/" + id + "/" + sub + "");
            && (sub == "score" && verb == Put ==> r == Ok(ServerRoutes.UpdateUserScore(id)))
            && (sub == "habits" && verb == Post ==> r == Ok(ServerRoutes.CreateHabit(id)))
            && (sub == "habits" && verb == Get ==> r == Ok(ServerRoutes.ListHabits(id)))
            && (sub == "habit-logs" && verb == Post ==> r == Ok(ServerRoutes.LogHabit(id)))
            && (sub == "chat" && verb == Post ==> r == Ok(ServerRoutes.SendChatMessage(id)))
  {
    assert ServerRoutes.Resolve(verb, "/api/users/" + id + "/" + sub + "")
        == ServerRoutes.Dispatch(verb, ["", "api", "users", id, sub], "") by {
      UserTarget(id, sub, "");
    }
    DispatchUserSub(verb, id, sub);
  }

  lemma DispatchUserSub(verb: Method, id: string, sub: string)
    requires ServerRoutes.IsSegment(id)
    ensures var r := ServerRoutes.Dispatch(verb, ["", "api", "users", id, sub], "");
            && (sub == "score" && verb == Put ==> r == Ok(ServerRoutes.UpdateUserScore(id)))
            && (sub == "habits" && verb == Post ==> r == Ok(ServerRoutes.CreateHabit(id)))
            && (sub == "habits" && verb == Get ==> r == Ok(ServerRoutes.ListHabits(id)))
            && (sub == "habit-logs" && verb == Post ==> r == Ok(ServerRoutes.LogHabit(id)))
            && (sub == "chat" && verb == Post ==> r == Ok(ServerRoutes.SendChatMessage(id)))
  {
  }

  lemma ReachesUserQuery(id: string, sub: string, n: nat)
    requires ServerRoutes.IsSegment(id)
    requires sub == "habit-logs" || sub == "chat"
    ensures var r := ServerRoutes.Resolve(Get, "/api/users/" + id + "/" + sub + ("?limit=" + NatToString(n)));
            && (sub == "habit-logs" ==> r == Ok(ServerRoutes.ListHabitLogs(id, n)))
            && (sub == "chat" ==> r == Ok(ServerRoutes.ChatHistory(id, n)))
  {
    var q := "?limit=" + NatToString(n);
    assert ServerRoutes.Resolve(Get, "/api/users/" + id + "/" + sub + q)
        == ServerRoutes.Dispatch(Get, ["", "api", "users", id, sub], q) by {
      UserTarget(id, sub, q);
    }
    assert ServerRoutes.LimitParam(q, 50) == Ok(n) by {
      ServerRoutes.LimitParamRoundTrip(n, 50);
    }
    DispatchUserQuery(id, sub, q, n);
  }

  lemma DispatchUserQuery(id: string, sub: string, q: string, n: nat)
    requires ServerRoutes.IsSegment(id)
    requires sub == "habit-logs" || sub == "chat"
    requires ServerRoutes.LimitParam(q, 50) == Ok(n)
    ensures var r := ServerRoutes.Dispatch(Get, ["", "api", "users", id, sub], q);
            && (sub == "habit-logs" ==> r == Ok(ServerRoutes.ListHabitLogs(id, n)))
            && (sub == "chat" ==> r == Ok(ServerRoutes.ChatHistory(id, n)))
  {
    var segs := ["", "api", "users", id, sub];
    assert |segs| == 5 && segs[0] == "" && segs[1] == "api" && segs[2] == "users" && segs[3] == id && segs[4] == sub;
    if sub == "habit-logs" {
      assert ServerRoutes.MatchRoute(Get, segs, q) == Ok(ServerRoutes.ListHabitLogs(id, n));
    } else {
      assert ServerRoutes.MatchRoute(Get, segs, q) == Ok(ServerRoutes.ChatHistory(id, n));
    }
  }

  lemma ReachesCreateUser()
    ensures ServerRoutes.Resolve(Post, "/api/" + "users" + "") == Ok(ServerRoutes.CreateUser)
  {
    TopTarget("users", "");
    assert ServerRoutes.Resolve(Post, "/api/" + "users" + "")
        == ServerRoutes.Dispatch(Post, ["", "api", "users"], "");
  }

  lemma ReachesLeaderboard(n: nat)
    ensures ServerRoutes.Resolve(Get, "/api/" + "leaderboard" + ("?limit=" + NatToString(n)))
            == Ok(ServerRoutes.Leaderboard(n))
  {
    var q := "?limit=" + NatToString(n);
    assert ServerRoutes.Resolve(Get, "/api/" + "leaderboard" + q)
        == ServerRoutes.Dispatch(Get, ["", "api", "leaderboard"], q) by {
      TopTarget("leaderboard", q);
    }
    assert ServerRoutes.LimitParam(q, 100) == Ok(n) by {
      ServerRoutes.LimitParamRoundTrip(n, 100);
    }
    DispatchLeaderboard(q, n);
  }

  lemma DispatchLeaderboard(q: string, n: nat)
    requires ServerRoutes.LimitParam(q, 100) == Ok(n)
    ensures ServerRoutes.Dispatch(Get, ["", "api", "leaderboard"], q) == Ok(ServerRoutes.Leaderboard(n))
  {
    var segs := ["", "api", "leaderboard"];
    assert |segs| == 3 && segs[0] == "" && segs[1] == "api" && segs[2] == "leaderboard";
    assert ServerRoutes.MatchRoute(Get, segs, q) == Ok(ServerRoutes.Leaderboard(n));
  }

  lemma ReachesGetUser(id: string)
    requires ServerRoutes.IsSegment(id)
    ensures ServerRoutes.Resolve(Get, "/api/" + "users" + "/" + id) == Ok(ServerRoutes.GetUser(id))
  {
    assert ServerRoutes.Resolve(Get, "/api/" + "users" + "/" + id)
        == ServerRoutes.Dispatch(Get, ["", "api", "users", id], "") by {
      IdTarget("users", id);
    }
    DispatchGetUser(id);
  }

  lemma DispatchGetUser(id: string)
    requires ServerRoutes.IsSegment(id)
    ensures ServerRoutes.Dispatch(Get, ["", "api", "users", id], "") == Ok(ServerRoutes.GetUser(id))
  {
  }

  lemma ReachesDeleteHabit(id: string)
    requires ServerRoutes.IsSegment(id)
    ensures ServerRoutes.Resolve(Delete, "/api/" + "habits" + "/" + id) == Ok(ServerRoutes.DeleteHabit(id))
  {
    assert ServerRoutes.Resolve(Delete, "/api/" + "habits" + "/" + id)
        == ServerRoutes.Dispatch(Delete, ["", "api", "habits", id], "") by {
      IdTarget("habits", id);
    }
    DispatchDeleteHabit(id);
  }

  lemma DispatchDeleteHabit(id: string)
    requires ServerRoutes.IsSegment(id)
    ensures ServerRoutes.Dispatch(Delete, ["", "api", "habits", id], "") == Ok(ServerRoutes.DeleteHabit(id))
  {
  }

  /** Every endpoint whose path parameters are single segments reaches the handler meant for it. */
  lemma EndpointReachesRoute(base: string, e: Endpoint)
    requires forall i :: 0 <= i < |IdsOf(e)| ==> ServerRoutes.IsSegment(IdsOf(e)[i])
    ensures var f := FetchOf(base, CallOf(e));
            ServerRoutes.Resolve(f.verb, f.url[|base|..]) == Ok(RouteOf(e))
  {
    CallReachesRoute(e);
  }

  /** The same, for the target `/api` plus the endpoint's path. */
  lemma CallReachesRoute(e: Endpoint)
    requires forall i :: 0 <= i < |IdsOf(e)| ==> ServerRoutes.IsSegment(IdsOf(e)[i])
    ensures ServerRoutes.Resolve(CallOf(e).verb, ApiPrefix + CallOf(e).path) == Ok(RouteOf(e))
  {
    if |IdsOf(e)| == 1 {
      assert ServerRoutes.IsSegment(IdsOf(e)[0]);
    }
    match e
    case CreateUser(email, name, picture) => CallsCreateUser(email, name, picture);
    case GetLeaderboard(limit) => CallsGetLeaderboard(limit);
    case GetUser(id) => CallsGetUser(id);
    case DeleteHabit(id) => CallsDeleteHabit(id);
    case UpdateUserScore(id) => CallsUpdateUserScore(id);
    case CreateHabit(id, name, category, target, unit) => CallsCreateHabit(id, name, category, target, unit);
    case GetUserHabits(id) => CallsGetUserHabits(id);
    case LogHabit(id, habitId, value, notes) => CallsLogHabit(id, habitId, value, notes);
    case SendChatMessage(id, message) => CallsSendChatMessage(id, message);
    case GetHabitLogs(id, limit) => CallsGetHabitLogs(id, limit);
    case GetChatHistory(id, limit) => CallsGetChatHistory(id, limit);
  }

  lemma CallsCreateUser(email: string, name: string, picture: Option<string>)
    ensures var e := CreateUser(email, name, picture);
            ServerRoutes.Resolve(CallOf(e).verb, ApiPrefix + CallOf(e).path) == Ok(RouteOf(e))
  {
    var e := CreateUser(email, name, picture);
    assert ApiPrefix + CallOf(e).path == "/api/" + "users" + "";
    ReachesCreateUser();
  }

  lemma CallsGetLeaderboard(limit: Option<nat>)
    ensures var e := GetLeaderboard(limit);
            ServerRoutes.Resolve(CallOf(e).verb, ApiPrefix + CallOf(e).path) == Ok(RouteOf(e))
  {
    var e := GetLeaderboard(limit);
    assert ApiPrefix + CallOf(e).path == "/api/" + "leaderboard" + ("?limit=" + NatToString(LimitOr(limit, 100)));
    ReachesLeaderboard(LimitOr(limit, 100));
  }

  lemma CallsGetUser(id: string)
    requires ServerRoutes.IsSegment(id)
    ensures var e := GetUser(id);
            ServerRoutes.Resolve(CallOf(e).verb, ApiPrefix + CallOf(e).path) == Ok(RouteOf(e))
  {
    var e := GetUser(id);
    assert ApiPrefix + CallOf(e).path == "/api/" + "users" + "/" + id;
    ReachesGetUser(id);
  }

  lemma CallsDeleteHabit(id: string)
    requires ServerRoutes.IsSegment(id)
    ensures var e := DeleteHabit(id);
            ServerRoutes.Resolve(CallOf(e).verb, ApiPrefix + CallOf(e).path) == Ok(RouteOf(e))
  {
    var e := DeleteHabit(id);
    assert ApiPrefix + CallOf(e).path == "/api/" + "habits" + "/" + id;
    ReachesDeleteHabit(id);
  }

  lemma CallsUpdateUserScore(id: string)
    requires ServerRoutes.IsSegment(id)
    ensures var e := UpdateUserScore(id);
            ServerRoutes.Resolve(CallOf(e).verb, ApiPrefix + CallOf(e).path) == Ok(RouteOf(e))
  {
    var e := UpdateUserScore(id);
    assert ApiPrefix + CallOf(e).path == "/api/users/" + id + "/" + "score" + "" by {
      assert CallOf(e).path == "/users/" + id + ("/" + "score") by {
        assert "/score" == "/" + "score";
      }
      UserSubPath(id, "score");
    }
    assert '/' !in "score" && '?' !in "score";
    ReachesUserSub(Put, id, "score");
  }

  lemma CallsCreateHabit(id: string, name: string, category: string, target: Option<string>, unit: Option<string>)
    requires ServerRoutes.IsSegment(id)
    ensures var e := CreateHabit(id, name, category, target, unit);
            ServerRoutes.Resolve(CallOf(e).verb, ApiPrefix + CallOf(e).path) == Ok(RouteOf(e))
  {
    var e := CreateHabit(id, name, category, target, unit);
    assert ApiPrefix + CallOf(e).path == "/api/users/" + id + "/" + "habits" + "" by {
      assert CallOf(e).path == "/users/" + id + ("/" + "habits") by {
        assert "/habits" == "/" + "habits";
      }
      UserSubPath(id, "habits");
    }
    assert '/' !in "habits" && '?' !in "habits";
    ReachesUserSub(Post, id, "habits");
  }

  lemma CallsGetUserHabits(id: string)
    requires ServerRoutes.IsSegment(id)
    ensures var e := GetUserHabits(id);
            ServerRoutes.Resolve(CallOf(e).verb, ApiPrefix + CallOf(e).path) == Ok(RouteOf(e))
  {
    var e := GetUserHabits(id);
    assert ApiPrefix + CallOf(e).path == "/api/users/" + id + "/" + "habits" + "" by {
      assert CallOf(e).path == "/users/" + id + ("/" + "habits") by {
        assert "/habits" == "/" + "habits";
      }
      UserSubPath(id, "habits");
    }
    assert '/' !in "habits" && '?' !in "habits";
    ReachesUserSub(Get, id, "habits");
  }

  lemma CallsLogHabit(id: string, habitId: string, value: string, notes: Option<string>)
    requires ServerRoutes.IsSegment(id)
    ensures var e := LogHabit(id, habitId, value, notes);
            ServerRoutes.Resolve(CallOf(e).verb, ApiPrefix + CallOf(e).path) == Ok(RouteOf(e))
  {
    var e := LogHabit(id, habitId, value, notes);
    assert ApiPrefix + CallOf(e).path == "/api/users/" + id + "/" + "habit-logs" + "" by {
      assert CallOf(e).path == "/users/" + id + ("/" + "habit-logs") by {
        assert "/habit-logs" == "/" + "habit-logs";
      }
      UserSubPath(id, "habit-logs");
    }
    assert '/' !in "habit-logs" && '?' !in "habit-logs";
    ReachesUserSub(Post, id, "habit-logs");
  }

  lemma CallsSendChatMessage(id: string, message: string)
    requires ServerRoutes.IsSegment(id)
    ensures var e := SendChatMessage(id, message);
            ServerRoutes.Resolve(CallOf(e).verb, ApiPrefix + CallOf(e).path) == Ok(RouteOf(e))
  {
    var e := SendChatMessage(id, message);
    assert ApiPrefix + CallOf(e).path == "/api/users/" + id + "/" + "chat" + "" by {
      assert CallOf(e).path == "/users/" + id + ("/" + "chat") by {
        assert "/chat" == "/" + "chat";
      }
      UserSubPath(id, "chat");
    }
    assert '/' !in "chat" && '?' !in "chat";
    ReachesUserSub(Post, id, "chat");
  }

  lemma CallsGetHabitLogs(id: string, limit: Option<nat>)
    requires ServerRoutes.IsSegment(id)
    ensures var e := GetHabitLogs(id, limit);
            ServerRoutes.Resolve(CallOf(e).verb, ApiPrefix + CallOf(e).path) == Ok(RouteOf(e))
  {
    var e := GetHabitLogs(id, limit);
    var ns := NatToString(LimitOr(limit, 50));
    assert ApiPrefix + CallOf(e).path == "/api/users/" + id + "/" + "habit-logs" + ("?limit=" + ns) by {
      assert CallOf(e).path == "/users/" + id + ("/" + "habit-logs" + "?limit=") + ns by {
        assert "/habit-logs?limit=" == "/" + "habit-logs" + "?limit=";
      }
      UserQueryPath(id, "habit-logs", ns);
    }
    ReachesUserQuery(id, "habit-logs", LimitOr(limit, 50));
  }

  lemma CallsGetChatHistory(id: string, limit: Option<nat>)
    requires ServerRoutes.IsSegment(id)
    ensures var e := GetChatHistory(id, limit);
            ServerRoutes.Resolve(CallOf(e).verb, ApiPrefix + CallOf(e).path) == Ok(RouteOf(e))
  {
    var e := GetChatHistory(id, limit);
    var ns := NatToString(LimitOr(limit, 50));
    assert ApiPrefix + CallOf(e).path == "/api/users/" + id + "/" + "chat" + ("?limit=" + ns) by {
      assert CallOf(e).path == "/users/" + id + ("/" + "chat" + "?limit=") + ns by {
        assert "/chat?limit=" == "/" + "chat" + "?limit=";
      }
      UserQueryPath(id, "chat", ns);
    }
    ReachesUserQuery(id, "chat", LimitOr(limit, 50));
  }
}
