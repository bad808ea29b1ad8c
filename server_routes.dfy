/**
 * The backend's router: which handler a method and request target reach under the `/api`
 * prefix, and how the integer `limit` query parameter is read.
 */
module ServerRoutes {
  import opened Wrappers
  import opened Text
  import opened Http

  const NotFound: nat := 404
  const MethodNotAllowed: nat := 405
  const Unprocessable: nat := 422

  const DefaultLogLimit: nat := 50
  const DefaultChatLimit: nat := 50
  const DefaultLeaderboardLimit: nat := 100

  datatype Route =
    | ApiRoot
    | AuthSession
    | AuthMe
    | AuthLogout
    | CreateUser
    | GetUser(userId: string)
    | UpdateUserScore(userId: string)
    | CreateHabit(userId: string)
    | ListHabits(userId: string)
    | DeleteHabit(habitId: string)
    | LogHabit(userId: string)
    | ListHabitLogs(userId: string, limit: nat)
    | SendChatMessage(userId: string)
    | ChatHistory(userId: string, limit: nat)
    | Leaderboard(limit: nat)

  /**
   * The `limit: int = default` query parameter, read from its last occurrence: the default
   * when absent, its decimal value when it is a non-empty run of digits, and a validation
   * error (422) otherwise.
   */
  function LimitParam(query: string, default: nat): (r: Result<nat, nat>)
    ensures ServerQueryParam(query, "limit").None? ==> r == Ok(default)
    ensures ServerQueryParam(query, "limit").Some? ==>
              var v := ServerQueryParam(query, "limit").value;
              && (r.Ok? <==> v != [] && AllDigits(v))
              && (r.Ok? ==> r.value == DecimalValue(v))
    ensures r.Err? ==> r.error == Unprocessable
  {
    match ServerQueryParam(query, "limit")
    case None => Ok(default)
    case Some(v) =>
      if v != [] && AllDigits(v) then Ok(DecimalValue(v)) else Err(Unprocessable)
  }

  /** A `limit` the client printed reads back as the same number. */
  lemma LimitParamRoundTrip(n: nat, default: nat)
    ensures LimitParam("?limit=" + NatToString(n), default) == Ok(n)
  {
    var digits := NatToString(n);
    assert ServerQueryParam("?limit=" + digits, "limit") == Some(digits) by {
      assert '&' !in digits by {
        forall k | 0 <= k < |digits| ensures digits[k] != '&' {
          assert IsDigit(digits[k]);
        }
      }
      assert "limit"[0] == 'l' && '=' !in "limit" && '&' !in "limit";
      LimitMark();
      ServerQueryParamOfMarkedPair("limit", digits);
    }
    DecimalRoundTrip(n);
  }

  lemma LimitMark()
    ensures "?" + "limit" + "=" == "?limit="
  {
  }

  /**
   * Which handler serves `verb target` (the target being path plus query string); 404 when
   * no route has that path, 405 when routes have the path but not the verb, and 422 when the
   * `limit` query parameter is not an integer.
   */
  function Resolve(verb: Method, target: string): (r: Result<Route, nat>)
    ensures r.Err? ==> r.error == NotFound || r.error == MethodNotAllowed || r.error == Unprocessable
  {
    var path := BeforeFirst(target, '?');
    Dispatch(verb, Split(path, '/'), target[|path|..])
  }

  /**
   * The router over the `/`-separated segments of the path: a path some route has, asked
   * with a verb none of them takes, is answered 405 rather than 404.
   */
  function Dispatch(verb: Method, segs: seq<string>, query: string): (r: Result<Route, nat>)
    ensures r.Err? ==> r.error == NotFound || r.error == MethodNotAllowed || r.error == Unprocessable
  {
    var m := MatchRoute(verb, segs, query);
    if m.Err? && m.error == NotFound && IsRoutePath(segs) then Err(MethodNotAllowed) else m
  }

  /** The paths of the route table, whatever the verb. */
  predicate IsRoutePath(segs: seq<string>) {
    |segs| >= 3 && segs[0] == "" && segs[1] == "api" &&
    ((|segs| == 3 && (segs[2] == "" || segs[2] == "users" || segs[2] == "leaderboard"))
     || (|segs| == 4 && segs[2] == "auth" && (segs[3] == "session" || segs[3] == "me" || segs[3] == "logout"))
     || (|segs| == 4 && (segs[2] == "users" || segs[2] == "habits") && segs[3] != "")
     || (|segs| == 5 && segs[2] == "users" && segs[3] != ""
         && (segs[4] == "score" || segs[4] == "habits" || segs[4] == "habit-logs" || segs[4] == "chat")))
  }

  /** The route table: the handler registered for a verb and path, or 404. */
  function MatchRoute(verb: Method, segs: seq<string>, query: string): (r: Result<Route, nat>)
    ensures r.Err? ==> r.error == NotFound || r.error == Unprocessable
    ensures r.Ok? || r == Err(Unprocessable) ==> IsRoutePath(segs)
  {
    if |segs| < 3 || segs[0] != "" || segs[1] != "api" then Err(NotFound)
    else if |segs| == 3 then
      if segs[2] == "" && verb == Get then Ok(ApiRoot)
      else if segs[2] == "users" && verb == Post then Ok(CreateUser)
      else if segs[2] == "leaderboard" && verb == Get then
        match LimitParam(query, DefaultLeaderboardLimit)
        case Ok(n) => Ok(Leaderboard(n))
        case Err(e) => Err(e)
      else Err(NotFound)
    else if |segs| == 4 then
      if segs[2] == "auth" && segs[3] == "session" && verb == Post then Ok(AuthSession)
      else if segs[2] == "auth" && segs[3] == "me" && verb == Get then Ok(AuthMe)
      else if segs[2] == "auth" && segs[3] == "logout" && verb == Post then Ok(AuthLogout)
      else if segs[2] == "users" && segs[3] != "" && verb == Get then Ok(GetUser(segs[3]))
      else if segs[2] == "habits" && segs[3] != "" && verb == Delete then Ok(DeleteHabit(segs[3]))
      else Err(NotFound)
    else if |segs| == 5 && segs[2] == "users" && segs[3] != "" then
      var id := segs[3];
      if segs[4] == "score" && verb == Put then Ok(UpdateUserScore(id))
      else if segs[4] == "habits" && verb == Post then Ok(CreateHabit(id))
      else if segs[4] == "habits" && verb == Get then Ok(ListHabits(id))
      else if segs[4] == "habit-logs" && verb == Post then Ok(LogHabit(id))
      else if segs[4] == "habit-logs" && verb == Get then
        match LimitParam(query, DefaultLogLimit)
        case Ok(n) => Ok(ListHabitLogs(id, n))
        case Err(e) => Err(e)
      else if segs[4] == "chat" && verb == Post then Ok(SendChatMessage(id))
      else if segs[4] == "chat" && verb == Get then
        match LimitParam(query, DefaultChatLimit)
        case Ok(n) => Ok(ChatHistory(id, n))
        case Err(e) => Err(e)
      else Err(NotFound)
    else Err(NotFound)
  }

  /** Whether some verb reaches a handler at this path when no query string is sent. */
  predicate Served(segs: seq<string>) {
    Dispatch(Get, segs, "").Ok? || Dispatch(Post, segs, "").Ok?
    || Dispatch(Put, segs, "").Ok? || Dispatch(Delete, segs, "").Ok?
  }

  /** Every path of the route table is served by some verb. */
  lemma RoutePathServed(segs: seq<string>)
    requires IsRoutePath(segs)
    ensures Served(segs)
  {
    assert LimitParam("", DefaultLeaderboardLimit).Ok? && LimitParam("", DefaultLogLimit).Ok?;
  }

  /**
   * What each error of the router means, stated over the answers without a query string:
   * 404 exactly when no verb is served at the path; 405 exactly when this verb is not served
   * but another is; and a served verb fails only on its query, with 422.
   */
  lemma DispatchErrors(verb: Method, segs: seq<string>, query: string)
    ensures Dispatch(verb, segs, query) == Err(NotFound) <==> !Served(segs)
    ensures Dispatch(verb, segs, query) == Err(MethodNotAllowed) <==> Served(segs) && !Dispatch(verb, segs, "").Ok?
    ensures Dispatch(verb, segs, "").Ok? ==> Dispatch(verb, segs, query).Ok? || Dispatch(verb, segs, query) == Err(Unprocessable)
  {
    if IsRoutePath(segs) {
      RoutePathServed(segs);
    }
    QueryOnlyLimits(verb, segs, query);
  }

  /** A query string changes a route's answer only through `limit`, and only to 422. */
  lemma QueryOnlyLimits(verb: Method, segs: seq<string>, query: string)
    ensures MatchRoute(verb, segs, "").Ok?
            <==> MatchRoute(verb, segs, query).Ok? || MatchRoute(verb, segs, query) == Err(Unprocessable)
  {
    assert LimitParam("", DefaultLeaderboardLimit).Ok? && LimitParam("", DefaultLogLimit).Ok?;
  }

  /** The same characterisation for a whole request target, over its path. */
  lemma ResolveErrors(verb: Method, target: string)
    ensures var path := BeforeFirst(target, '?');
            (Resolve(verb, target) == Err(NotFound) <==> !Served(Split(path, '/')))
            && (Resolve(verb, target) == Err(MethodNotAllowed)
                <==> Served(Split(path, '/')) && !Resolve(verb, path).Ok?)
  {
    var path := BeforeFirst(target, '?');
    var segs := Split(path, '/');
    assert BeforeFirst(path, '?') == path;
    assert Resolve(verb, path) == Dispatch(verb, segs, path[|path|..]);
    assert path[|path|..] == "";
    DispatchErrors(verb, segs, target[|path|..]);
  }

  /** `POST /api/users/x` names the path of `get_user` with the wrong verb: 405, not 404. */
  lemma WrongVerbIsNotAllowed(id: string)
    requires id != []
    ensures Dispatch(Post, ["", "api", "users", id], "") == Err(MethodNotAllowed)
    ensures Dispatch(Get, ["", "api", "users"], "") == Err(MethodNotAllowed)
  {
  }

  /** A route's path parameter is one non-empty path segment. */
  predicate IsSegment(id: string) {
    id != [] && '/' !in id && '?' !in id
  }

  /** The path parameters a route carries are single segments. */
  predicate IdsAreSegments(route: Route) {
    match route
    case GetUser(id) => IsSegment(id)
    case UpdateUserScore(id) => IsSegment(id)
    case CreateHabit(id) => IsSegment(id)
    case ListHabits(id) => IsSegment(id)
    case DeleteHabit(id) => IsSegment(id)
    case LogHabit(id) => IsSegment(id)
    case ListHabitLogs(id, _) => IsSegment(id)
    case SendChatMessage(id) => IsSegment(id)
    case ChatHistory(id, _) => IsSegment(id)
    case _ => true
  }

  lemma DispatchIdsAreSegments(verb: Method, segs: seq<string>, query: string)
    requires forall i :: 0 <= i < |segs| ==> '/' !in segs[i] && '?' !in segs[i]
    ensures var r := MatchRoute(verb, segs, query);
            r.Ok? ==> IdsAreSegments(r.value)
  {
  }

  /** Every route the resolver yields carries path parameters that are single segments. */
  lemma ResolvedIdsAreSegments(verb: Method, target: string)
    ensures var r := Resolve(verb, target);
            r.Ok? ==> IdsAreSegments(r.value)
  {
    var path := BeforeFirst(target, '?');
    var segs := Split(path, '/');
    forall i | 0 <= i < |segs| ensures '/' !in segs[i] && '?' !in segs[i] {
      SegmentsOfPath(path, i);
    }
    DispatchIdsAreSegments(verb, segs, target[|path|..]);
  }

  /** A part of a split path holds only characters of the path. */
  lemma {:induction false} SegmentsOfPath(path: string, i: nat)
    requires i < |Split(path, '/')|
    ensures forall c :: c in Split(path, '/')[i] ==> c in path
  {
    if path != [] {
      var rest := Split(path[1..], '/');
      if path[0] == '/' {
        if i > 0 {
          SegmentsOfPath(path[1..], i - 1);
        }
      } else if i == 0 {
        SegmentsOfPath(path[1..], 0);
      } else {
        SegmentsOfPath(path[1..], i);
      }
    }
  }
}
