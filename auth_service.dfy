/**
 * The client's `AuthService`: the calls to `/auth/session`, `/auth/me` and `/auth/logout`,
 * how each maps the `fetch` outcome to its result, and the lookup of the session id in the
 * fragment of the URL the login redirect comes back with.
 */
module AuthService {
  import opened Wrappers
  import opened Text
  import opened Http
  import opened Api
  import ServerRoutes

  const AuthFailedPrefix: string := "Authentication failed: "
  const SessionIdParam: string := "session_id"

  /** The user record the auth endpoints return. */
  datatype AuthUser = AuthUser(id: string, email: string, name: string, picture: Option<string>)

  /** `processSessionId`'s request: the session id posted as JSON to `/auth/session`. */
  function SessionRequest(base: string, sessionId: string): (f: Fetch)
    ensures f.verb == Post && f.body == SessionBody(sessionId) && JsonContentType in f.headers
    ensures |base| <= |f.url| && f.url[..|base|] == base
    ensures ServerRoutes.Resolve(f.verb, f.url[|base|..]) == Ok(ServerRoutes.AuthSession)
  {
    ReachesAuth(Post, "session");
    AuthUrl(base, "session");
    Fetch(base + ApiPrefix + "/auth/" + "session", Post, [JsonContentType], SessionBody(sessionId))
  }

  /** The URL of `/auth/<name>` under a base, with the base cut off again. */
  lemma AuthUrl(base: string, name: string)
    ensures |base| <= |base + ApiPrefix + "/auth/" + name|
    ensures (base + ApiPrefix + "/auth/" + name)[..|base|] == base
    ensures (base + ApiPrefix + "/auth/" + name)[|base|..] == "/api/" + "auth" + "/" + name
  {
  }

  /** How the router sees `/api/auth/<name>`. */
  lemma AuthDispatch(verb: Method, name: string)
    requires name == "session" || name == "me" || name == "logout"
    ensures ServerRoutes.Resolve(verb, "/api/" + "auth" + "/" + name)
            == ServerRoutes.Dispatch(verb, ["", "api", "auth", name], "")
  {
    IdTarget("auth", name);
  }

  lemma ReachesAuth(verb: Method, name: string)
    requires name == "session" || name == "me" || name == "logout"
    ensures var r := ServerRoutes.Resolve(verb, "/api/" + "auth" + "/" + name);
            && (name == "session" && verb == Post ==> r == Ok(ServerRoutes.AuthSession))
            && (name == "me" && verb == Get ==> r == Ok(ServerRoutes.AuthMe))
            && (name == "logout" && verb == Post ==> r == Ok(ServerRoutes.AuthLogout))
  {
    AuthDispatch(verb, name);
  }

  /** `getCurrentUser`'s request: a GET of `/auth/me` carrying the cookies. */
  function CurrentUserRequest(base: string): (f: Fetch)
    ensures f.verb == Get && f.body == NoBody
    ensures |base| <= |f.url| && f.url[..|base|] == base
    ensures ServerRoutes.Resolve(f.verb, f.url[|base|..]) == Ok(ServerRoutes.AuthMe)
  {
    ReachesAuth(Get, "me");
    AuthUrl(base, "me");
    Fetch(base + ApiPrefix + "/auth/" + "me", Get, [], NoBody)
  }

  /** `logout`'s request: a POST of `/auth/logout` carrying the cookies. */
  function LogoutRequest(base: string): (f: Fetch)
    ensures f.verb == Post && f.body == NoBody
    ensures |base| <= |f.url| && f.url[..|base|] == base
    ensures ServerRoutes.Resolve(f.verb, f.url[|base|..]) == Ok(ServerRoutes.AuthLogout)
  {
    ReachesAuth(Post, "logout");
    AuthUrl(base, "logout");
    Fetch(base + ApiPrefix + "/auth/" + "logout", Post, [], NoBody)
  }

  /** `processSessionId`: the decoded body on 2xx; otherwise it rejects. */
  function ProcessSessionId<T>(reply: Reply<T>): (r: Result<T, ApiError>)
    ensures reply.Response? && !IsOk(reply.status) ==>
              r == Err(HttpStatus(reply.status, AuthFailedPrefix + NatToString(reply.status)))
  {
    match reply
    case NetworkFailure => Err(Network)
    case Response(status, body) =>
      if !IsOk(status) then Err(HttpStatus(status, AuthFailedPrefix + NatToString(status)))
      else if body.None? then Err(BadJson)
      else Ok(body.value)
  }

  /** `processSessionId` succeeds and fails exactly where the generic `request` does. */
  lemma ProcessSessionIdAgreesWithRequest<T>(reply: Reply<T>)
    ensures ProcessSessionId(reply).Ok? <==> Request(reply).Ok?
    ensures ProcessSessionId(reply).Ok? ==> ProcessSessionId(reply).value == Request(reply).value
    ensures ProcessSessionId(reply).Err? ==> ProcessSessionId(reply).error.HttpStatus? == Request(reply).error.HttpStatus?
    ensures reply.Response? && !IsOk(reply.status) ==>
              ProcessSessionId(reply).error.status == Request(reply).error.status == reply.status
  {
  }

  /**
   * `getCurrentUser`: the decoded body on 2xx and null otherwise, whether the status is 401,
   * another error, or the request or decoding failed; it never rejects.
   */
  function CurrentUser<T>(reply: Reply<T>): (r: Option<T>)
    ensures r.Some? <==> Request(reply).Ok?
    ensures r.Some? ==> r.value == Request(reply).value
  {
    match reply
    case NetworkFailure => None
    case Response(status, body) => if IsOk(status) then body else None
  }

  /** An unauthenticated answer is null, as every other failure is. */
  lemma UnauthenticatedIsNull<T>(body: Option<T>)
    ensures CurrentUser(Response(401, body)) == None
  {
  }

  /**
   * `logout`: whether the response was ok. It never reads the body, so it is true wherever
   * `request` succeeds or fails only at decoding; a network failure is false, and it never
   * rejects.
   */
  function Logout<T>(reply: Reply<T>): (r: bool)
    ensures r <==> Request(reply).Ok? || Request(reply) == Err(BadJson)
    ensures reply.NetworkFailure? ==> !r
  {
    reply.Response? && IsOk(reply.status)
  }

  /** The logout answer depends on the status alone, never on the body. */
  lemma LogoutIgnoresBody<T>(status: nat, body: Option<T>, other: Option<T>)
    ensures Logout(Response(status, body)) == Logout(Response(status, other))
    ensures Logout(Response(status, body)) <==> IsOk(status)
  {
  }

  /** What `Linking.parse` produced: it threw, or gave a result with an optional path. */
  datatype ParsedUrl = ParseThrew | Parsed(path: Option<string>)

  /**
   * `extractSessionIdFromUrl`: the `session_id` parameter of the text after the first `#`
   * of the parsed path; null when parsing threw, there is no path, or that text is empty.
   */
  function ExtractSessionIdFromUrl(parsed: ParsedUrl): (r: Option<string>)
    ensures parsed.ParseThrew? || parsed.path.None? ==> r.None?
    ensures parsed.Parsed? && parsed.path.Some? && '#' !in parsed.path.value ==> r.None?
    ensures r.Some? ==> exists k :: 0 <= k < |parsed.path.value| && parsed.path.value[k] == '#'
  {
    match parsed
    case ParseThrew => None
    case Parsed(None) => None
    case Parsed(Some(path)) =>
      var parts := Split(path, '#');
      if |parts| < 2 || parts[1] == [] then None
      else
        QueryParam(parts[1], SessionIdParam)
  }

  /** A redirect of the form `<path>#session_id=<id>` yields that id. */
  lemma ExtractsRedirectedSessionId(prefix: string, id: string)
    requires '#' !in prefix && '#' !in id && '&' !in id
    ensures ExtractSessionIdFromUrl(Parsed(Some(prefix + "#" + SessionIdParam + "=" + id))) == Some(id)
  {
    var fragment := SessionIdParam + "=" + id;
    assert prefix + "#" + SessionIdParam + "=" + id == prefix + ['#'] + fragment;
    assert '#' !in fragment by {
      forall k | 0 <= k < |fragment| ensures fragment[k] != '#' {
        if k >= |SessionIdParam| + 1 { assert fragment[k] == id[k - |SessionIdParam| - 1]; }
      }
    }
    SplitAfterSeparator(prefix, fragment, '#');
    assert Split(prefix + ['#'] + fragment, '#')[1] == fragment;
    QueryParamOfPair(SessionIdParam, id);
  }
}
