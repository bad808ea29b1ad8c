/**
 * `AuthProvider`: the signed-in user and the loading flag, and how the init, deep-link
 * callback, login, logout and refresh handlers move them. Each handler runs to completion
 * as one step; its `finally` reset is the last assignment.
 */
module AuthContext {
  import opened Wrappers
  import opened Text
  import opened Http
  import opened AuthService
  import opened Api

  const OutsideProviderMessage: string := "useAuth must be used within an AuthProvider"

  /** The value the provider hands to `useAuth`. */
  datatype ContextValue = ContextValue(user: Option<AuthUser>, isLoading: bool, isAuthenticated: bool)

  class AuthProvider {
    var user: Option<AuthUser>
    var isLoading: bool

    constructor ()
      ensures user.None? && isLoading && !IsAuthenticated()
    {
      user := None;
      isLoading := true;
    }

    /** `isAuthenticated`: `!!user`. */
    predicate IsAuthenticated()
      reads this
    {
      user.Some?
    }

    /** The value handed to `useAuth`. */
    function Value(): ContextValue
      reads this
    {
      ContextValue(user, isLoading, IsAuthenticated())
    }

    /** `initializeAuth`: a signed-in user replaces `user`; null leaves it as it was. */
    method InitializeAuth(me: Reply<AuthUser>)
      modifies this
      ensures user == (if CurrentUser(me).Some? then CurrentUser(me) else old(user))
      ensures IsAuthenticated() <==> Request(me).Ok? || old(IsAuthenticated())
      ensures !isLoading
    {
      isLoading := true;
      var current := CurrentUser(me);
      if current.Some? {
        user := current;
      }
      isLoading := false;
    }

    /**
     * `handleAuthCallback`: with a non-empty session id in the URL, the session is exchanged and
     * on success the user is set and the URL before its `#` is reopened (returned here).
     * The loading flag ends false on every path, including a URL with no session id.
     */
    method HandleAuthCallback(url: string, parsed: ParsedUrl, session: Reply<AuthUser>)
      returns (reopened: Option<string>)
      modifies this
      ensures var sid := ExtractSessionIdFromUrl(parsed);
              var exchanged := sid.Some? && sid.value != [] && ProcessSessionId(session).Ok?;
              && (exchanged ==> user == Some(ProcessSessionId(session).value)
                                && reopened == Some(BeforeFirst(url, '#')))
              && (!exchanged ==> user == old(user) && reopened.None?)
      ensures var sid := ExtractSessionIdFromUrl(parsed);
              var exchanged := sid.Some? && sid.value != [] && ProcessSessionId(session).Ok?;
              IsAuthenticated() <==> exchanged || old(IsAuthenticated())
      ensures !isLoading
    {
      reopened := None;
      var sessionId := ExtractSessionIdFromUrl(parsed);
      if sessionId.Some? && sessionId.value != [] {
        isLoading := true;
        var userData := ProcessSessionId(session);
        if userData.Ok? {
          user := Some(userData.value);
          reopened := Some(BeforeFirst(url, '#'));
        }
      }
      isLoading := false;
    }

    /**
     * `login`: loading starts and stays on when the browser opened, for the callback to finish;
     * it is reset only when opening failed.
     */
    method Login(browserOpened: bool)
      modifies this
      ensures isLoading == browserOpened
      ensures user == old(user) && IsAuthenticated() == old(IsAuthenticated())
    {
      isLoading := true;
      if !browserOpened {
        isLoading := false;
      }
    }

    /** `logout`: the service call never rejects, so the user is always cleared. */
    method Logout(reply: Reply<bool>)
      modifies this
      ensures user.None? && !isLoading && !IsAuthenticated()
    {
      isLoading := true;
      var _ := AuthService.Logout(reply);
      user := None;
      isLoading := false;
    }

    /** `refreshUser`: the user becomes what `/auth/me` returns, null included. */
    method RefreshUser(me: Reply<AuthUser>)
      modifies this
      ensures user == CurrentUser(me)
      ensures IsAuthenticated() <==> Request(me).Ok?
      ensures isLoading == old(isLoading)
    {
      user := CurrentUser(me);
    }
  }

  /** `useAuth`: the provider's value, or the error thrown outside any provider. */
  function UseAuth(context: Option<ContextValue>): (r: Result<ContextValue, string>)
    ensures r.Ok? <==> context.Some?
    ensures r.Ok? ==> r.value == context.value
    ensures r.Err? ==> r.error == OutsideProviderMessage
  {
    if context.None? then Err(OutsideProviderMessage) else Ok(context.value)
  }
}
