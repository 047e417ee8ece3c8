/** The session store (src/stores/authStore.ts): user-record normalisation, the
    token-field precedence of the server's answer, the session transitions of
    login, logout, refresh and checkAuth, and the settling of the queue of
    requests waiting for a refresh. The server's answers are parameters;
    `localStorage` and the axios default header are modelled as fields. */
module Auth {
  import opened Wrappers
  import opened Strings

  /** The user record the store keeps. */
  datatype User = User(name: string, email: string, avatar: Option<string>, role: Option<string>)

  /** A user object as the server sends it; any field may be missing. */
  datatype UserData = UserData(name: Option<string>, username: Option<string>, email: Option<string>,
                               avatar: Option<string>, role: Option<string>)

  /** `tokens` of an answer. */
  datatype Tokens = Tokens(accessToken: Option<string>, refreshToken: Option<string>)

  /** The body of a login or refresh answer, with every token spelling the store looks for. */
  datatype AuthResponse = AuthResponse(tokens: Option<Tokens>, token: Option<string>,
                                       camelAccessToken: Option<string>, snakeAccessToken: Option<string>,
                                       user: Option<UserData>)

  /** A login or refresh call: an answer, or an HTTP failure with the server's message. */
  datatype AuthOutcome = Answered(body: AuthResponse) | RequestFailed(serverMessage: Option<string>)

  /** A `/api/auth/me` call: `response.data` read as user data, and the nested
      `response.data.user` if the server sent one; or a failure. */
  datatype MeOutcome = Me(data: UserData, nestedUser: Option<UserData>) | MeFailed

  // ---- formatUserData ----

  /** `userData?.email?.split("@")[0]`. */
  function EmailLocalPart(email: Option<string>): Option<string> {
    if email.Some? then Some(Split(email.value, '@')[0]) else None
  }

  /** `userData?.email?.charAt(0)?.toLowerCase()`. */
  function EmailInitial(email: Option<string>): Option<string> {
    if email.Some? then Some(FirstCharLower(email.value)) else None
  }

  /** `formatUserData(userData)`. */
  function FormatUserData(d: Option<UserData>): User {
    var name := if d.Some? then d.value.name else None;
    var username := if d.Some? then d.value.username else None;
    var email := if d.Some? then d.value.email else None;
    var avatar := if d.Some? then d.value.avatar else None;
    var role := if d.Some? then d.value.role else None;
    User(OrElse(name, OrElse(username, OrElse(EmailLocalPart(email), "User"))),
         OrElse(email, "user@example.com"),
         Some(OrElse(avatar, "/avatars/" + OrElse(EmailInitial(email), "u") + ".jpg")),
         Some(OrElse(role, "User")))
  }

  /** Name precedence: name, then username, then the text before the first "@"
      of the email, then "User" (an empty local part falls through). */
  lemma FormatUserDataName(d: UserData)
    ensures Truthy(d.name) ==> FormatUserData(Some(d)).name == d.name.value
    ensures !Truthy(d.name) && Truthy(d.username) ==> FormatUserData(Some(d)).name == d.username.value
    ensures !Truthy(d.name) && !Truthy(d.username) && d.email.Some? && Before(d.email.value, '@') != "" ==>
      FormatUserData(Some(d)).name == Before(d.email.value, '@')
    ensures !Truthy(d.name) && !Truthy(d.username) && (d.email.None? || Before(d.email.value, '@') == "") ==>
      FormatUserData(Some(d)).name == "User"
  {
    if d.email.Some? {
      SplitHeadIsBefore(d.email.value, '@');
    }
  }

  /** The other defaults: email "user@example.com", role "User", and an avatar
      `/avatars/<lower-cased first email character, or "u">.jpg`. Whatever the
      input, every field of the result is filled. */
  lemma FormatUserDataDefaults(d: Option<UserData>)
    ensures var u := FormatUserData(d);
      && u.name != "" && u.email != "" && u.avatar.Some? && u.avatar.value != "" && u.role.Some? && u.role.value != ""
    ensures var email := if d.Some? then d.value.email else None;
      && (!Truthy(email) ==> FormatUserData(d).email == "user@example.com")
      && (!Truthy(if d.Some? then d.value.role else None) ==> FormatUserData(d).role == Some("User"))
      && (!Truthy(if d.Some? then d.value.avatar else None) ==>
            FormatUserData(d).avatar == Some("/avatars/" + (if Truthy(email) then [LowerChar(email.value[0])] else "u") + ".jpg"))
  {
  }

  // ---- token precedence ----

  /** `tokens?.access_token || token || accessToken || access_token`, as a token
      only when the result is truthy. */
  function TokenOf(r: AuthResponse): Option<string> {
    var fromTokens := if r.tokens.Some? then r.tokens.value.accessToken else None;
    var t := OrOpt(fromTokens, OrOpt(r.token, OrOpt(r.camelAccessToken, r.snakeAccessToken)));
    if Truthy(t) then t else None
  }

  /** `tokens?.refresh_token`, when truthy. */
  function RefreshTokenOf(r: AuthResponse): Option<string> {
    var t := if r.tokens.Some? then r.tokens.value.refreshToken else None;
    if Truthy(t) then t else None
  }

  /** The token is the first non-empty one of tokens.access_token, token,
      accessToken and access_token; when none is, there is no token. */
  lemma TokenPrecedence(r: AuthResponse)
    ensures var nested := if r.tokens.Some? then r.tokens.value.accessToken else None;
      && (Truthy(nested) ==> TokenOf(r) == nested)
      && (!Truthy(nested) && Truthy(r.token) ==> TokenOf(r) == r.token)
      && (!Truthy(nested) && !Truthy(r.token) && Truthy(r.camelAccessToken) ==> TokenOf(r) == r.camelAccessToken)
      && (!Truthy(nested) && !Truthy(r.token) && !Truthy(r.camelAccessToken) ==> TokenOf(r) == OrOpt(r.snakeAccessToken, None))
      && (TokenOf(r).None? <==>
            !Truthy(nested) && !Truthy(r.token) && !Truthy(r.camelAccessToken) && !Truthy(r.snakeAccessToken))
      && (TokenOf(r).Some? ==> TokenOf(r).value != "")
  {
  }

  /** The user record `login` builds itself: unlike `formatUserData` it has no
      "User" fallback for the name, and it fails (a TypeError in the source) where
      it reads a field of a missing user or of a missing email. */
  function LoginUser(d: Option<UserData>): Option<User> {
    if d.None? then None
    else
      var u := d.value;
      if (!Truthy(u.name) && !Truthy(u.username)) || !Truthy(u.avatar) then
        if u.email.None? then None
        else
          var name := OrElse(u.name, OrElse(u.username, Before(u.email.value, '@')));
          Some(User(name, u.email.value, Some(OrElse(u.avatar, "/avatars/" + FirstCharLower(u.email.value) + ".jpg")),
                    Some(OrElse(u.role, "User"))))
      else if u.email.None? then None
      else Some(User(OrElse(u.name, u.username.GetOr("")), u.email.value, u.avatar, Some(OrElse(u.role, "User"))))
  }

  /** Where `login` succeeds, its record agrees with `formatUserData` as long as
      none of the latter's fallbacks is needed (the email is present and, when the
      name comes from it, its local part is non-empty); without a user or an email
      `login` fails. */
  lemma LoginUserAgreesWithFormat(d: Option<UserData>)
    ensures d.None? ==> LoginUser(d).None?
    ensures d.Some? && d.value.email.None? ==> LoginUser(d).None?
    ensures d.Some? && Truthy(d.value.email) &&
            (Truthy(d.value.name) || Truthy(d.value.username) || Before(d.value.email.value, '@') != "") ==>
            LoginUser(d) == Some(FormatUserData(d))
  {
    if d.Some? && d.value.email.Some? {
      SplitHeadIsBefore(d.value.email.value, '@');
    }
  }

  const SessionExpired := "Session expired. Please login again."

  /** A refresh with refresh token `rt` yields a new access token: there is a
      refresh token, the call answers, and the answer carries a token. */
  predicate RefreshSucceeds(rt: Option<string>, outcome: AuthOutcome) {
    Truthy(rt) && outcome.Answered? && TokenOf(outcome.body).Some?
  }

  class AuthStore {
    var isAuthenticated: bool
    var user: Option<User>
    var token: Option<string>
    var refreshToken: Option<string>
    var isLoading: bool
    var error: Option<string>
    // localStorage "authToken" / "refreshToken", and axios' default Authorization header
    var storedAuthToken: Option<string>
    var storedRefreshToken: Option<string>
    var authHeader: Option<string>

    /** The session fields cleared: signed out, no user, no tokens. */
    predicate SignedOut()
      reads this
    {
      !isAuthenticated && user == None && token == None && refreshToken == None
    }

    constructor (storedAuthToken: Option<string>, storedRefreshToken: Option<string>)
      ensures SignedOut() && !isLoading && error == None
      ensures this.storedAuthToken == storedAuthToken && this.storedRefreshToken == storedRefreshToken
      ensures authHeader == None
    {
      isAuthenticated, user, token, refreshToken, isLoading, error := false, None, None, None, false, None;
      this.storedAuthToken, this.storedRefreshToken, authHeader := storedAuthToken, storedRefreshToken, None;
    }

    /** `login(email, password)`; returns whether the call ended by throwing. */
    method Login(outcome: AuthOutcome) returns (threw: bool)
      modifies this
      ensures !isLoading
      ensures !threw ==>
        && outcome.Answered? && TokenOf(outcome.body).Some? && LoginUser(outcome.body.user).Some?
        && isAuthenticated && user == LoginUser(outcome.body.user) && token == TokenOf(outcome.body)
        && refreshToken == RefreshTokenOf(outcome.body) && error == None
        && storedAuthToken == token && authHeader == Some("Bearer " + token.value)
        && storedRefreshToken == (if RefreshTokenOf(outcome.body).Some? then RefreshTokenOf(outcome.body) else old(storedRefreshToken))
      ensures threw ==>
        && isAuthenticated == old(isAuthenticated) && user == old(user)
        && token == old(token) && refreshToken == old(refreshToken)
        && error == Some(if outcome.RequestFailed? then OrElse(outcome.serverMessage, "Login failed") else "Login failed")
      ensures (outcome.RequestFailed? || TokenOf(outcome.body).None?) ==>
        storedAuthToken == old(storedAuthToken) && storedRefreshToken == old(storedRefreshToken) &&
        authHeader == old(authHeader)
      ensures outcome.Answered? && TokenOf(outcome.body).Some? ==>
        && storedAuthToken == TokenOf(outcome.body)
        && authHeader == Some("Bearer " + TokenOf(outcome.body).value)
        && storedRefreshToken == (if RefreshTokenOf(outcome.body).Some? then RefreshTokenOf(outcome.body) else old(storedRefreshToken))
      ensures threw <==>
        outcome.RequestFailed? || TokenOf(outcome.body).None? || LoginUser(outcome.body.user).None?
    {
      isLoading, error := true, None;
      match outcome
      case RequestFailed(msg) =>
        isLoading, error := false, Some(OrElse(msg, "Login failed"));
        return true;
      case Answered(body) =>
        var t := TokenOf(body);
        if t.None? {
          isLoading, error := false, Some("Login failed");
          return true;
        }
        storedAuthToken := t;
        var rt := RefreshTokenOf(body);
        if rt.Some? {
          storedRefreshToken := rt;
        }
        authHeader := Some("Bearer " + t.value);
        var u := LoginUser(body.user);
        if u.None? {
          isLoading, error := false, Some("Login failed");
          return true;
        }
        isAuthenticated, user, token, refreshToken, isLoading, error := true, u, t, rt, false, None;
        return false;
    }

    /** `register(...)`: only the loading flag and the error change. */
    method Register(outcome: AuthOutcome) returns (threw: bool)
      modifies this
      ensures threw <==> outcome.RequestFailed?
      ensures !isLoading
      ensures error == if outcome.RequestFailed? then Some(OrElse(outcome.serverMessage, "Registration failed")) else None
      ensures isAuthenticated == old(isAuthenticated) && user == old(user) && token == old(token) &&
              refreshToken == old(refreshToken) && storedAuthToken == old(storedAuthToken) &&
              storedRefreshToken == old(storedRefreshToken) && authHeader == old(authHeader)
    {
      isLoading, error := true, None;
      if outcome.RequestFailed? {
        isLoading, error := false, Some(OrElse(outcome.serverMessage, "Registration failed"));
        return true;
      }
      isLoading, error := false, None;
      return false;
    }

    /** `logout()`: the redirect to "/" is outside the model. */
    method Logout()
      modifies this
      ensures SignedOut() && error == None
      ensures storedAuthToken == None && storedRefreshToken == None && authHeader == None
      ensures isLoading == old(isLoading)
    {
      storedAuthToken, storedRefreshToken, authHeader := None, None, None;
      isAuthenticated, user, token, refreshToken, error := false, None, None, None, None;
    }

    /** `refresh()`: the new access token, or None where the source throws. */
    method Refresh(outcome: AuthOutcome) returns (r: Option<string>)
      modifies this
      ensures isLoading == old(isLoading)
      ensures var rt := OrOpt(old(refreshToken), old(storedRefreshToken));
        && (!Truthy(rt) ==>
              r == None && isAuthenticated == old(isAuthenticated) && user == old(user) &&
              token == old(token) && refreshToken == old(refreshToken) && error == old(error) &&
              storedAuthToken == old(storedAuthToken) && storedRefreshToken == old(storedRefreshToken) &&
              authHeader == old(authHeader))
        && (Truthy(rt) && outcome.Answered? && TokenOf(outcome.body).Some? ==>
              && r == TokenOf(outcome.body) && token == r
              && refreshToken == Some(OrElse(RefreshTokenOf(outcome.body), rt.value))
              && isAuthenticated == old(isAuthenticated) && user == old(user) && error == old(error)
              && storedAuthToken == r && authHeader == Some("Bearer " + r.value)
              && storedRefreshToken == (if RefreshTokenOf(outcome.body).Some? then RefreshTokenOf(outcome.body)
                                        else old(storedRefreshToken)))
        && (Truthy(rt) && (outcome.RequestFailed? || TokenOf(outcome.body).None?) ==>
              r == None && SignedOut() && error == Some(SessionExpired) &&
              storedAuthToken == None && storedRefreshToken == None && authHeader == None)
    {
      var rt := OrOpt(refreshToken, storedRefreshToken);
      if !Truthy(rt) {
        return None;
      }
      var t := if outcome.Answered? then TokenOf(outcome.body) else None;
      if t.None? {
        storedAuthToken, storedRefreshToken, authHeader := None, None, None;
        isAuthenticated, user, token, refreshToken, error := false, None, None, None, Some(SessionExpired);
        return None;
      }
      storedAuthToken := t;
      var newRt := RefreshTokenOf(outcome.body);
      if newRt.Some? {
        storedRefreshToken := newRt;
      }
      authHeader := Some("Bearer " + t.value);
      token, refreshToken := t, Some(OrElse(newRt, rt.value));
      return t;
    }

    /** `loadUser` inside `checkAuth`, when the call succeeded. */
    method LoadUser(data: UserData, nestedUser: Option<UserData>)
      modifies this
      ensures isAuthenticated && user == Some(FormatUserData(Some(nestedUser.GetOr(data))))
      ensures token == old(storedAuthToken) && refreshToken == old(storedRefreshToken) && error == None
      ensures storedAuthToken == old(storedAuthToken) && storedRefreshToken == old(storedRefreshToken)
      ensures authHeader == old(authHeader) && isLoading == old(isLoading)
    {
      isAuthenticated, user := true, Some(FormatUserData(Some(nestedUser.GetOr(data))));
      token, refreshToken, error := storedAuthToken, storedRefreshToken, None;
    }

    /** `checkAuth()`: with no stored token the session is cleared; otherwise the
        user is loaded, and when that fails a refresh and a second load are tried,
        falling back to `logout()`. */
    method CheckAuth(firstLoad: MeOutcome, refreshCall: AuthOutcome, secondLoad: MeOutcome)
      modifies this
      ensures isLoading == old(isLoading)
      ensures !Truthy(old(storedAuthToken)) ==>
        SignedOut() && error == None && authHeader == None &&
        storedAuthToken == old(storedAuthToken) && storedRefreshToken == old(storedRefreshToken)
      ensures Truthy(old(storedAuthToken)) && firstLoad.Me? ==>
        isAuthenticated && user == Some(FormatUserData(Some(firstLoad.nestedUser.GetOr(firstLoad.data)))) &&
        token == old(storedAuthToken) && refreshToken == old(storedRefreshToken) && error == None &&
        storedAuthToken == old(storedAuthToken) && storedRefreshToken == old(storedRefreshToken) &&
        authHeader == Some("Bearer " + old(storedAuthToken).value)
      ensures Truthy(old(storedAuthToken)) && firstLoad.MeFailed? &&
              RefreshSucceeds(OrOpt(old(refreshToken), old(storedRefreshToken)), refreshCall) && secondLoad.Me? ==>
        && isAuthenticated && user == Some(FormatUserData(Some(secondLoad.nestedUser.GetOr(secondLoad.data))))
        && token == TokenOf(refreshCall.body) && storedAuthToken == token
        && authHeader == Some("Bearer " + token.value)
        && storedRefreshToken == (if RefreshTokenOf(refreshCall.body).Some? then RefreshTokenOf(refreshCall.body)
                                  else old(storedRefreshToken))
        && refreshToken == storedRefreshToken && error == None
      ensures Truthy(old(storedAuthToken)) && firstLoad.MeFailed? &&
              !(RefreshSucceeds(OrOpt(old(refreshToken), old(storedRefreshToken)), refreshCall) && secondLoad.Me?) ==>
        SignedOut() && error == None &&
        storedAuthToken == None && storedRefreshToken == None && authHeader == None
      ensures isAuthenticated ==> user.Some? && error == None
      ensures !isAuthenticated ==> SignedOut() && error == None
    {
      if !Truthy(storedAuthToken) {
        authHeader := None;
        isAuthenticated, user, token, refreshToken, error := false, None, None, None, None;
        return;
      }
      authHeader := Some("Bearer " + storedAuthToken.value);
      if firstLoad.Me? {
        LoadUser(firstLoad.data, firstLoad.nestedUser);
        return;
      }
      var t := Refresh(refreshCall);
      if t.None? || secondLoad.MeFailed? {
        Logout();
        return;
      }
      LoadUser(secondLoad.data, secondLoad.nestedUser);
    }

    method ClearError()
      modifies this
      ensures error == None
      ensures isAuthenticated == old(isAuthenticated) && user == old(user) && token == old(token) &&
              refreshToken == old(refreshToken) && isLoading == old(isLoading) &&
              storedAuthToken == old(storedAuthToken) && storedRefreshToken == old(storedRefreshToken) &&
              authHeader == old(authHeader)
    {
      error := None;
    }
  }

  // ---- processQueue ----

  /** How one waiting request was settled. */
  datatype Settlement = Resolved(waiter: nat, token: Option<string>) | Rejected(waiter: nat, reason: string)

  /** The `forEach` of `processQueue`: every waiter, in order, is rejected with the
      error when there is one, and otherwise resolved with the token. */
  method SettleAll(queue: seq<nat>, error: Option<string>, token: Option<string>) returns (settled: seq<Settlement>)
    ensures |settled| == |queue|
    ensures forall i :: 0 <= i < |queue| ==> settled[i].waiter == queue[i]
    ensures error.Some? ==> forall i :: 0 <= i < |queue| ==> settled[i] == Rejected(queue[i], error.value)
    ensures error.None? ==> forall i :: 0 <= i < |queue| ==> settled[i] == Resolved(queue[i], token)
  {
    settled := [];
    var i := 0;
    while i < |queue|
      invariant 0 <= i <= |queue| && |settled| == i
      invariant forall k :: 0 <= k < i ==>
        settled[k] == if error.Some? then Rejected(queue[k], error.value) else Resolved(queue[k], token)
    {
      if error.Some? {
        settled := settled + [Rejected(queue[i], error.value)];
      } else {
        settled := settled + [Resolved(queue[i], token)];
      }
      i := i + 1;
    }
  }

  /** The module-level `failedQueue` of requests waiting for a refresh. */
  class RefreshQueue {
    var failedQueue: seq<nat>

    constructor ()
      ensures failedQueue == []
    {
      failedQueue := [];
    }

    /** A request that hit 401 while a refresh was running joins the queue. */
    method Enqueue(waiter: nat)
      modifies this
      ensures failedQueue == old(failedQueue) + [waiter]
    {
      failedQueue := failedQueue + [waiter];
    }

    /** `processQueue(error, token)`: settles every waiter and empties the queue. */
    method ProcessQueue(error: Option<string>, token: Option<string>) returns (settled: seq<Settlement>)
      modifies this
      ensures failedQueue == []
      ensures |settled| == |old(failedQueue)|
      ensures forall i :: 0 <= i < |settled| ==> settled[i].waiter == old(failedQueue)[i]
      ensures error.Some? ==> forall i :: 0 <= i < |settled| ==> settled[i] == Rejected(old(failedQueue)[i], error.value)
      ensures error.None? ==> forall i :: 0 <= i < |settled| ==> settled[i] == Resolved(old(failedQueue)[i], token)
    {
      settled := SettleAll(failedQueue, error, token);
      failedQueue := [];
    }
  }
}
