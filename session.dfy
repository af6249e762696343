/** The session store (`AuthProvider`): the signed-in user, the token, the
    loading flag, and the token's two persisted copies in the browser. */
module Session {
  import opened Common
  import opened Api
  import Middleware

  /** The profile `/user` returns; `company` is `user.company.id`, which the
      product and vehicle forms read. */
  datatype User = User(id: int, name: string, email: string, role: string, company: Option<int>)

  /** The body of a successful `POST /login`. */
  datatype LoginData = LoginData(accessToken: string, tokenType: string, expiresIn: int)

  /** The provider's state together with the browser it writes to. */
  datatype SessionState = SessionState(
    user: Option<User>,
    token: Option<string>,
    isLoading: bool,
    browser: BrowserState)

  /** The value the provider hands out (`isAuthenticated` is `!!user`). */
  datatype AuthContext = AuthContext(
    user: Option<User>,
    token: Option<string>,
    isAuthenticated: bool,
    isLoading: bool)

  function Initial(b: BrowserState): SessionState
  {
    SessionState(None, None, true, b)
  }

  /** The profile request, with the header `fetchUserData` sets itself. */
  function ProfileRequest(authToken: string): Request
  {
    Request(RouteOf(AuthGetUser), Some(Bearer(authToken)), false)
  }

  function LoginRequest(): Request
  {
    Request(RouteOf(AuthLogin), None, false)
  }

  /** The company id of the signed-in user, as `user?.company?.id` is checked:
      absent, or 0, counts as none. */
  function CompanyId(user: Option<User>): (c: Option<int>)
    ensures c.Some? <==> user.Some? && user.value.company.Some? && user.value.company.value != 0
    ensures c.Some? ==> c.value == user.value.company.value
  {
    if user.Some? && user.value.company.Some? && user.value.company.value != 0 then user.value.company
    else None
  }

  // ---------------------------------------------------------------------------
  // The transitions, as functions of the state before

  /** `logout`: forget the user and token, drop both persisted copies and
      navigate to `/login` (a client-side navigation, no reload). */
  function LoggedOut(s: SessionState): SessionState
  {
    s.(user := None, token := None,
       browser := s.browser.(stored := None, cookie := None, location := Middleware.LoginPath))
  }

  /** `fetchUserData(authToken)`: the user on success, `logout` on any failure,
      and loading over either way. */
  function Fetched(s: SessionState, authToken: string, reply: Outcome<User>): SessionState
  {
    var s1 := s.(browser := Dispatch(s.browser, ProfileRequest(authToken), reply));
    if reply.Ok? then s1.(user := Some(reply.data), isLoading := false)
    else LoggedOut(s1).(isLoading := false)
  }

  /** The mount effect: adopt a truthy stored token and fetch the profile with
      it, or just stop loading. */
  function Initialized(s: SessionState, reply: Outcome<User>): SessionState
  {
    var stored := s.browser.stored;
    if Truthy(stored) then Fetched(s.(token := stored), stored.value, reply)
    else s.(isLoading := false)
  }

  /** `login`: post the credentials; on success adopt the token, await the
      profile fetch, then write the token to localStorage and to the cookie
      whatever the fetch did. */
  function LoggedIn(s: SessionState, post: Outcome<LoginData>, profile: Outcome<User>): SessionState
  {
    var s1 := s.(isLoading := true, browser := Dispatch(s.browser, LoginRequest(), post));
    if !post.Ok? then s1.(isLoading := false)
    else
      var t := post.data.accessToken;
      var s2 := Fetched(s1.(token := Some(t)), t, profile);
      s2.(isLoading := false,
          browser := s2.browser.(stored := Some(t), cookie := Some(Cookie(t, CookieMaxAge, "/"))))
  }

  /** Every transition of the store keeps localStorage and the cookie in
      lockstep: logout clears both, a failed profile fetch logs out, and a
      login writes both with the same token. */
  lemma TransitionsKeepInStep(s: SessionState, authToken: string, reply: Outcome<User>,
                              post: Outcome<LoginData>, profile: Outcome<User>)
    requires InStep(s.browser)
    ensures InStep(LoggedOut(s).browser)
    ensures InStep(Fetched(s, authToken, reply).browser)
    ensures InStep(Initialized(s, reply).browser)
    ensures InStep(LoggedIn(s, post, profile).browser)
  {
    DispatchKeepsInStep(s.browser, ProfileRequest(authToken), reply);
    if Truthy(s.browser.stored) {
      DispatchKeepsInStep(s.browser, ProfileRequest(s.browser.stored.value), reply);
    }
    DispatchKeepsInStep(s.browser, LoginRequest(), post);
  }

  /** What the provider exposes to its consumers. */
  function Context(s: SessionState): (c: AuthContext)
    ensures c.isAuthenticated <==> s.user.Some?
    ensures c.user == s.user && c.token == s.token && c.isLoading == s.isLoading
  {
    AuthContext(s.user, s.token, s.user.Some?, s.isLoading)
  }

  const OutsideProviderMessage: string := "useAuth must be used within an AuthProvider"

  /** `useAuth`: the provider's value, or the error thrown outside a provider. */
  function UseAuth(provided: Option<AuthContext>): (r: Result<AuthContext, string>)
    ensures provided.None? <==> r.Failure?
    ensures r.Failure? ==> r.error == OutsideProviderMessage
    ensures r.Success? ==> r.value == provided.value
  {
    match provided
    case None => Failure(OutsideProviderMessage)
    case Some(c) => Success(c)
  }

  // ---------------------------------------------------------------------------
  // The provider

  class AuthProvider {
    var user: Option<User>
    var token: Option<string>
    var isLoading: bool
    const browser: Browser

    function State(): SessionState
      reads this, browser
    {
      SessionState(user, token, isLoading, browser.State())
    }

    /** A freshly mounted provider: no user, no token, loading. */
    constructor (browser: Browser)
      ensures this.browser == browser
      ensures State() == Initial(browser.State())
    {
      this.user := None;
      this.token := None;
      this.isLoading := true;
      this.browser := browser;
    }

    method Logout()
      modifies this, browser
      ensures State() == LoggedOut(old(State()))
    {
      user := None;
      token := None;
      browser.stored := None;
      browser.cookie := None;
      browser.location := Middleware.LoginPath;
    }

    method FetchUserData(authToken: string, reply: Outcome<User>)
      modifies this, browser
      ensures State() == Fetched(old(State()), authToken, reply)
    {
      var response, _ := browser.Send(ProfileRequest(authToken), reply);
      if response.Ok? {
        user := Some(response.data);
      } else {
        Logout();
      }
      isLoading := false;
    }

    /** The mount effect; `reply` is how the profile request would settle. */
    method Init(reply: Outcome<User>)
      modifies this, browser
      ensures State() == Initialized(old(State()), reply)
    {
      var storedToken := browser.stored;
      if Truthy(storedToken) {
        token := storedToken;
        FetchUserData(storedToken.value, reply);
      } else {
        isLoading := false;
      }
    }

    /** `login`, which hands its caller the post's outcome: the response body,
        or the same error rethrown. */
    method Login(post: Outcome<LoginData>, profile: Outcome<User>) returns (r: Outcome<LoginData>)
      modifies this, browser
      ensures State() == LoggedIn(old(State()), post, profile)
      ensures r == post
    {
      isLoading := true;
      var response, _ := browser.Send(LoginRequest(), post);
      if response.Ok? {
        var t := response.data.accessToken;
        token := Some(t);
        FetchUserData(t, profile);
        browser.stored := Some(t);
        browser.cookie := Some(Cookie(t, CookieMaxAge, "/"));
      }
      isLoading := false;
      r := response;
    }
  }

  // ---------------------------------------------------------------------------
  // Properties of the transitions

  /** Without a truthy stored token the mount effect only stops loading and
      sends nothing. */
  lemma InitWithoutToken(s: SessionState, reply: Outcome<User>)
    requires !Truthy(s.browser.stored)
    ensures var r := Initialized(Initial(s.browser), reply);
            r.user == None && r.token == None && !r.isLoading && r.browser == s.browser
  {
  }

  /** With a stored token the provider adopts exactly that token and the
      profile request leaves with exactly `Bearer <token>`. */
  lemma InitWithToken(s: SessionState, reply: Outcome<User>)
    requires Truthy(s.browser.stored)
    ensures var r := Initialized(s, reply);
            |r.browser.sent| == |s.browser.sent| + 1 &&
            r.browser.sent[|s.browser.sent|] == ProfileRequest(s.browser.stored.value) &&
            !r.isLoading &&
            (reply.Ok? ==> r.token == s.browser.stored && r.user == Some(reply.data))
  {
  }

  /** The profile fetch: the user on success; on any failure the session is
      logged out (user, token and both persisted copies gone); never loading after. */
  lemma FetchOutcome(s: SessionState, authToken: string, reply: Outcome<User>)
    ensures var r := Fetched(s, authToken, reply);
            !r.isLoading &&
            (reply.Ok? ==> r.user == Some(reply.data) && r.token == s.token) &&
            (!reply.Ok? ==> r.user == None && r.token == None && r.browser.stored == None &&
                            r.browser.cookie == None && r.browser.location == Middleware.LoginPath)
  {
  }

  /** Logging out twice is logging out once. */
  lemma LogoutIdempotent(s: SessionState)
    ensures LoggedOut(LoggedOut(s)) == LoggedOut(s)
    ensures LoggedOut(s).browser.sent == s.browser.sent
  {
  }

  /** `isAuthenticated` depends on the user alone, never on the token. */
  lemma AuthenticatedIgnoresToken(s: SessionState, t: Option<string>)
    ensures Context(s.(token := t)).isAuthenticated == Context(s).isAuthenticated
    ensures Context(s.(user := None, token := t)).isAuthenticated == false
  {
  }

  /** A rejected login writes neither copy of the token: storage and cookie are
      as before, except that a 401 lets the response interceptor clear them and
      force a reload of `/login`. Loading is over, user and token untouched. */
  lemma LoginFailureWritesNothing(s: SessionState, post: Outcome<LoginData>, profile: Outcome<User>)
    requires !post.Ok?
    ensures var r := LoggedIn(s, post, profile);
            !r.isLoading && r.user == s.user && r.token == s.token &&
            (post.HttpError? && post.status == 401 ==>
               r.browser.stored == None && r.browser.cookie == None && r.browser.reloadPending) &&
            (!(post.HttpError? && post.status == 401) ==>
               r.browser.stored == s.browser.stored && r.browser.cookie == s.browser.cookie &&
               r.browser.location == s.browser.location)
  {
  }

  /** A successful post persists the token to storage and to a 7-day cookie on
      `/` after the profile fetch, even when that fetch failed and logged the
      session out: the provider then holds no user and no token while the
      browser holds both copies. */
  lemma LoginPersistsToken(s: SessionState, post: Outcome<LoginData>, profile: Outcome<User>)
    requires post.Ok?
    ensures var t := post.data.accessToken;
            var r := LoggedIn(s, post, profile);
            r.browser.stored == Some(t) &&
            r.browser.cookie == Some(Cookie(t, 604800, "/")) &&
            !r.isLoading
    ensures !profile.Ok? ==> LoggedIn(s, post, profile).user == None && LoggedIn(s, post, profile).token == None
    ensures profile.Ok? ==> LoggedIn(s, post, profile).user == Some(profile.data) &&
                            LoggedIn(s, post, profile).token == Some(post.data.accessToken)
  {
  }

  /** Round trip: after a login that yields a non-empty token, every request
      leaves with `Bearer <that token>`, whatever header its caller set. */
  lemma LoginThenRequestsCarryToken(s: SessionState, post: Outcome<LoginData>, profile: Outcome<User>, next: Request)
    requires post.Ok? && post.data.accessToken != ""
    ensures Authorize(LoggedIn(s, post, profile).browser.stored, next).authorization ==
            Some("Bearer " + post.data.accessToken)
  {
  }

  /** The request interceptor overrides the header `fetchUserData` sets: during
      a login over a stale stored token, the profile is requested with the
      stale token, not the one just issued. */
  lemma ProfileHeaderFollowsStorage(s: SessionState, post: Outcome<LoginData>, profile: Outcome<User>)
    requires post.Ok? && Truthy(s.browser.stored)
    ensures var r := LoggedIn(s, post, profile);
            |r.browser.sent| == |s.browser.sent| + 2 &&
            r.browser.sent[|s.browser.sent| + 1].authorization == Some(Bearer(s.browser.stored.value))
  {
  }

  /** The cookie written after a failed profile fetch lets the route guard pass
      `/dashboard` although the provider holds no user. */
  lemma FailedProfileStillPassesGuard(s: SessionState, post: Outcome<LoginData>, profile: Outcome<User>)
    requires post.Ok? && post.data.accessToken != "" && !profile.Ok?
    ensures var r := LoggedIn(s, post, profile);
            r.user == None &&
            Middleware.Decide(Middleware.DashboardPath, Middleware.CookieToken(r.browser.cookie)) == Middleware.Pass
  {
  }

  /** A profile fetch answered 401 during login forces a reload, yet the token
      is written afterwards, so the reloaded page's mount effect finds it and
      fetches the profile again with it. */
  lemma RejectedProfileSurvivesReload(s: SessionState, post: Outcome<LoginData>, profile: Outcome<User>, again: Outcome<User>)
    requires post.Ok? && post.data.accessToken != ""
    requires profile.HttpError? && profile.status == 401
    ensures var r := LoggedIn(s, post, profile);
            r.browser.reloadPending &&
            var reloaded := Initialized(Initial(r.browser), again);
            reloaded.browser.sent[|r.browser.sent|] == ProfileRequest(post.data.accessToken)
  {
  }

  /** After the response interceptor ends a session, the next mount finds no
      token: it sends nothing, and the guard sends every protected page to `/login`. */
  lemma ExpiredSessionNextInitSeesNoToken(b: BrowserState, req: Request, reply: Outcome<int>, profile: Outcome<User>, pathname: string)
    requires Expires(req, reply)
    requires pathname != Middleware.LoginPath
    ensures var after := Dispatch(b, req, reply);
            Initialized(Initial(after), profile) == Initial(after).(isLoading := false) &&
            Middleware.Decide(pathname, Middleware.CookieToken(after.cookie)) == Middleware.RedirectTo(Middleware.LoginPath)
  {
  }
}
