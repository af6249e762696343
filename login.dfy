/** The login page: its form schema, the submit handler's error
    classification, and the redirect of an already signed-in visitor. */
module LoginPage {
  import opened Common
  import opened Api
  import Session
  import Middleware

  const InvalidCredentials: string := "Geçersiz e-posta veya şifre."
  const EndpointMissing: string := "API endpoint bulunamadı. Lütfen sistem yöneticinize başvurun."
  const ServerErrorPrefix: string := "Sunucu hatası: "
  const ServerUnreachable: string := "Sunucuya ulaşılamıyor. Lütfen internet bağlantınızı kontrol edin."
  const LoginFailed: string := "Giriş başarısız. Lütfen daha sonra tekrar deneyin."

  const InvalidEmail: string := "Geçerli bir e-posta adresi giriniz."
  const ShortPassword: string := "Şifre en az 6 karakter olmalıdır."

  /** The schema's messages, field by field; `isEmail` is the email check of
      the validation library, taken as given. */
  function LoginFormErrors(email: string, password: string, isEmail: string -> bool): (errs: seq<string>)
    ensures errs == [] <==> isEmail(email) && JsLength(password) >= 6
    ensures InvalidEmail in errs <==> !isEmail(email)
    ensures ShortPassword in errs <==> JsLength(password) < 6
    ensures |errs| <= 2
  {
    (if isEmail(email) then [] else [InvalidEmail]) +
    (if JsLength(password) >= 6 then [] else [ShortPassword])
  }

  /** A password of fewer than six characters from the Basic Multilingual
      Plane is refused, whatever the email; so is any password of one or two
      characters. */
  lemma ShortPasswordsRejected(email: string, password: string, isEmail: string -> bool)
    requires |password| < 6
    requires |password| < 3 || forall i :: 0 <= i < |password| ==> password[i] as int <= 0xFFFF
    ensures ShortPassword in LoginFormErrors(email, password, isEmail)
  {
    JsLengthBounds(password);
    if |password| >= 3 {
      JsLengthOfBmp(password);
    }
  }

  /** The message shown for a failed login. A reply from the server is
      classified by status (401 and 404 first, then the server's message, then
      the status itself); no reply, and a failure before any request, have one
      message each. */
  function LoginErrorMessage<T>(err: Outcome<T>): (m: string)
    requires !err.Ok?
    ensures err.HttpError? && err.status == 401 ==> m == InvalidCredentials
    ensures err.HttpError? && err.status == 404 ==> m == EndpointMissing
    ensures err.HttpError? && err.status != 401 && err.status != 404 && HasServerMessage(err) ==>
              m == err.serverMessage.value
    ensures err.HttpError? && err.status != 401 && err.status != 404 && !HasServerMessage(err) ==>
              m == ServerErrorPrefix + IntToString(err.status)
    ensures err.NoResponse? ==> m == ServerUnreachable
    ensures err.SetupError? ==> m == LoginFailed
    ensures m != ""
  {
    match err
    case HttpError(status, _, _) =>
      if status == 401 then InvalidCredentials
      else if status == 404 then EndpointMissing
      else if HasServerMessage(err) then err.serverMessage.value
      else ServerErrorPrefix + IntToString(status)
    case NoResponse(_) => ServerUnreachable
    case SetupError(_) => LoginFailed
  }

  /** A 401 hides whatever the server said: two 401 replies read the same. */
  lemma UnauthorizedIgnoresBody<T>(a: Outcome<T>, b: Outcome<T>)
    requires a.HttpError? && b.HttpError? && a.status == 401 && b.status == 401
    ensures LoginErrorMessage(a) == LoginErrorMessage(b)
  {
  }

  /** Without a server message, the shown text determines the status: two
      different statuses never read the same. */
  lemma StatusTextDistinguishes<T>(a: Outcome<T>, b: Outcome<T>)
    requires a.HttpError? && b.HttpError? && !HasServerMessage(a) && !HasServerMessage(b)
    requires a.status !in {401, 404} && b.status !in {401, 404}
    requires LoginErrorMessage(a) == LoginErrorMessage(b)
    ensures a.status == b.status
  {
    var sa, sb := IntToString(a.status), IntToString(b.status);
    assert ServerErrorPrefix + sa == ServerErrorPrefix + sb;
    assert sa == (ServerErrorPrefix + sa)[|ServerErrorPrefix|..];
    assert sb == (ServerErrorPrefix + sb)[|ServerErrorPrefix|..];
    IntToStringInjective(a.status, b.status);
  }

  /** The redirect effect: an authenticated session that has finished loading
      is sent to the dashboard. */
  function RedirectTarget(ctx: Session.AuthContext): (target: Option<string>)
    ensures target.Some? <==> ctx.isAuthenticated && !ctx.isLoading
    ensures target.Some? ==> target.value == Middleware.DashboardPath
  {
    if ctx.isAuthenticated && !ctx.isLoading then Some(Middleware.DashboardPath) else None
  }

  /** A stored token whose profile loads on mount sends the visitor to the dashboard. */
  lemma SignedInVisitorRedirected(b: BrowserState, profile: Outcome<Session.User>)
    requires Truthy(b.stored) && profile.Ok?
    ensures RedirectTarget(Session.Context(Session.Initialized(Session.Initial(b), profile))) == Some("/dashboard")
  {
  }

  /** Once the cookie has expired while the token is still stored, the two
      copies are out of lockstep and the visitor bounces: the login page sends
      a session whose profile loads to the dashboard, and the middleware sends
      a dashboard request without the cookie back to the login page. */
  lemma ExpiredCookieBounces(b: BrowserState, profile: Outcome<Session.User>)
    requires Truthy(b.stored) && b.cookie.None? && profile.Ok?
    ensures !InStep(b)
    ensures var s := Session.Initialized(Session.Initial(b), profile);
            RedirectTarget(Session.Context(s)) == Some(Middleware.DashboardPath) &&
            Middleware.Decide(Middleware.DashboardPath, Middleware.CookieToken(s.browser.cookie)) ==
              Middleware.RedirectTo(Middleware.LoginPath) &&
            Middleware.Decide(Middleware.LoginPath, Middleware.CookieToken(s.browser.cookie)) == Middleware.Pass
  {
    SignedInVisitorRedirected(b, profile);
  }

  /** The error state a submission ends with. */
  function SubmitError(post: Outcome<Session.LoginData>): Option<string>
  {
    if post.Ok? then None else Some(LoginErrorMessage(post))
  }

  /** The session after a submission: the store's `login`, then, if it resolved,
      navigation to the dashboard. */
  function Submitted(s: Session.SessionState, post: Outcome<Session.LoginData>, profile: Outcome<Session.User>): Session.SessionState
  {
    var r := Session.LoggedIn(s, post, profile);
    if post.Ok? then r.(browser := r.browser.(location := Middleware.DashboardPath)) else r
  }

  /** A resolved login lands on the dashboard even when the profile fetch failed
      and logged out, and the cookie written by the store lets the guard pass it. */
  lemma ResolvedLoginLandsOnDashboard(s: Session.SessionState, post: Outcome<Session.LoginData>, profile: Outcome<Session.User>)
    requires post.Ok? && post.data.accessToken != ""
    ensures var r := Submitted(s, post, profile);
            r.browser.location == "/dashboard" &&
            Middleware.Decide(r.browser.location, Middleware.CookieToken(r.browser.cookie)) == Middleware.Pass &&
            SubmitError(post) == None
  {
  }

  /** Wrong credentials answered with 401 set the message, but the response
      interceptor has already forced a reload of `/login`, which discards it. */
  lemma RejectedCredentialsReload(s: Session.SessionState, post: Outcome<Session.LoginData>, profile: Outcome<Session.User>)
    requires post.HttpError? && post.status == 401
    ensures SubmitError(post) == Some(InvalidCredentials)
    ensures var r := Submitted(s, post, profile);
            r.browser.reloadPending && r.browser.location == "/login"
  {
  }

  class LoginForm {
    var error: Option<string>
    var loginLoading: bool
    const auth: Session.AuthProvider

    constructor (auth: Session.AuthProvider)
      ensures this.auth == auth && error == None && !loginLoading
    {
      this.auth := auth;
      error := None;
      loginLoading := false;
    }

    /** `onSubmit` with already validated values; `post` and `profile` are how
        the login request and the profile request settle. */
    method OnSubmit(post: Outcome<Session.LoginData>, profile: Outcome<Session.User>)
      modifies this, auth, auth.browser
      ensures auth.State() == Submitted(old(auth.State()), post, profile)
      ensures error == SubmitError(post)
      ensures !loginLoading
    {
      loginLoading := true;
      error := None;
      var r := auth.Login(post, profile);
      if r.Ok? {
        auth.browser.location := Middleware.DashboardPath;
      } else {
        error := Some(LoginErrorMessage(r));
      }
      loginLoading := false;
    }
  }
}
