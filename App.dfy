/** The application shell (src/App.jsx): the bootstrap effect, the auth-state
    listener with its redirect policy, the initial-session query, and the route
    guard that picks the screen. Navigation is an output; the provider's replies
    are parameters. */
module App {
  import opened JsValues
  import opened AuthSlice

  // ---------------------------------------------------------------------------
  // Paths and the redirect policy.

  /** The pages a signed-out visitor may stay on. */
  predicate IsPublicPath(pathname: string)
  {
    pathname == "/" || pathname == "/login" || pathname == "/signup"
  }

  /** The two route paths guarded by the session. */
  predicate IsDashboardPath(pathname: string)
  {
    pathname == "/dashboard" || pathname == "/dashboard#submit-review"
  }

  const DashboardPath := "/dashboard"
  const LoginPath := "/login"

  /** Where an auth event sends the visitor: a signed-in user on a public page goes
      to the dashboard, a signed-out visitor on any other page goes to the login
      page, and nobody else moves. */
  function RedirectAfterAuthEvent(hasUser: bool, pathname: string): (nav: Option<string>)
    ensures nav == Some(DashboardPath) <==> hasUser && IsPublicPath(pathname)
    ensures nav == Some(LoginPath) <==> !hasUser && !IsPublicPath(pathname)
    ensures nav.Some? ==> nav == Some(DashboardPath) || nav == Some(LoginPath)
  {
    if hasUser then
      if IsPublicPath(pathname) then Some(DashboardPath) else None
    else
      if !IsPublicPath(pathname) then Some(LoginPath) else None
  }

  /** The policy never navigates to the page already shown, and it is settled after
      one step: the same event on the page it navigated to asks for no further move. */
  lemma RedirectSettles(hasUser: bool, pathname: string)
    ensures var nav := RedirectAfterAuthEvent(hasUser, pathname);
            nav.Some? ==> nav.value != pathname && RedirectAfterAuthEvent(hasUser, nav.value).None?
  {
  }

  // ---------------------------------------------------------------------------
  // The route guard.

  /** What the application renders. */
  datatype Screen = LoadingScreen | LandingScreen | LoginScreen(mode: string) | DashboardScreen

  /** The login page's mode outside its own routes: signup exactly on '/signup'. */
  function LoginMode(pathname: string): string
  {
    if pathname == "/signup" then "signup" else "login"
  }

  /** The screen for an auth loading flag, a path and whether a session is stored. */
  function Render(authLoading: bool, pathname: string, hasSession: bool): (screen: Screen)
    ensures authLoading <==> screen == LoadingScreen
    ensures screen == LandingScreen <==> !authLoading && pathname == "/"
    ensures screen == DashboardScreen <==> !authLoading && IsDashboardPath(pathname) && hasSession
    ensures screen.LoginScreen? <==>
              !authLoading && pathname != "/" && !(IsDashboardPath(pathname) && hasSession)
    ensures screen.LoginScreen? ==> (screen.mode == "signup" <==> pathname == "/signup")
  {
    if authLoading then LoadingScreen
    else if pathname == "/" then LandingScreen
    else if pathname == "/login" then LoginScreen("login")
    else if pathname == "/signup" then LoginScreen("signup")
    else if IsDashboardPath(pathname) then
      if hasSession then DashboardScreen else LoginScreen(LoginMode(pathname))
    else LoginScreen(LoginMode(pathname))
  }

  /** Once an auth event has been handled and loading is over, the page the visitor
      ends up on agrees with the event: a signed-in user who was on a public page or
      the dashboard sees the dashboard, and a visitor without a session never does. */
  lemma AuthEventThenRender(session: Option<Session>, pathname: string)
    ensures var hasUser := SessionUser(session).Some?;
            var nav := RedirectAfterAuthEvent(hasUser, pathname);
            var shown := if nav.Some? then nav.value else pathname;
            && (hasUser && (IsPublicPath(pathname) || IsDashboardPath(pathname))
                ==> Render(false, shown, session.Some?) == DashboardScreen)
            && (session.None? ==> Render(false, shown, session.Some?) != DashboardScreen)
            && (!hasUser ==> IsPublicPath(shown))
  {
  }

  // ---------------------------------------------------------------------------
  // Bootstrap, the listener and the initial-session query.

  const ClientMissingMessage := "Supabase client not properly initialized. Check console for .env errors."
  const InitialSessionFailedMessage := "Failed to get initial session."

  /** The `fetchUserProfile` dispatch an event starts: its user id and user object.
      The dispatch is not awaited; its pending case runs at once and it settles
      later through `AuthStore.FetchUserProfileSettled`. */
  datatype ProfileRequest = ProfileRequest(userId: string, user: User)

  /** The profile fetch a session calls for: one for its user, if it has one. */
  function ProfileRequestFor(session: Option<Session>): (request: Option<ProfileRequest>)
    ensures request.Some? <==> SessionUser(session).Some?
    ensures request.Some? ==> request.value.user == SessionUser(session).value
                              && request.value.userId == SessionUser(session).value.id
  {
    match SessionUser(session)
    case None => None
    case Some(user) => Some(ProfileRequest(user.id, user))
  }

  /** The bootstrap effect up to the point where it waits for the provider: without
      a usable client it stores the error and subscribes to nothing; otherwise it
      raises the loading flag and subscribes. */
  method Bootstrap(store: AuthStore, clientConfigured: bool) returns (subscribed: bool)
    modifies store
    ensures subscribed == clientConfigured
    ensures !clientConfigured ==>
              store.State() == old(store.State()).(error := Some(ClientMissingMessage), isLoading := false)
    ensures clientConfigured ==> store.State() == old(store.State()).(isLoading := true)
  {
    if !clientConfigured {
      store.SetAuthError(Some(ClientMissingMessage));
      subscribed := false;
      return;
    }
    store.SetAuthLoading(true);
    subscribed := true;
  }

  /** The auth-state listener: stores the event's session, starts the profile fetch
      for its user or clears the profile, navigates as the redirect policy says, and
      ends loading. */
  method OnAuthStateChange(store: AuthStore, currentSession: Option<Session>, pathname: string)
    returns (request: Option<ProfileRequest>, nav: Option<string>)
    modifies store
    ensures request == ProfileRequestFor(currentSession)
    ensures nav == RedirectAfterAuthEvent(SessionUser(currentSession).Some?, pathname)
    ensures store.State() == old(store.State()).(
              session := currentSession,
              profile := if request.Some? then old(store.profile) else None,
              isLoading := false,
              error := None)
  {
    store.SetSession(currentSession);
    request := ProfileRequestFor(currentSession);
    nav := None;
    if request.Some? {
      store.FetchUserProfilePending();
      if IsPublicPath(pathname) {
        nav := Some(DashboardPath);
      }
    } else {
      store.SetProfile(None);
      if !IsPublicPath(pathname) {
        nav := Some(LoginPath);
      }
    }
    store.SetAuthLoading(false);
  }

  /** The provider's answer to `getSession()`. */
  datatype SessionQuery = SessionLoaded(session: Option<Session>) | SessionQueryFailed

  /** The continuation of the initial-session query: a loaded session is stored and
      its user's profile fetch started; a failed query stores a fixed error. Loading
      ends either way. */
  method OnInitialSession(store: AuthStore, reply: SessionQuery) returns (request: Option<ProfileRequest>)
    modifies store
    ensures !store.isLoading
    ensures reply.SessionLoaded? ==>
              && request == ProfileRequestFor(reply.session)
              && store.State() == old(store.State()).(session := reply.session, isLoading := false, error := None)
    ensures reply.SessionQueryFailed? ==>
              && request.None?
              && store.State() == old(store.State()).(isLoading := false, error := Some(InitialSessionFailedMessage))
  {
    request := None;
    match reply {
    case SessionLoaded(initialSession) =>
      store.SetSession(initialSession);
      request := ProfileRequestFor(initialSession);
      if request.Some? {
        store.FetchUserProfilePending();
      }
    case SessionQueryFailed =>
      store.SetAuthError(Some(InitialSessionFailedMessage));
    }
    store.SetAuthLoading(false);
  }

  /** The listener and the initial-session query both store what they receive, with
      no check of which is more recent: when the query's answer arrives after an
      event, its session replaces the event's, even one that signed the user out. */
  method InitialSessionAfterEvent(store: AuthStore, eventSession: Option<Session>, pathname: string,
                                  initialSession: Option<Session>)
    returns (nav: Option<string>)
    modifies store
    ensures nav == RedirectAfterAuthEvent(SessionUser(eventSession).Some?, pathname)
    ensures store.session == initialSession && !store.isLoading && store.error.None?
  {
    var request;
    request, nav := OnAuthStateChange(store, eventSession, pathname);
    request := OnInitialSession(store, SessionLoaded(initialSession));
  }
}
