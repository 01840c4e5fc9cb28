/** The application shell (frontend/src/App.jsx): which screen a path shows
    for the store's `loading`, `user` and `hasVisited`, and the onboarding
    modal that opens for a signed-in user until it has been completed once.
    `loading` belongs to the authentication provider, not to the store
    modelled in AuthStore, and is an input here. */
module App {
  import opened Wrappers
  import opened Js
  import opened WebStorage
  import opened Text
  import ProtectedRoute

  datatype Page = Landing | WelcomeBack | Login | SignUp | Dashboard | Demo | About

  /** What the shell renders for a path. `GuardSpinner` is the route
      guard's own spinner, told apart from the shell's loading screen. */
  datatype Screen =
    | LoadingScreen
    | GuardSpinner
    | Navigate(to: string, from: Option<string>)
    | Show(page: Page)

  /** `s` without its trailing slashes. */
  function TrimTrailingSlashes(s: string): (t: string)
    ensures t <= s
    ensures t == [] || t[|t| - 1] != '/'
    ensures forall i :: |t| <= i < |s| ==> s[i] == '/'
    decreases |s|
  {
    if s != [] && s[|s| - 1] == '/' then TrimTrailingSlashes(s[..|s| - 1]) else s
  }

  /** The route a pathname selects. The router matches a route's path
      ignoring ASCII case and any trailing slashes, so a pathname is
      compared in that form; the slashes alone are the root. */
  function RoutePath(path: string): (route: string)
    ensures route != []
    ensures route == "/" || route[|route| - 1] != '/'
    ensures forall i :: 0 <= i < |route| ==> !('A' <= route[i] <= 'Z')
  {
    var trimmed := TrimTrailingSlashes(AsciiLower(path));
    if trimmed == [] then "/" else trimmed
  }

  /** A path already in the form `RoutePath` gives is its own route, so
      `RoutePath` is idempotent and every route's own path selects it. */
  lemma RoutePathKeepsCanonical(path: string)
    requires path != []
    requires path == "/" || path[|path| - 1] != '/'
    requires forall i :: 0 <= i < |path| ==> !('A' <= path[i] <= 'Z')
    ensures RoutePath(path) == path
  {
    assert AsciiLower(path) == path;
    if path == "/" {
      assert TrimTrailingSlashes(path) == TrimTrailingSlashes([]);
    }
  }

  lemma RoutePathIdempotent(path: string)
    ensures RoutePath(RoutePath(path)) == RoutePath(path)
  {
    RoutePathKeepsCanonical(RoutePath(path));
  }

  /** The guarded routes: their `requireAuth` and the page they wrap. */
  function GuardedRoute(path: string): (route: Option<(bool, Page)>)
    ensures route.Some? <==> path in {"/login", "/signup", "/dashboard"}
    ensures route.Some? ==> (route.value.0 <==> path == "/dashboard")
  {
    if path == "/login" then Some((false, Login))
    else if path == "/signup" then Some((false, SignUp))
    else if path == "/dashboard" then Some((true, Dashboard))
    else None
  }

  /** A guard's outcome as a screen. */
  function Guarded(o: ProtectedRoute.Outcome, page: Page): Screen {
    match o
    case Spinner => GuardSpinner
    case RedirectLogin(from) => Navigate("/login", Some(from))
    case RedirectDashboard => Navigate("/dashboard", None)
    case Children => Show(page)
  }

  /** The path's screen: the loading screen while loading; "/" by user and
      visit; the guarded routes through the guard, which is given the
      pathname as typed; /demo and /about as they are; anything else back
      to "/". Routes are told apart by `RoutePath`. */
  function Resolve(loading: bool, user: Value, hasVisited: bool, path: string): (s: Screen)
    ensures s == LoadingScreen <==> loading
    ensures s != GuardSpinner
    ensures s == Show(Dashboard) ==> Truthy(user) && RoutePath(path) == "/dashboard"
    ensures s == Show(Login) || s == Show(SignUp) ==> !Truthy(user)
    ensures s == Show(Landing) || s == Show(WelcomeBack) ==> !Truthy(user) && RoutePath(path) == "/"
    ensures s == Show(Demo) <==> !loading && RoutePath(path) == "/demo"
    ensures s == Show(About) <==> !loading && RoutePath(path) == "/about"
    ensures !loading && RoutePath(path) !in {"/", "/login", "/signup", "/dashboard", "/demo", "/about"} ==>
              s == Navigate("/", None)
    ensures s.Navigate? ==> s.to in {"/", "/login", "/dashboard"}
  {
    var route := RoutePath(path);
    if loading then LoadingScreen
    else if route == "/" then
      if Truthy(user) then Navigate("/dashboard", None)
      else if hasVisited then Show(WelcomeBack)
      else Show(Landing)
    else match GuardedRoute(route)
      case Some((requireAuth, page)) =>
        Guarded(ProtectedRoute.Guard(loading, user, path, requireAuth), page)
      case None =>
        if route == "/demo" then Show(Demo)
        else if route == "/about" then Show(About)
        else Navigate("/", None)
  }

  /** Two pathnames that select the same route get the same screen; only
      the pathname recorded by a redirect to the login page can differ. */
  lemma SameRouteSameScreen(loading: bool, user: Value, hasVisited: bool, p: string, q: string)
    requires RoutePath(p) == RoutePath(q)
    ensures Resolve(loading, user, hasVisited, p).Navigate? <==> Resolve(loading, user, hasVisited, q).Navigate?
    ensures Resolve(loading, user, hasVisited, p).Navigate? ==>
              Resolve(loading, user, hasVisited, p).to == Resolve(loading, user, hasVisited, q).to
    ensures !Resolve(loading, user, hasVisited, p).Navigate? ==>
              Resolve(loading, user, hasVisited, p) == Resolve(loading, user, hasVisited, q)
  {
  }

  /** The router ignores ASCII case and trailing slashes: "/Dashboard/"
      shows a signed-in user the dashboard and "/Demo" the demo. */
  lemma CaseAndTrailingSlashIgnored(user: Value, hasVisited: bool)
    ensures Truthy(user) ==> Resolve(false, user, hasVisited, "/Dashboard/") == Show(Dashboard)
    ensures Resolve(false, user, hasVisited, "/Demo") == Show(Demo)
    ensures Resolve(false, user, hasVisited, "/about//") == Show(About)
  {
    RoutePathExamples();
  }

  lemma RoutePathExamples()
    ensures RoutePath("/Dashboard/") == "/dashboard"
    ensures RoutePath("/Demo") == "/demo"
    ensures RoutePath("/about//") == "/about"
  {
    assert AsciiLower("/Dashboard/") == "/dashboard/";
    assert TrimTrailingSlashes("/dashboard/") == "/dashboard";
    assert AsciiLower("/Demo") == "/demo";
    assert AsciiLower("/about//") == "/about//";
    assert TrimTrailingSlashes("/about//") == "/about";
  }

  /** The screen after following at most `hops` redirects. */
  function Follow(user: Value, hasVisited: bool, path: string, hops: nat): Screen
    decreases hops
  {
    match Resolve(false, user, hasVisited, path)
    case Navigate(to, _) => if hops == 0 then Navigate(to, None) else Follow(user, hasVisited, to, hops - 1)
    case s => s
  }

  /** No redirect loop: from any path, two redirects at most reach a page.
      A signed-in user ends on the dashboard from everywhere but /demo and
      /about; a signed-out visitor sent away from the dashboard ends on the
      login page. */
  lemma NoRedirectLoop(user: Value, hasVisited: bool, path: string)
    ensures Follow(user, hasVisited, path, 2).Show?
    ensures Truthy(user) && RoutePath(path) != "/demo" && RoutePath(path) != "/about" ==>
              Follow(user, hasVisited, path, 2) == Show(Dashboard)
    ensures !Truthy(user) && RoutePath(path) == "/dashboard" ==> Follow(user, hasVisited, path, 2) == Show(Login)
  {
    var first := Resolve(false, user, hasVisited, path);
    if first.Navigate? {
      FollowFromTarget(user, hasVisited, first.to);
    }
  }

  /** One more redirect from any redirect target reaches a page. */
  lemma FollowFromTarget(user: Value, hasVisited: bool, to: string)
    requires to in {"/", "/login", "/dashboard"}
    ensures Truthy(user) ==> Follow(user, hasVisited, to, 1) == Show(Dashboard)
    ensures !Truthy(user) ==>
              Follow(user, hasVisited, to, 1) ==
                (if to != "/" then Show(Login) else if hasVisited then Show(WelcomeBack) else Show(Landing))
  {
    ResolveTargets(user, hasVisited);
  }

  /** Where the three redirect targets lead when nothing is loading. */
  lemma ResolveTargets(user: Value, hasVisited: bool)
    ensures Resolve(false, user, hasVisited, "/") ==
              if Truthy(user) then Navigate("/dashboard", None)
              else if hasVisited then Show(WelcomeBack) else Show(Landing)
    ensures Resolve(false, user, hasVisited, "/dashboard") ==
              if Truthy(user) then Show(Dashboard) else Navigate("/login", Some("/dashboard"))
    ensures Resolve(false, user, hasVisited, "/login") ==
              if Truthy(user) then Navigate("/dashboard", None) else Show(Login)
  {
    RoutePathKeepsCanonical("/");
    RoutePathKeepsCanonical("/dashboard");
    RoutePathKeepsCanonical("/login");
  }

  /** The value `!localStorage.getItem(key)` tests: a missing key, or an
      empty string, reads as not set. */
  predicate Unset(v: Option<string>) {
    v.None? || v.value == ""
  }

  const OnboardingKey := "onboarding-completed"

  /** The shell's own state: whether the onboarding modal is open, over the
      shared storage. */
  class Shell {
    const storage: LocalStorage
    var showOnboarding: bool

    constructor(storage: LocalStorage)
      ensures this.storage == storage && !showOnboarding
    {
      this.storage := storage;
      showOnboarding := false;
    }

    /** Onboarding has been completed in this browser. */
    predicate Completed()
      reads storage
    {
      !Unset(storage.GetItem(OnboardingKey))
    }

    /** The effect that runs when `user` changes: a signed-in user who has
        not completed onboarding gets the modal; otherwise it stays as it
        was (the effect never closes it). */
    method OnUserChanged(user: Value)
      modifies this
      ensures Truthy(user) && !Completed() ==> showOnboarding
      ensures !(Truthy(user) && !Completed()) ==> showOnboarding == old(showOnboarding)
      ensures unchanged(storage)
    {
      if Truthy(user) && Unset(storage.GetItem(OnboardingKey)) {
        showOnboarding := true;
      }
    }

    /** `handleOnboardingComplete`: the modal closes and the flag is stored. */
    method OnboardingComplete()
      modifies this, storage
      ensures !showOnboarding
      ensures storage.items == old(storage.items)[OnboardingKey := "true"]
      ensures Completed()
    {
      showOnboarding := false;
      storage.SetItem(OnboardingKey, "true");
    }
  }

  /** Once completed, onboarding stays closed whatever users come and go,
      and also in a shell created afresh over the same storage. */
  method CompletedStaysClosed(shell: Shell, users: seq<Value>) returns (reopened: Shell)
    modifies shell, shell.storage
    ensures !shell.showOnboarding && shell.Completed()
    ensures !reopened.showOnboarding && reopened.Completed()
  {
    shell.OnboardingComplete();
    for i := 0 to |users|
      invariant !shell.showOnboarding && shell.Completed()
    {
      shell.OnUserChanged(users[i]);
    }
    reopened := new Shell(shell.storage);
    for i := 0 to |users|
      invariant !reopened.showOnboarding && reopened.Completed()
      invariant !shell.showOnboarding && shell.Completed()
    {
      reopened.OnUserChanged(users[i]);
    }
  }
}
