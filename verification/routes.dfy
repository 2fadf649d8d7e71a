/**
 * The client's route table and the guard that wraps every page except login
 * and registration. Paths are compared exactly.
 */
module Routes {
  /** What `ProtectedRoute` renders. */
  datatype GuardView = LoadingView | RedirectTo(path: string, replace: bool) | ChildrenView

  /** `ProtectedRoute`: loading first, then the redirect, then the wrapped page. */
  function Guard(isAuthenticated: bool, loading: bool): (v: GuardView)
    ensures loading ==> v == LoadingView
    ensures !loading && !isAuthenticated ==> v == RedirectTo("/login", true)
    ensures !loading && isAuthenticated ==> v == ChildrenView
  {
    if loading then LoadingView
    else if !isAuthenticated then RedirectTo("/login", true)
    else ChildrenView
  }

  datatype Page =
    | LoginPage | RegisterPage | IndexPage | BudgetPage | GoalsPage | SafetyPage
    | ChildrenPage | MarriagePage | SettingsPage | HelpPage | NotFoundPage

  datatype Route = Route(path: string, page: Page, guarded: bool)

  /** `AppRoutes`, in declaration order; the catch-all comes after these. */
  const RouteTable: seq<Route> := [
    Route("/login", LoginPage, false),
    Route("/register", RegisterPage, false),
    Route("/", IndexPage, true),
    Route("/budget", BudgetPage, true),
    Route("/goals", GoalsPage, true),
    Route("/safety", SafetyPage, true),
    Route("/children", ChildrenPage, true),
    Route("/marriage", MarriagePage, true),
    Route("/settings", SettingsPage, true),
    Route("/help", HelpPage, true)
  ]

  const GuardedPaths: set<string> := {"/", "/budget", "/goals", "/safety", "/children", "/marriage", "/settings", "/help"}
  const OpenPaths: set<string> := {"/login", "/register"}

  /** The first route whose path matches, or the unguarded NotFound page. */
  function Lookup(table: seq<Route>, path: string): (r: Route)
    ensures r.path == path
    ensures r.page == NotFoundPage || exists i :: 0 <= i < |table| && table[i] == r
    ensures (forall i :: 0 <= i < |table| ==> table[i].path != path) ==> r == Route(path, NotFoundPage, false)
  {
    if table == [] then Route(path, NotFoundPage, false)
    else if table[0].path == path then table[0]
    else Lookup(table[1..], path)
  }

  /** Which page a path resolves to and whether the guard wraps it. */
  function Resolve(path: string): Route
  {
    Lookup(RouteTable, path)
  }

  /** Lookup returns the first route with the path. */
  lemma {:induction false} LookupFirst(table: seq<Route>, k: nat, path: string)
    requires k < |table| && table[k].path == path
    requires forall j :: 0 <= j < k ==> table[j].path != path
    ensures Lookup(table, path) == table[k]
  {
    if k > 0 {
      var rest := table[1..];
      assert forall j :: 0 <= j < k - 1 ==> rest[j] == table[j + 1];
      LookupFirst(rest, k - 1, path);
    }
  }

  /** The table's paths are distinct, so each declared path resolves to its own route. */
  lemma ResolveDeclared(i: nat)
    requires i < |RouteTable|
    ensures Resolve(RouteTable[i].path) == RouteTable[i]
  {
    var t := RouteTable;
    assert forall j, k :: 0 <= j < k < |t| ==> t[j].path != t[k].path;
    LookupFirst(t, i, t[i].path);
  }

  /** Exactly the eight listed paths are guarded, and exactly the ten declared paths have a page of their own. */
  lemma {:induction false} GuardedPathsExactly(path: string)
    ensures Resolve(path).guarded <==> path in GuardedPaths
    ensures Resolve(path).page == NotFoundPage <==> path !in GuardedPaths + OpenPaths
  {
    var t := RouteTable;
    if i :| 0 <= i < |t| && t[i].path == path {
      ResolveDeclared(i);
      DeclaredRoute(i);
    } else if path in GuardedPaths + OpenPaths {
      Listed(path);
      assert false;
    }
  }

  /** A declared route is guarded exactly when its path is listed as guarded. */
  lemma DeclaredRoute(i: nat)
    requires i < |RouteTable|
    ensures RouteTable[i].page != NotFoundPage
    ensures RouteTable[i].guarded <==> RouteTable[i].path in GuardedPaths
    ensures RouteTable[i].path in GuardedPaths + OpenPaths
  {
    var t := RouteTable;
    if i == 0 { assert t[i].path == "/login"; }
    else if i == 1 { assert t[i].path == "/register"; }
  }

  /** Every listed path is declared in the table. */
  lemma Listed(path: string)
    requires path in GuardedPaths + OpenPaths
    ensures exists i :: 0 <= i < |RouteTable| && RouteTable[i].path == path
  {
    var t := RouteTable;
    if path == "/login" { assert t[0].path == path; }
    else if path == "/register" { assert t[1].path == path; }
    else if path == "/" { assert t[2].path == path; }
    else if path == "/budget" { assert t[3].path == path; }
    else if path == "/goals" { assert t[4].path == path; }
    else if path == "/safety" { assert t[5].path == path; }
    else if path == "/children" { assert t[6].path == path; }
    else if path == "/marriage" { assert t[7].path == path; }
    else if path == "/settings" { assert t[8].path == path; }
    else { assert t[9].path == path; }
  }

  datatype Screen = PageScreen(page: Page) | LoadingScreen | Redirected(to: string, replace: bool)

  /** What the user sees at a path for a given authentication state. */
  function Show(path: string, isAuthenticated: bool, loading: bool): (s: Screen)
    ensures s.PageScreen? ==> s.page == Resolve(path).page
    ensures s.Redirected? ==> s == Redirected("/login", true) && !loading && !isAuthenticated
    ensures s.LoadingScreen? ==> loading
  {
    var route := Resolve(path);
    if !route.guarded then PageScreen(route.page)
    else match Guard(isAuthenticated, loading)
      case LoadingView => LoadingScreen
      case RedirectTo(to, replace) => Redirected(to, replace)
      case ChildrenView => PageScreen(route.page)
  }

  /** A guarded page is shown only to an authenticated user once loading has finished. */
  lemma GuardedPageNeedsAuthentication(path: string, isAuthenticated: bool, loading: bool)
    requires path in GuardedPaths
    ensures Show(path, isAuthenticated, loading).PageScreen? <==> isAuthenticated && !loading
  {
    GuardedPathsExactly(path);
  }

  /** Login and registration are shown whatever the authentication state. */
  lemma OpenPageAlwaysShown(path: string, isAuthenticated: bool, loading: bool)
    requires path !in GuardedPaths
    ensures Show(path, isAuthenticated, loading) == PageScreen(Resolve(path).page)
  {
    GuardedPathsExactly(path);
  }

  /** An unauthenticated visit to a guarded page redirects to the login page, which is open, so the redirect cannot loop. */
  lemma RedirectTargetIsOpen(path: string, isAuthenticated: bool, loading: bool)
    requires path in GuardedPaths && !loading && !isAuthenticated
    ensures Show(path, isAuthenticated, loading) == Redirected("/login", true)
    ensures Show("/login", isAuthenticated, loading) == PageScreen(LoginPage)
  {
    GuardedPathsExactly(path);
    assert Lookup(RouteTable, "/login") == RouteTable[0];
  }

  /** Paths outside the table fall through to NotFound, which is shown without a guard. */
  lemma UnknownPathIsNotFound(path: string, isAuthenticated: bool, loading: bool)
    requires path !in GuardedPaths + OpenPaths
    ensures Show(path, isAuthenticated, loading) == PageScreen(NotFoundPage)
  {
    GuardedPathsExactly(path);
  }

  /** Names close to a page but not declared, such as a plural or a page that does not exist, are not found. */
  lemma UnlistedNamesAreNotFound(isAuthenticated: bool, loading: bool)
    ensures Show("/budgets", isAuthenticated, loading) == PageScreen(NotFoundPage)
    ensures Show("/dashboard", isAuthenticated, loading) == PageScreen(NotFoundPage)
  {
    assert "/budgets" !in GuardedPaths + OpenPaths;
    assert "/dashboard" !in GuardedPaths + OpenPaths;
    UnknownPathIsNotFound("/budgets", isAuthenticated, loading);
    UnknownPathIsNotFound("/dashboard", isAuthenticated, loading);
  }
}
