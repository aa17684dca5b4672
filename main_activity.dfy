/**
 * The app shell in `MainActivity.kt`: which screen the auth state shows, the
 * bottom bar's root-route rule and selection, the top bar's title, the
 * drawer's header fallbacks and what a drawer click does, and the logout
 * confirmation.
 */
module MainShell {
  import opened Wrappers
  import opened Strings
  import opened AuthUi

  const HOME: string := "dashboard"
  const CURRENT_AFFAIRS: string := "current_affairs"
  const TESTS: string := "tests"
  const PYQ: string := "pyq"
  const NOTES: string := "notes"
  const LOGOUT: string := "logout"

  /** The bottom bar's four items, in order. */
  const BOTTOM_ITEMS: seq<string> := [HOME, TESTS, PYQ, NOTES]

  const APP_TITLE: string := "Dream IAS Elite"
  const FREE_PLAN: string := "UPSC CSE • Free plan"

  // ---------------------------------------------------------------------
  // Which screen the root shows
  // ---------------------------------------------------------------------

  datatype RootScreen = LoadingScreen | AuthScreen | MainScreen

  /** The root `when`: a spinner while loading, the auth screen while signed out, else the drawer and scaffold. */
  function ScreenFor(s: AuthUiState): (r: RootScreen)
    ensures r == LoadingScreen <==> s.isLoading
    ensures r == AuthScreen <==> !s.isLoading && !s.isAuthenticated
    ensures r == MainScreen <==> !s.isLoading && s.isAuthenticated
  {
    if s.isLoading then LoadingScreen
    else if !s.isAuthenticated then AuthScreen
    else MainScreen
  }

  // ---------------------------------------------------------------------
  // Bottom bar
  // ---------------------------------------------------------------------

  /** The four rules of `rootForRoute`, one per bottom-bar item. */
  predicate HomeRule(x: string) { x == HOME || StartsWith(x, "subject_dashboard") }
  predicate TestsRule(x: string) { StartsWith(x, "test_") || x == TESTS }
  predicate PyqRule(x: string) { StartsWith(x, "pyq") || x == PYQ }
  predicate NotesRule(x: string) { StartsWith(x, "notes") || x == NOTES }
  predicate OwnRoot(x: string) { !HomeRule(x) && !TestsRule(x) && !PyqRule(x) && !NotesRule(x) }

  /**
   * `rootForRoute`: the bottom-bar item a route belongs to. Rules are tried
   * in order; a route no rule claims is its own root.
   */
  function RootForRoute(route: Option<string>): (r: Option<string>)
    ensures r.None? <==> route.None?
    ensures route.Some? && HomeRule(route.value) ==> r == Some(HOME)
    ensures route.Some? && !HomeRule(route.value) ==> (r == Some(TESTS) <==> TestsRule(route.value))
    ensures route.Some? && !HomeRule(route.value) && !TestsRule(route.value) ==>
              (r == Some(PYQ) <==> PyqRule(route.value))
    ensures route.Some? && !HomeRule(route.value) && !TestsRule(route.value) && !PyqRule(route.value) ==>
              (r == Some(NOTES) <==> NotesRule(route.value))
    ensures route.Some? && OwnRoot(route.value) ==> r == route
    ensures route.Some? && r.Some? && r.value !in BOTTOM_ITEMS ==> r == route
  {
    match route
    case None => None
    case Some(x) =>
      if HomeRule(x) then Some(HOME)
      else if TestsRule(x) then Some(TESTS)
      else if PyqRule(x) then Some(PYQ)
      else if NotesRule(x) then Some(NOTES)
      else Some(x)
  }

  /** The four bottom-bar routes are their own roots. */
  lemma BottomItemsAreRoots()
    ensures forall i | 0 <= i < |BOTTOM_ITEMS| :: RootForRoute(Some(BOTTOM_ITEMS[i])) == Some(BOTTOM_ITEMS[i])
  {
    assert !StartsWith(TESTS, "test_") by { assert TESTS[4] != '_'; }
    assert !StartsWith(PYQ, "subject_dashboard") && !StartsWith(NOTES, "subject_dashboard");
    assert !StartsWith(NOTES, "pyq") by { assert NOTES[0] != 'p'; }
    assert !StartsWith(PYQ, "test_") && !StartsWith(NOTES, "test_");
  }

  /** Taking the root twice is taking it once. */
  lemma RootForRouteIdempotent(route: Option<string>)
    ensures RootForRoute(RootForRoute(route)) == RootForRoute(route)
  {
    BottomItemsAreRoots();
    var r := RootForRoute(route);
    if r.Some? && r.value in BOTTOM_ITEMS {
      var i :| 0 <= i < |BOTTOM_ITEMS| && BOTTOM_ITEMS[i] == r.value;
      assert RootForRoute(Some(BOTTOM_ITEMS[i])) == Some(BOTTOM_ITEMS[i]);
    }
  }

  /** Item `i` of the bottom bar is drawn selected for the current route. */
  predicate ItemSelected(current: Option<string>, i: nat)
    requires i < |BOTTOM_ITEMS|
  {
    RootForRoute(current) == Some(BOTTOM_ITEMS[i])
  }

  /** The four item routes are distinct, so at most one item is selected. */
  lemma AtMostOneItemSelected(current: Option<string>, i: nat, j: nat)
    requires i < |BOTTOM_ITEMS| && j < |BOTTOM_ITEMS|
    requires ItemSelected(current, i) && ItemSelected(current, j)
    ensures i == j
  {
    assert BOTTOM_ITEMS[i] == BOTTOM_ITEMS[j];
    assert HOME[0] == 'd' && TESTS[0] == 't' && PYQ[0] == 'p' && NOTES[0] == 'n';
  }

  // ---------------------------------------------------------------------
  // Top bar and drawer header
  // ---------------------------------------------------------------------

  /** The routes with a title of their own, and those titles. */
  const TITLED_ROUTES: seq<(string, string)> := [
    (HOME, "Dashboard"),
    (CURRENT_AFFAIRS, "Current Affairs"),
    (TESTS, "Test Series"),
    (PYQ, "Previous Year Questions"),
    (NOTES, "Notes"),
    ("theme_appearance", "Theme & Appearance"),
    ("settings", "Settings"),
    ("help_feedback", "Help & Feedback"),
    ("about_privacy", "About & Privacy"),
    ("study_planner", "Study Planner")
  ]

  /** `DreamTopBar`'s `when (currentRoute)`. */
  function TopBarTitle(route: Option<string>): (r: string)
    ensures !IsBlank(r)
  {
    var title :=
      if route == Some(HOME) then "Dashboard"
      else if route == Some(CURRENT_AFFAIRS) then "Current Affairs"
      else if route == Some(TESTS) then "Test Series"
      else if route == Some(PYQ) then "Previous Year Questions"
      else if route == Some(NOTES) then "Notes"
      else if route == Some("theme_appearance") then "Theme & Appearance"
      else if route == Some("settings") then "Settings"
      else if route == Some("help_feedback") then "Help & Feedback"
      else if route == Some("about_privacy") then "About & Privacy"
      else if route == Some("study_planner") then "Study Planner"
      else APP_TITLE;
    assert 'A' <= title[0] <= 'Z';
    title
  }

  /** Each of the ten routes gets its listed title; every other route, or none, gets the app's name. */
  lemma TopBarTitleTable(route: Option<string>)
    ensures forall k | 0 <= k < |TITLED_ROUTES| :: TopBarTitle(Some(TITLED_ROUTES[k].0)) == TITLED_ROUTES[k].1
    ensures (forall k | 0 <= k < |TITLED_ROUTES| :: route != Some(TITLED_ROUTES[k].0)) ==> TopBarTitle(route) == APP_TITLE
  {
    var t := TITLED_ROUTES;
    assert t[0].0 == HOME && t[1].0 == CURRENT_AFFAIRS && t[2].0 == TESTS && t[3].0 == PYQ && t[4].0 == NOTES;
    assert t[5].0 == "theme_appearance" && t[6].0 == "settings" && t[7].0 == "help_feedback";
    assert t[8].0 == "about_privacy" && t[9].0 == "study_planner";
  }

  /** No titled route is called "Dream IAS Elite", so the app's name appears exactly for the other routes. */
  lemma AppTitleOnlyForUntitled(route: Option<string>)
    ensures TopBarTitle(route) == APP_TITLE <==> forall k | 0 <= k < |TITLED_ROUTES| :: route != Some(TITLED_ROUTES[k].0)
  {
    if TopBarTitle(route) == APP_TITLE {
      forall k | 0 <= k < |TITLED_ROUTES|
        ensures route != Some(TITLED_ROUTES[k].0)
      {
        TopBarTitleTable(route);
        assert TITLED_ROUTES[k].1 != APP_TITLE by { assert TITLED_ROUTES[k].1[0] != 'D' || TITLED_ROUTES[k].1[1] != 'r'; }
      }
    } else {
      TopBarTitleTable(route);
    }
  }

  /** The drawer header's name and email line, which are never blank. */
  function DrawerHeaderLines(userName: Option<string>, userEmail: Option<string>): (r: (string, string))
    ensures r.0 == OrIfBlank(userName, APP_TITLE) && r.1 == OrIfBlank(userEmail, FREE_PLAN)
    ensures !IsBlank(r.0) && !IsBlank(r.1)
  {
    assert !IsWhitespace(APP_TITLE[0]) && !IsWhitespace(FREE_PLAN[0]);
    (OrIfBlank(userName, APP_TITLE), OrIfBlank(userEmail, FREE_PLAN))
  }

  // ---------------------------------------------------------------------
  // Drawer clicks and the logout dialog
  // ---------------------------------------------------------------------

  /** What `DreamIasApp` asks of the navigator and the dialog, step by step. */
  class AppShell {
    const viewModel: AuthViewModel
    var showLogoutDialog: bool
    /** The routes passed to `navController.navigate`, oldest first. */
    var navigations: seq<string>

    ghost predicate Valid()
      reads this, viewModel, viewModel.repository, viewModel.repository.dao
    {
      viewModel.Valid()
    }

    constructor (viewModel: AuthViewModel)
      requires viewModel.Valid()
      ensures Valid() && this.viewModel == viewModel && !showLogoutDialog && navigations == []
    {
      this.viewModel := viewModel;
      showLogoutDialog := false;
      navigations := [];
    }

    /**
     * `onItemClick`: "logout" only opens the confirmation; no route or the
     * current route does nothing; any other route is navigated to.
     */
    method OnDrawerItemClick(route: Option<string>, current: Option<string>)
      modifies this`showLogoutDialog, this`navigations
      ensures route == Some(LOGOUT) ==> showLogoutDialog && navigations == old(navigations)
      ensures route != Some(LOGOUT) ==> showLogoutDialog == old(showLogoutDialog)
      ensures route != Some(LOGOUT) && route.Some? && route != current ==>
                navigations == old(navigations) + [route.value]
      ensures route.None? || route == current ==> navigations == old(navigations)
    {
      if route == Some(LOGOUT) {
        showLogoutDialog := true;
      } else if route.Some? && route != current {
        navigations := navigations + [route.value];
      }
    }

    /** "Confirm": close the dialog, log out, and go to the dashboard. */
    method ConfirmLogout()
      requires Valid()
      modifies this`showLogoutDialog, this`navigations, viewModel`state, viewModel.repository`currentUserEmail
      ensures Valid()
      ensures !showLogoutDialog && navigations == old(navigations) + [HOME]
      ensures viewModel.state == LoggedOut(old(viewModel.state)) && viewModel.repository.currentUserEmail == None
    {
      showLogoutDialog := false;
      viewModel.Logout();
      navigations := navigations + [HOME];
    }

    /** "Cancel" or tapping outside. */
    method DismissLogout()
      modifies this`showLogoutDialog
      ensures !showLogoutDialog
    {
      showLogoutDialog := false;
    }
  }
}
