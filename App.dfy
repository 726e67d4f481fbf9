/** The top-level shell: which screen is shown (`view`) and which role is
    active (`selectedRole`), the four handlers that change them, the dispatch
    from that state to a screen, and the chat widget, which is mounted on
    every screen and always receives `selectedRole`. */
module Application {
  import opened Types
  import AIAssistant

  datatype View = LandingView | LoginView | DashboardView

  datatype Screen =
    | LandingScreen
    | LoginScreen(role: Role)
    | CustomerDashboard
    | DriverDashboard
    | PartnerDashboard
    | DispatcherDashboard

  datatype AppState = AppState(view: View, selectedRole: Role)

  const InitialApp: AppState := AppState(LandingView, Landing)

  /** The roles offered by the four cards of the landing page. */
  const LandingCards: seq<Role> := [Customer, Driver, Partner, Dispatcher]

  /** The dashboard of an operational role. */
  function Dashboard(role: Role): Screen
    requires role != Landing
  {
    match role
    case Customer => CustomerDashboard
    case Driver => DriverDashboard
    case Partner => PartnerDashboard
    case Dispatcher => DispatcherDashboard
  }

  /** `renderContent`: the landing and login views show their pages, the
      dashboard view shows the role's dashboard, and falls back to the
      landing page when no role is selected. */
  function RenderContent(s: AppState): (screen: Screen)
    ensures s.view == LandingView ==> screen == LandingScreen
    ensures s.view == LoginView ==> screen == LoginScreen(s.selectedRole)
    ensures s.view == DashboardView ==>
      if s.selectedRole == Landing then screen == LandingScreen else screen == Dashboard(s.selectedRole)
  {
    match s.view
    case LandingView => LandingScreen
    case LoginView => LoginScreen(s.selectedRole)
    case DashboardView => if s.selectedRole == Landing then LandingScreen else Dashboard(s.selectedRole)
  }

  /** Off the landing view, the screen shown tells the state apart: two
      states that render the same login page or dashboard are equal. */
  lemma RenderContentDistinguishes(s: AppState, t: AppState)
    requires s.view != LandingView && t.view != LandingView
    requires s.selectedRole != Landing && t.selectedRole != Landing
    ensures RenderContent(s) == RenderContent(t) ==> s == t
  {
  }

  /** `handleSelectRole`: the login page for the picked role is shown. */
  function SelectRoleStep(s: AppState, role: Role): (r: AppState)
    ensures r.selectedRole == role && RenderContent(r) == LoginScreen(role)
  {
    AppState(LoginView, role)
  }

  /** `handleLogin`: an operational role's dashboard is shown. */
  function LoginStep(s: AppState, role: Role): (r: AppState)
    ensures r.selectedRole == role && r.view == DashboardView
    ensures role != Landing ==> RenderContent(r) == Dashboard(role)
  {
    AppState(DashboardView, role)
  }

  /** `handleLogout`: back to the state the application starts in. */
  function LogoutStep(s: AppState): (r: AppState)
    ensures r == InitialApp && RenderContent(r) == LandingScreen
  {
    AppState(LandingView, Landing)
  }

  /** The login page's back action: the landing page is shown and the
      selected role is kept. */
  function BackStep(s: AppState): (r: AppState)
    ensures r.view == LandingView && r.selectedRole == s.selectedRole && RenderContent(r) == LandingScreen
  {
    s.(view := LandingView)
  }

  datatype AppEvent = RolePicked(role: Role) | LoggedIn(role: Role) | LogoutClicked | BackClicked

  /** What the shown screen lets the user do: the landing page offers its
      four cards, the login page signs in with the role it was given or goes
      back, a dashboard logs out. */
  predicate Offered(screen: Screen, e: AppEvent): (ok: bool)
    ensures ok && e.RolePicked? ==> screen == LandingScreen && e.role != Landing
    ensures ok && e.LoggedIn? ==> screen == LoginScreen(e.role)
    ensures ok && e.BackClicked? ==> screen.LoginScreen?
  {
    match screen
    case LandingScreen => e.RolePicked? && e.role in LandingCards
    case LoginScreen(role) => e == LoggedIn(role) || e == BackClicked
    case _ => e == LogoutClicked
  }

  function AppStep(s: AppState, e: AppEvent): AppState {
    match e
    case RolePicked(role) => SelectRoleStep(s, role)
    case LoggedIn(role) => LoginStep(s, role)
    case LogoutClicked => LogoutStep(s)
    case BackClicked => BackStep(s)
  }

  predicate AppRunnable(s: AppState, es: seq<AppEvent>)
    decreases |es|
  {
    es == [] || (Offered(RenderContent(s), es[0]) && AppRunnable(AppStep(s, es[0]), es[1..]))
  }

  function AppRun(s: AppState, es: seq<AppEvent>): AppState
    requires AppRunnable(s, es)
    decreases |es|
  {
    if es == [] then s else AppRun(AppStep(s, es[0]), es[1..])
  }

  /** Outside the landing view a role is always selected. */
  predicate RoleChosen(s: AppState) {
    s.view != LandingView ==> s.selectedRole != Landing
  }

  lemma {:induction false} AppRunKeepsRoleChosen(s: AppState, es: seq<AppEvent>)
    requires RoleChosen(s) && AppRunnable(s, es)
    ensures RoleChosen(AppRun(s, es))
    decreases |es|
  {
    if es != [] {
      AppRunKeepsRoleChosen(AppStep(s, es[0]), es[1..]);
    }
  }

  /** Since roles are only picked from the landing cards, the dashboard view
      always shows the selected role's dashboard, never the fallback. */
  lemma DashboardNeverFallsBack(es: seq<AppEvent>)
    requires AppRunnable(InitialApp, es)
    ensures var t := AppRun(InitialApp, es);
      t.view == DashboardView ==> t.selectedRole != Landing && RenderContent(t) == Dashboard(t.selectedRole)
  {
    AppRunKeepsRoleChosen(InitialApp, es);
  }

  /** On a reachable dashboard, logging out always re-seeds the chat widget
      with the landing welcome, since the role really changes. */
  lemma LogoutResetsChat(s: AppState, c: AIAssistant.ChatState)
    requires RoleChosen(s) && s.view == DashboardView && c.userRole == s.selectedRole
    ensures AIAssistant.ResetForRole(c, LogoutStep(s).selectedRole).messages == AIAssistant.Seed(Landing)
  {
  }

  /** The root component, with the chat widget it mounts. */
  class App {
    var view: View
    var selectedRole: Role
    const assistant: AIAssistant.AssistantWidget

    function State(): AppState
      reads this
    {
      AppState(view, selectedRole)
    }

    /** The widget's role prop is `selectedRole`. */
    ghost predicate Valid()
      reads this, assistant
    {
      assistant.userRole == selectedRole
    }

    /** `hasKey` says whether the build environment sets the API key. */
    constructor (hasKey: bool)
      ensures Valid() && State() == InitialApp
      ensures fresh(assistant) && assistant.State() == AIAssistant.Initial(Landing, hasKey)
    {
      view := LandingView;
      selectedRole := Landing;
      assistant := new AIAssistant.AssistantWidget(Landing, hasKey);
    }

    /** `handleSelectRole`, followed by the widget's role effect. */
    method SelectRole(role: Role)
      requires Valid()
      modifies this, assistant
      ensures Valid() && State() == SelectRoleStep(old(State()), role)
      ensures view == LoginView && selectedRole == role
      ensures assistant.State() == AIAssistant.ResetForRole(old(assistant.State()), role)
    {
      selectedRole := role;
      view := LoginView;
      assistant.OnRoleChange(selectedRole);
    }

    /** `handleLogin`, followed by the widget's role effect. */
    method Login(role: Role)
      requires Valid()
      modifies this, assistant
      ensures Valid() && State() == LoginStep(old(State()), role)
      ensures view == DashboardView && selectedRole == role
      ensures assistant.State() == AIAssistant.ResetForRole(old(assistant.State()), role)
    {
      selectedRole := role;
      view := DashboardView;
      assistant.OnRoleChange(selectedRole);
    }

    /** `handleLogout`, followed by the widget's role effect. */
    method Logout()
      requires Valid()
      modifies this, assistant
      ensures Valid() && State() == LogoutStep(old(State()))
      ensures view == LandingView && selectedRole == Landing
      ensures assistant.State() == AIAssistant.ResetForRole(old(assistant.State()), Landing)
    {
      view := LandingView;
      selectedRole := Landing;
      assistant.OnRoleChange(selectedRole);
    }

    /** The login page's back action: only the view changes. */
    method Back()
      requires Valid()
      modifies this
      ensures Valid() && State() == BackStep(old(State()))
      ensures view == LandingView && selectedRole == old(selectedRole)
    {
      view := LandingView;
    }
  }
}
