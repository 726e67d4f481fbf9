/** The login screen: a per-role heading looked up by the role's key with a
    fallback, a password-visibility toggle, and a simulated sign-in that sets
    a loading flag and, when its timer fires, clears it and reports the page's
    role to the application. There is no credential check and no failure. */
module LoginPage {
  import opened Types

  datatype Icon = ShoppingCart | Truck | Handshake | Monitor | RouteIcon

  datatype LoginConfig = LoginConfig(title: string, icon: Icon, color: string)

  /** The page's `roleConfig` object, keyed by role id. */
  const RoleConfig: map<string, LoginConfig> := map[
    "customer" := LoginConfig("Customer Login", ShoppingCart, "text-primary"),
    "driver" := LoginConfig("Driver Login", Truck, "text-primary"),
    "partner" := LoginConfig("Partner Login", Handshake, "text-primary"),
    "dispatcher" := LoginConfig("Dispatcher Login", Monitor, "text-primary"),
    "landing" := LoginConfig("Login", RouteIcon, "text-primary")
  ]

  /** The lookup with its fallback: a key the table does not hold gets the
      landing entry. */
  function ConfigFor(key: string): (c: LoginConfig)
    ensures key in RoleConfig ==> c == RoleConfig[key]
    ensures key !in RoleConfig ==> c == RoleConfig["landing"]
  {
    if key in RoleConfig then RoleConfig[key] else RoleConfig["landing"]
  }

  /** The table's keys are exactly the role ids, so a role never needs the
      fallback and every other key gets the landing entry, titled "Login". */
  lemma ConfigKeysAreRoleIds(key: string)
    ensures key in RoleConfig <==> ParseRole(key).Some?
    ensures ParseRole(key).None? ==> ConfigFor(key).title == "Login"
  {
  }

  /** Each operational role has its own title; the landing role gets "Login". */
  lemma ConfigTitles()
    ensures ConfigFor(RoleId(Customer)).title == "Customer Login"
    ensures ConfigFor(RoleId(Driver)).title == "Driver Login"
    ensures ConfigFor(RoleId(Partner)).title == "Partner Login"
    ensures ConfigFor(RoleId(Dispatcher)).title == "Dispatcher Login"
    ensures ConfigFor(RoleId(Landing)).title == "Login"
  {
  }

  /** Distinct roles see distinct headings. */
  lemma ConfigTitlesDistinct(a: Role, b: Role)
    ensures a != b ==> ConfigFor(RoleId(a)).title != ConfigFor(RoleId(b)).title
  {
    // the five titles already differ in length
    ConfigTitles();
  }

  /** The page's state, plus the timers it has scheduled that have not yet
      fired (the environment's part). `role` is the page's prop. */
  datatype LoginState = LoginState(role: Role, showPassword: bool, isLoading: bool, pendingTimers: nat)

  function InitialLogin(role: Role): LoginState {
    LoginState(role, false, false, 0)
  }

  /** The submit button is disabled while a sign-in is in progress. */
  predicate SubmitEnabled(s: LoginState) {
    !s.isLoading
  }

  /** The eye button: only `showPassword` changes, and it flips. */
  function TogglePasswordStep(s: LoginState): (r: LoginState)
    ensures r.showPassword == !s.showPassword
    ensures r.(showPassword := s.showPassword) == s
  {
    s.(showPassword := !s.showPassword)
  }

  /** `handleSubmit`: loading is set and one timer is scheduled. */
  function SubmitStep(s: LoginState): (r: LoginState)
    ensures r.isLoading && r.pendingTimers == s.pendingTimers + 1
    ensures r.role == s.role && r.showPassword == s.showPassword
  {
    s.(isLoading := true, pendingTimers := s.pendingTimers + 1)
  }

  /** A scheduled timer fires: loading is cleared and `onLogin` is called with
      the page's role, which the second component returns. */
  function TimerStep(s: LoginState): (r: (LoginState, Role))
    requires s.pendingTimers > 0
    ensures !r.0.isLoading && r.0.pendingTimers == s.pendingTimers - 1
    ensures r.0.role == s.role && r.0.showPassword == s.showPassword
    ensures r.1 == s.role
  {
    (s.(isLoading := false, pendingTimers := s.pendingTimers - 1), s.role)
  }

  datatype LoginEvent = SubmitClicked | TimerFired | EyeClicked

  /** Submitting needs the enabled button; a timer fires only if one is scheduled. */
  predicate LoginEnabled(s: LoginState, e: LoginEvent): (ok: bool)
    ensures ok && s.isLoading ==> !e.SubmitClicked?
    ensures ok && e.TimerFired? ==> s.pendingTimers > 0
  {
    match e
    case SubmitClicked => SubmitEnabled(s)
    case TimerFired => s.pendingTimers > 0
    case EyeClicked => true
  }

  predicate LoginRunnable(s: LoginState, es: seq<LoginEvent>)
    decreases |es|
  {
    es == [] ||
    (LoginEnabled(s, es[0]) &&
     match es[0]
     case SubmitClicked => LoginRunnable(SubmitStep(s), es[1..])
     case TimerFired => LoginRunnable(TimerStep(s).0, es[1..])
     case EyeClicked => LoginRunnable(TogglePasswordStep(s), es[1..]))
  }

  /** Runs the events and collects the roles passed to `onLogin`, in order. */
  function LoginRun(s: LoginState, es: seq<LoginEvent>): (LoginState, seq<Role>)
    requires LoginRunnable(s, es)
    decreases |es|
  {
    if es == [] then (s, [])
    else match es[0]
      case SubmitClicked => LoginRun(SubmitStep(s), es[1..])
      case TimerFired =>
        var (t, role) := TimerStep(s);
        var (u, logins) := LoginRun(t, es[1..]);
        (u, [role] + logins)
      case EyeClicked => LoginRun(TogglePasswordStep(s), es[1..])
  }

  function Submits(es: seq<LoginEvent>): nat {
    if es == [] then 0 else (if es[0] == SubmitClicked then 1 else 0) + Submits(es[1..])
  }

  /** At most one sign-in is in progress, and loading shows exactly that. */
  predicate OneAtATime(s: LoginState) {
    s.pendingTimers <= 1 && (s.isLoading <==> s.pendingTimers == 1)
  }

  /** Sign-in never fails: every submit is either still pending or has called
      `onLogin`, always with the page's role, and at most one is in progress. */
  lemma {:induction false} LoginRunAccounts(s: LoginState, es: seq<LoginEvent>)
    requires OneAtATime(s) && LoginRunnable(s, es)
    ensures var (t, logins) := LoginRun(s, es);
      && OneAtATime(t) && t.role == s.role
      && |logins| + t.pendingTimers == s.pendingTimers + Submits(es)
      && forall k :: 0 <= k < |logins| ==> logins[k] == s.role
    decreases |es|
  {
    if es != [] {
      match es[0]
      case SubmitClicked => LoginRunAccounts(SubmitStep(s), es[1..]);
      case TimerFired => LoginRunAccounts(TimerStep(s).0, es[1..]);
      case EyeClicked => LoginRunAccounts(TogglePasswordStep(s), es[1..]);
    }
  }

  /** Once the page is no longer loading, every submit has called `onLogin`
      with the page's role. */
  lemma EverySubmitLogsIn(role: Role, es: seq<LoginEvent>)
    requires LoginRunnable(InitialLogin(role), es)
    requires !LoginRun(InitialLogin(role), es).0.isLoading
    ensures |LoginRun(InitialLogin(role), es).1| == Submits(es)
    ensures forall k :: 0 <= k < Submits(es) ==> LoginRun(InitialLogin(role), es).1[k] == role
  {
    LoginRunAccounts(InitialLogin(role), es);
  }

  /** The mounted page. */
  class LoginPage {
    const role: Role
    var showPassword: bool
    var isLoading: bool
    /** Timers `handleSubmit` scheduled that have not fired yet. */
    var pendingTimers: nat

    function State(): LoginState
      reads this
    {
      LoginState(role, showPassword, isLoading, pendingTimers)
    }

    constructor (role: Role)
      ensures State() == InitialLogin(role)
    {
      this.role := role;
      showPassword := false;
      isLoading := false;
      pendingTimers := 0;
    }

    /** The `disabled` attribute of the submit button. */
    function SubmitDisabled(): (disabled: bool)
      reads this
      ensures disabled == !SubmitEnabled(State())
    {
      isLoading
    }

    method TogglePassword()
      modifies this
      ensures State() == TogglePasswordStep(old(State()))
    {
      showPassword := !showPassword;
    }

    method HandleSubmit()
      modifies this
      ensures State() == SubmitStep(old(State()))
    {
      isLoading := true;
      pendingTimers := pendingTimers + 1;
    }

    /** The timer callback; returns the role it passes to `onLogin`. */
    method TimerFires() returns (loginRole: Role)
      requires pendingTimers > 0
      modifies this
      ensures (State(), loginRole) == TimerStep(old(State()))
    {
      isLoading := false;
      pendingTimers := pendingTimers - 1;
      loginRole := role;
    }
  }
}
