/** The root view controller: which screen the application shows, driven by
    resolved session checks and by the callbacks the screens fire. */
module SessionView {
  import opened AuthTypes

  /** The three routed views. Loading is a separate flag, not a fourth view. */
  datatype AuthView = Login | Signup | Dashboard

  datatype AppState = AppState(authView: AuthView, loading: bool)

  /** The state at mount, before any session check has resolved. */
  const Initial: AppState := AppState(Login, true)

  /** How one session lookup settled: a session came back, none came back,
      or the lookup threw. */
  datatype SessionCheck = SessionPresent | SessionAbsent | CheckFailed

  /** The five named transitions the screens can request. */
  datatype Action = LoginSucceeded | SignupSucceeded | LoggedOut | SwitchToSignup | SwitchToLogin

  /** One thing that happens to the controller: a session check (the initial
      one or one triggered by the change subscription) resolves, or a screen
      requests a transition. */
  datatype Event = Resolved(check: SessionCheck) | User(action: Action)

  /** What the root renders. */
  datatype Screen = LoadingScreen | LoginScreen | SignupScreen | DashboardScreen

  /** The view a resolved session check writes. */
  function CheckedView(c: SessionCheck): AuthView
  {
    if c == SessionPresent then Dashboard else Login
  }

  /** The effect of a resolved session check: the view follows the session,
      failing safe to the login view, and the loading flag always clears. */
  function CheckSession(s: AppState, c: SessionCheck): (r: AppState)
    ensures !r.loading
    ensures r.authView == Dashboard <==> c == SessionPresent
    ensures r.authView == Login <==> c != SessionPresent
  {
    AppState(CheckedView(c), false)
  }

  /** A requested transition: it sets its view unconditionally and leaves the
      loading flag alone. */
  function Handle(s: AppState, a: Action): (r: AppState)
    ensures r.loading == s.loading
    ensures r.authView == Dashboard <==> a == LoginSucceeded || a == SignupSucceeded
    ensures r.authView == Signup <==> a == SwitchToSignup
  {
    match a
    case LoginSucceeded => s.(authView := Dashboard)
    case SignupSucceeded => s.(authView := Dashboard)
    case LoggedOut => s.(authView := Login)
    case SwitchToSignup => s.(authView := Signup)
    case SwitchToLogin => s.(authView := Login)
  }

  function Step(s: AppState, e: Event): AppState
  {
    match e
    case Resolved(c) => CheckSession(s, c)
    case User(a) => Handle(s, a)
  }

  /** The state after a sequence of already-resolved events, oldest first. */
  function Run(s: AppState, es: seq<Event>): AppState
    decreases |es|
  {
    if es == [] then s else Run(Step(s, es[0]), es[1..])
  }

  /** The view each event writes, read off the transition table independently
      of any prior state. */
  function Target(e: Event): AuthView
  {
    match e
    case Resolved(c) => CheckedView(c)
    case User(LoginSucceeded) => Dashboard
    case User(SignupSucceeded) => Dashboard
    case User(LoggedOut) => Login
    case User(SwitchToSignup) => Signup
    case User(SwitchToLogin) => Login
  }

  /** Screen selection: the loading screen whenever loading, otherwise the
      screen of the current view. */
  function Render(s: AppState): (r: Screen)
    ensures r == LoadingScreen <==> s.loading
    ensures !s.loading ==> ShownView(r) == Some(s.authView)
  {
    if s.loading then LoadingScreen
    else match s.authView
      case Login => LoginScreen
      case Signup => SignupScreen
      case Dashboard => DashboardScreen
  }

  /** The view a screen presents, if any. */
  function ShownView(sc: Screen): Option<AuthView>
  {
    match sc
    case LoadingScreen => None
    case LoginScreen => Some(Login)
    case SignupScreen => Some(Signup)
    case DashboardScreen => Some(Dashboard)
  }

  // ---------------------------------------------------------------------
  // Properties of single transitions

  /** Each requested transition writes the same view from every state. */
  lemma HandleUnconditional(s1: AppState, s2: AppState, a: Action)
    ensures Handle(s1, a).authView == Handle(s2, a).authView == Target(User(a))
  {
  }

  /** Requesting a transition twice is requesting it once; more generally the
      later of two requests overrides the earlier one. */
  lemma HandleOverrides(s: AppState, a: Action, b: Action)
    ensures Handle(Handle(s, a), b) == Handle(s, b)
    ensures Handle(Handle(s, a), a) == Handle(s, a)
  {
  }

  /** Switching to the sign-up view and back lands on the login view with the
      loading flag untouched. */
  lemma SwitchRoundTrip(s: AppState)
    ensures Handle(Handle(s, SwitchToSignup), SwitchToLogin) == AppState(Login, s.loading)
  {
  }

  /** A session check resolving twice with the same result is one resolution. */
  lemma CheckSessionIdempotent(s: AppState, c: SessionCheck)
    ensures CheckSession(CheckSession(s, c), c) == CheckSession(s, c)
  {
  }

  // ---------------------------------------------------------------------
  // Properties of event sequences

  /** Running two event sequences one after the other. */
  lemma {:induction false} RunAppend(s: AppState, a: seq<Event>, b: seq<Event>)
    ensures Run(s, a + b) == Run(Run(s, a), b)
    decreases |a|
  {
    if a == [] {
      assert a + b == b;
    } else {
      assert (a + b)[1..] == a[1..] + b;
      RunAppend(Step(s, a[0]), a[1..], b);
    }
  }

  /** Last writer wins: after a non-empty sequence the view is the one the
      last event writes, whatever the start state and the earlier events. */
  lemma {:induction false} LastWriterWins(s: AppState, es: seq<Event>)
    requires es != []
    ensures Run(s, es).authView == Target(es[|es| - 1])
    decreases |es|
  {
    if |es| > 1 {
      LastWriterWins(Step(s, es[0]), es[1..]);
    }
  }

  /** The loading flag is still set exactly when it was set at the start and
      no session check has resolved since. */
  lemma {:induction false} LoadingUntilResolved(s: AppState, es: seq<Event>)
    ensures Run(s, es).loading <==> s.loading && forall i :: 0 <= i < |es| ==> es[i].User?
    decreases |es|
  {
    if es != [] {
      LoadingUntilResolved(Step(s, es[0]), es[1..]);
      assert forall i :: 1 <= i < |es| ==> es[i] == es[1..][i - 1];
    }
  }

  /** The loading flag never comes back once it has cleared. */
  lemma LoadingMonotone(s: AppState, es: seq<Event>)
    requires !s.loading
    ensures !Run(s, es).loading
  {
    LoadingUntilResolved(s, es);
  }

  /** From mount, the loading screen is shown exactly until the first session
      check resolves, whatever transitions the sequence holds (the real UI
      mounts no screen that could fire one while loading). */
  lemma LoadingScreenUntilFirstCheck(es: seq<Event>)
    ensures Render(Run(Initial, es)) == LoadingScreen <==> forall i :: 0 <= i < |es| ==> es[i].User?
  {
    LoadingUntilResolved(Initial, es);
  }

  /** A resolved session check erases history: whatever the start state and
      whatever happened before it, the same check followed by the same later
      events yields the same state. */
  lemma ResolutionErasesHistory(s1: AppState, p1: seq<Event>, s2: AppState, p2: seq<Event>,
                                c: SessionCheck, q: seq<Event>)
    ensures Run(s1, p1 + [Resolved(c)] + q) == Run(s2, p2 + [Resolved(c)] + q)
  {
    RunAppend(s1, p1 + [Resolved(c)], q);
    RunAppend(s2, p2 + [Resolved(c)], q);
    RunAppend(s1, p1, [Resolved(c)]);
    RunAppend(s2, p2, [Resolved(c)]);
  }

  /** For any sequence of session-change resolutions alone, the application
      ends on the dashboard exactly when the most recent check found a session,
      and on the login view otherwise. */
  lemma ChecksOnly(s: AppState, es: seq<Event>)
    requires es != []
    requires forall i :: 0 <= i < |es| ==> es[i].Resolved?
    ensures Run(s, es) == AppState(CheckedView(es[|es| - 1].check), false)
    ensures Run(s, es).authView == Dashboard <==> es[|es| - 1].check == SessionPresent
  {
    LastWriterWins(s, es);
    LoadingUntilResolved(s, es);
  }

  /** From mount, once any check has resolved, the screen shown is the one the
      most recent event selects. */
  lemma ScreenAfterStartup(es: seq<Event>)
    requires exists i :: 0 <= i < |es| && es[i].Resolved?
    ensures Render(Run(Initial, es)) != LoadingScreen
    ensures ShownView(Render(Run(Initial, es))) == Some(Target(es[|es| - 1]))
  {
    LoadingUntilResolved(Initial, es);
    LastWriterWins(Initial, es);
  }
}
