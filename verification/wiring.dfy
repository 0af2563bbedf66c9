/** How the root connects the screens: each screen's callback is bound to one
    of the controller's named transitions. */
module Wiring {
  import opened AuthTypes
  import opened Effects
  import SessionView
  import LoginForm
  import SignupForm
  import DashboardPage

  /** The controller state after a screen's handler ran: if the handler fired
      its callback, the transition the root bound to it is applied. */
  function React(s: SessionView.AppState, t: seq<Effect>, bound: SessionView.Action): (r: SessionView.AppState)
    ensures r.loading == s.loading
    ensures Callback !in t ==> r == s
  {
    if Callback in t then SessionView.Handle(s, bound) else s
  }

  /** From the login screen, a sign-in attempt reaches the dashboard exactly
      when the provider returned a user; otherwise the login screen stays. */
  lemma LoginReachesDashboard(s: SessionView.AppState, f: LoginForm.Fields, o: LoginForm.SignInOutcome)
    requires SessionView.Render(s) == SessionView.LoginScreen
    ensures var r := React(s, LoginForm.HandleLogin(f, o), SessionView.LoginSucceeded);
      && (SessionView.Render(r) == SessionView.DashboardScreen <==> o.SignedIn? && o.user.Some?)
      && (SessionView.Render(r) == SessionView.LoginScreen <==> !(o.SignedIn? && o.user.Some?))
  {
    LoginForm.LoginOutcome(FormStatus(false, ""), f, o);
  }

  /** From the sign-up screen, a submission reaches the dashboard exactly when
      the local checks pass, a user was created and its profile was stored. */
  lemma SignupReachesDashboard(s: SessionView.AppState, f: SignupForm.Fields,
                               signUp: SignupForm.SignUpOutcome, insert: SignupForm.InsertOutcome)
    requires SessionView.Render(s) == SessionView.SignupScreen
    ensures var r := React(s, SignupForm.HandleSignup(f, signUp, insert), SessionView.SignupSucceeded);
      SessionView.Render(r) == SessionView.DashboardScreen <==>
        && SignupForm.Validate(f.password, f.confirmPassword).None?
        && signUp.SignedUp? && signUp.user.Some?
        && insert.Inserted?
  {
    SignupForm.SucceedsIff(FormStatus(false, ""), f, signUp, insert);
  }

  /** From the dashboard, logging out returns to the login screen exactly when
      the sign-out call resolved, whatever it resolved with. */
  lemma LogoutReachesLogin(s: SessionView.AppState, o: DashboardPage.SignOutOutcome)
    requires SessionView.Render(s) == SessionView.DashboardScreen
    ensures var r := React(s, DashboardPage.HandleLogout(o), SessionView.LoggedOut);
      SessionView.Render(r) == SessionView.LoginScreen <==> o == DashboardPage.SignOutResolved
  {
  }

  /** The links between the two forms land on the sign-up and login screens;
      they call the setters directly, so no remote call is involved. */
  lemma LinksSwitchForms(s: SessionView.AppState)
    requires !s.loading
    ensures SessionView.Render(SessionView.Handle(s, SessionView.SwitchToSignup)) == SessionView.SignupScreen
    ensures SessionView.Render(SessionView.Handle(s, SessionView.SwitchToLogin)) == SessionView.LoginScreen
  {
  }
}
