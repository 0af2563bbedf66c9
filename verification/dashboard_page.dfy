/** The dashboard page: loads the signed-in user's profile once when mounted,
    shows it, and signs out on request. */
module DashboardPage {
  import opened AuthTypes
  import opened Effects

  /** The page's state: the profile shown (if any) and the busy flag. */
  datatype PageState = PageState(user: Option<AuthUser>, loading: bool)

  /** The page at mount: no profile, still loading. */
  const InitialPage: PageState := PageState(None, true)

  /** How the identity lookup settled. A returned error leaves no user, so it
      is `Anonymous`; `GetUserThrew` is a rejected call. */
  datatype GetUserOutcome = Identified(identity: Identity) | Anonymous | GetUserThrew

  /** How the profile lookup settled. A returned error leaves no row, so it is
      `NoRow`; `LookupThrew` is a rejected call. */
  datatype LookupOutcome = RowFound(row: AuthUser) | NoRow | LookupThrew

  /** How the sign-out call settled: it resolved (with or without an error,
      which is never read) or it was rejected. */
  datatype SignOutOutcome = SignOutResolved | SignOutRejected

  /** The profile lookup step, issued only for an identified user. */
  function LookupStep(identity: Identity, l: LookupOutcome): seq<Effect>
  {
    [Remote(SelectProfile(identity.id))] +
    match l
    case RowFound(row) => [SetUser(row)]
    case _ => []
  }

  /** The mount-time load. Any throw skips the rest of the lookup; the busy
      flag clears on every path. */
  function LoadUser(g: GetUserOutcome, l: LookupOutcome): (t: seq<Effect>)
    ensures |t| >= 2 && t[0] == Remote(GetUser) && t[|t| - 1] == SetLoading(false)
  {
    [Remote(GetUser)] +
    (match g
     case Identified(identity) => LookupStep(identity, l)
     case _ => []) +
    [SetLoading(false)]
  }

  function UserCellWrite(e: Effect): Option<Option<AuthUser>>
  {
    if e.SetUser? then Some(Some(e.user)) else None
  }

  /** The page state after a trace has run. */
  function Apply(s: PageState, t: seq<Effect>): PageState
  {
    PageState(Latest(t, UserCellWrite, s.user), Latest(t, LoadingWrite, s.loading))
  }

  /** What the page renders: a loading indicator, or the page shell with the
      profile details when there is a profile. */
  datatype PageScreen = Spinner | Shell(details: Option<AuthUser>)

  function Render(s: PageState): (r: PageScreen)
    ensures r == Spinner <==> s.loading
    ensures r.Shell? ==> r.details == s.user
  {
    if s.loading then Spinner else Shell(s.user)
  }

  /** Logging out: sign out first, then hand control back to the parent. */
  function HandleLogout(o: SignOutOutcome): (t: seq<Effect>)
    ensures |t| >= 1 && t[0] == Remote(SignOut)
    ensures Callback in t <==> o == SignOutResolved
    ensures Callback in t ==> Before(t, Remote(SignOut), Callback)
    ensures Calls(t) == [SignOut]
  {
    if o == SignOutResolved then
      assert [Remote(SignOut), Callback] == [Remote(SignOut)] + [Callback];
      CallsAppend([Remote(SignOut)], [Callback]);
      [Remote(SignOut), Callback]
    else [Remote(SignOut)]
  }

  // ---------------------------------------------------------------------
  // Properties

  /** The result of a load: the profile is shown exactly when an identity came
      back and its row was found; otherwise (including any throw) the earlier
      profile stays. The busy flag clears on every path. */
  lemma LoadOutcome(s: PageState, g: GetUserOutcome, l: LookupOutcome)
    ensures Apply(s, LoadUser(g, l)) ==
      PageState(if g.Identified? && l.RowFound? then Some(l.row) else s.user, false)
  {
    var mid := match g
      case Identified(identity) => LookupStep(identity, l)
      case _ => [];
    var t := LoadUser(g, l);
    assert t == ([Remote(GetUser)] + mid) + [SetLoading(false)];
    LatestLastWrite(t, LoadingWrite, s.loading);
    LatestAppend([Remote(GetUser)] + mid, [SetLoading(false)], UserCellWrite, s.user);
    LatestAppend([Remote(GetUser)], mid, UserCellWrite, s.user);
    if g.Identified? {
      LatestAppend([Remote(SelectProfile(g.identity.id))], mid[1..], UserCellWrite, s.user);
      assert mid == [Remote(SelectProfile(g.identity.id))] + mid[1..];
    }
  }

  /** The load asks for the identity, then looks the profile up by that
      identity's id, and nothing else. */
  lemma LoadCalls(g: GetUserOutcome, l: LookupOutcome)
    ensures Calls(LoadUser(g, l)) ==
      [GetUser] + if g.Identified? then [SelectProfile(g.identity.id)] else []
  {
    var mid := match g
      case Identified(identity) => LookupStep(identity, l)
      case _ => [];
    var t := LoadUser(g, l);
    assert t == ([Remote(GetUser)] + mid) + [SetLoading(false)];
    CallsAppend([Remote(GetUser)] + mid, [SetLoading(false)]);
    CallsAppend([Remote(GetUser)], mid);
    if g.Identified? {
      assert mid == [Remote(SelectProfile(g.identity.id))] + mid[1..];
      CallsAppend([Remote(SelectProfile(g.identity.id))], mid[1..]);
    }
  }

  /** From mount, the page shows the loading indicator until the load has
      run, then always the shell, with details exactly when the profile was
      found. */
  lemma MountThenLoad(g: GetUserOutcome, l: LookupOutcome)
    ensures Render(InitialPage) == Spinner
    ensures Render(Apply(InitialPage, LoadUser(g, l))) ==
      Shell(if g.Identified? && l.RowFound? then Some(l.row) else None)
  {
    LoadOutcome(InitialPage, g, l);
  }
}
