/** The sign-in form's handlers: the form submission, and the demo sign-in,
    which fills the form from its arguments first. The demo handler is
    declared in the component but nothing calls it; it is modelled as
    written. */
module LoginForm {
  import opened AuthTypes
  import opened Effects

  /** The form's controlled inputs. The role is selectable but never sent. */
  datatype Fields = Fields(email: string, password: string, role: UserRole)

  /** The form at mount: empty inputs, the employee role, idle, no error. */
  const InitialFields: Fields := Fields("", "", Employee)
  const InitialStatus: FormStatus := FormStatus(false, "")

  /** The option values of the role selector, in display order. */
  const RoleOptions: seq<string> := ["employee", "admin", "college", "industry"]

  const LoginFallback: string := "Failed to sign in. Please create an account first."
  const DemoFallback: string := "Failed to sign in"

  /** How the password sign-in settled: failed with a message (returned or
      thrown; "" when it carried none), or returned with or without a user. */
  datatype SignInOutcome = SignInFailed(message: string) | SignedIn(user: Option<Identity>)

  /** The shared sign-in step of both handlers, between opening and closing. */
  function SignInBody(email: string, password: string, o: SignInOutcome, fallback: string): seq<Effect>
  {
    [Remote(SignInWithPassword(email, password))] +
    match o
    case SignInFailed(m) => [SetError(MessageOr(m, fallback))]
    case SignedIn(None) => []
    case SignedIn(Some(_)) => [Callback]
  }

  /** Regular submission: signs in with the form's email and password. */
  function HandleLogin(f: Fields, o: SignInOutcome): (t: seq<Effect>)
    ensures |t| >= 4 && t[..2] == Opening && t[|t| - 1] == SetLoading(false)
    ensures Calls(t) == [SignInWithPassword(f.email, f.password)]
  {
    var body := SignInBody(f.email, f.password, o, LoginFallback);
    SignInCalls(f.email, f.password, o, LoginFallback);
    Opening + body + Closing
  }

  /** Either handler issues exactly one remote call: the password sign-in. */
  lemma SignInCalls(email: string, password: string, o: SignInOutcome, fallback: string)
    ensures Calls(Opening + SignInBody(email, password, o, fallback) + Closing) == [SignInWithPassword(email, password)]
  {
    var body := SignInBody(email, password, o, fallback);
    SubmitShape(InitialStatus, body);
    var call := Remote(SignInWithPassword(email, password));
    assert body == [call] + body[1..];
    CallsAppend([call], body[1..]);
    CallsNone(body[1..]);
  }

  /** Demo sign-in (declared, never called): overwrites the three inputs with
      its arguments, then signs in with those arguments. The form's earlier
      contents play no part. */
  function HandleDemoLogin(demoEmail: string, demoPassword: string, demoRole: UserRole, o: SignInOutcome): (t: seq<Effect>)
    ensures |t| >= 7 && t[..3] == DemoFill(demoEmail, demoPassword, demoRole)
    ensures t[3..5] == Opening && t[|t| - 1] == SetLoading(false)
    ensures Calls(t) == [SignInWithPassword(demoEmail, demoPassword)]
  {
    var fill := DemoFill(demoEmail, demoPassword, demoRole);
    var rest := Opening + SignInBody(demoEmail, demoPassword, o, DemoFallback) + Closing;
    SignInCalls(demoEmail, demoPassword, o, DemoFallback);
    CallsAppend(fill, rest);
    CallsNone(fill);
    fill + rest
  }

  /** The demo sign-in's first three effects: the input setters. */
  function DemoFill(demoEmail: string, demoPassword: string, demoRole: UserRole): seq<Effect>
  {
    [SetEmail(demoEmail), SetPassword(demoPassword), SetRole(demoRole)]
  }

  /** The input values after the demo sign-in's effects, from the given form. */
  function ApplyFields(f: Fields, t: seq<Effect>): Fields
    decreases |t|
  {
    if t == [] then f
    else
      var g := match t[0]
        case SetEmail(e) => f.(email := e)
        case SetPassword(p) => f.(password := p)
        case SetRole(r) => f.(role := r)
        case _ => f;
      ApplyFields(g, t[1..])
  }

  /** The observable result of a sign-in attempt from an earlier form status. */
  datatype Attempt = Attempt(status: FormStatus, succeeded: bool)

  function Observe(prior: FormStatus, t: seq<Effect>): Attempt
  {
    Attempt(Settle(prior, t), Callback in t)
  }

  /** The result of the shared step, as the form sees it. */
  lemma SignInResult(prior: FormStatus, email: string, password: string, o: SignInOutcome, fallback: string)
    ensures var body := SignInBody(email, password, o, fallback);
      Observe(prior, Opening + body + Closing) ==
        match o
        case SignInFailed(m) => Attempt(FormStatus(false, MessageOr(m, fallback)), false)
        case SignedIn(None) => Attempt(FormStatus(false, ""), false)
        case SignedIn(Some(_)) => Attempt(FormStatus(false, ""), true)
  {
    var body := SignInBody(email, password, o, fallback);
    SubmitShape(prior, body);
    var call := Remote(SignInWithPassword(email, password));
    var rest := body[1..];
    assert body == [call] + rest;
    LatestAppend([call], rest, ErrorWrite, "");
  }

  // ---------------------------------------------------------------------
  // Properties

  /** A regular sign-in: a failure shows its message or the "create an
      account" fallback; success is reported iff a user came back; with no
      error and no user nothing is shown; the form ends idle on every path
      whatever its earlier status. */
  lemma LoginOutcome(prior: FormStatus, f: Fields, o: SignInOutcome)
    ensures Observe(prior, HandleLogin(f, o)) ==
      match o
      case SignInFailed(m) => Attempt(FormStatus(false, MessageOr(m, LoginFallback)), false)
      case SignedIn(None) => Attempt(FormStatus(false, ""), false)
      case SignedIn(Some(_)) => Attempt(FormStatus(false, ""), true)
  {
    SignInResult(prior, f.email, f.password, o, LoginFallback);
  }

  /** The selected role has no influence on a regular sign-in. */
  lemma LoginIgnoresRole(f: Fields, r: UserRole, o: SignInOutcome)
    ensures HandleLogin(f.(role := r), o) == HandleLogin(f, o)
  {
  }

  /** A demo sign-in: same result shape as a regular one but with its own,
      shorter fallback message. */
  lemma DemoOutcome(prior: FormStatus, demoEmail: string, demoPassword: string, demoRole: UserRole, o: SignInOutcome)
    ensures Observe(prior, HandleDemoLogin(demoEmail, demoPassword, demoRole, o)) ==
      match o
      case SignInFailed(m) => Attempt(FormStatus(false, MessageOr(m, DemoFallback)), false)
      case SignedIn(None) => Attempt(FormStatus(false, ""), false)
      case SignedIn(Some(_)) => Attempt(FormStatus(false, ""), true)
  {
    var fill := DemoFill(demoEmail, demoPassword, demoRole);
    var rest := Opening + SignInBody(demoEmail, demoPassword, o, DemoFallback) + Closing;
    SettleAppend(prior, fill, rest);
    assert Settle(prior, fill) == prior;
    SignInResult(prior, demoEmail, demoPassword, o, DemoFallback);
  }

  /** The two fallbacks differ: an empty failure message reads differently
      depending on which handler saw it. */
  lemma FallbacksDiffer(prior: FormStatus, f: Fields, demoEmail: string, demoPassword: string, demoRole: UserRole)
    ensures Observe(prior, HandleLogin(f, SignInFailed(""))).status.error == LoginFallback
    ensures Observe(prior, HandleDemoLogin(demoEmail, demoPassword, demoRole, SignInFailed(""))).status.error == DemoFallback
    ensures LoginFallback != DemoFallback
  {
    LoginOutcome(prior, f, SignInFailed(""));
    DemoOutcome(prior, demoEmail, demoPassword, demoRole, SignInFailed(""));
  }

  /** After a demo sign-in the form holds the demo arguments, whatever it
      held before. */
  lemma DemoOverwritesFields(f: Fields, demoEmail: string, demoPassword: string, demoRole: UserRole, o: SignInOutcome)
    ensures ApplyFields(f, HandleDemoLogin(demoEmail, demoPassword, demoRole, o)) == Fields(demoEmail, demoPassword, demoRole)
  {
    var fill := DemoFill(demoEmail, demoPassword, demoRole);
    var body := SignInBody(demoEmail, demoPassword, o, DemoFallback);
    var rest := Opening + body + Closing;
    ApplyFieldsAppend(f, fill, rest);
    assert fill == [fill[0]] + ([fill[1]] + [fill[2]]);
    ApplyFieldsAppend(f, [fill[0]], [fill[1]] + [fill[2]]);
    ApplyFieldsAppend(f.(email := demoEmail), [fill[1]], [fill[2]]);
    assert body == [body[0]] + body[1..];
    ApplyFieldsIgnores(Fields(demoEmail, demoPassword, demoRole), rest);
  }

  lemma {:induction false} ApplyFieldsAppend(f: Fields, a: seq<Effect>, b: seq<Effect>)
    ensures ApplyFields(f, a + b) == ApplyFields(ApplyFields(f, a), b)
    decreases |a|
  {
    if a == [] {
      assert a + b == b;
    } else {
      assert (a + b)[1..] == a[1..] + b;
      var g := match a[0]
        case SetEmail(e) => f.(email := e)
        case SetPassword(p) => f.(password := p)
        case SetRole(r) => f.(role := r)
        case _ => f;
      ApplyFieldsAppend(g, a[1..], b);
    }
  }

  /** Effects that write none of the three inputs leave them alone. */
  lemma {:induction false} ApplyFieldsIgnores(f: Fields, t: seq<Effect>)
    requires forall e :: e in t ==> !e.SetEmail? && !e.SetPassword? && !e.SetRole?
    ensures ApplyFields(f, t) == f
    decreases |t|
  {
    if t != [] {
      assert t[0] in t;
      assert forall e :: e in t[1..] ==> e in t;
      ApplyFieldsIgnores(f, t[1..]);
    }
  }

  /** The selector starts on the employee role and offers exactly the four
      roles, each once, in the order the type lists them. */
  lemma RoleSelector()
    ensures InitialFields.role == Employee
    ensures |RoleOptions| == |AllRoles|
    ensures forall i :: 0 <= i < |RoleOptions| ==> ParseRole(RoleOptions[i]) == Some(AllRoles[i])
    ensures forall r: UserRole :: RoleName(r) in RoleOptions
  {
    forall r: UserRole
      ensures RoleName(r) in RoleOptions
    {
      match r
      case Employee => assert RoleOptions[0] == RoleName(r);
      case Admin => assert RoleOptions[1] == RoleName(r);
      case College => assert RoleOptions[2] == RoleName(r);
      case Industry => assert RoleOptions[3] == RoleName(r);
    }
  }
}
