/** The registration form's submit handler: two local password checks, then
    account creation, then insertion of the profile row. */
module SignupForm {
  import opened AuthTypes
  import opened Effects

  /** The six controlled inputs of the form. */
  datatype Fields = Fields(
    name: string,
    surname: string,
    phone: string,
    email: string,
    password: string,
    confirmPassword: string)

  const MismatchMessage: string := "Passwords do not match"
  const TooShortMessage: string := "Password must be at least 6 characters"
  const SignupFallback: string := "Failed to create account"
  const MinPasswordLength: nat := 6

  /** How account creation settled: failed with a message (returned or
      thrown; "" when it carried none), or succeeded with or without a user. */
  datatype SignUpOutcome = SignUpFailed(message: string) | SignedUp(user: Option<Identity>)

  /** How the profile insert settled. */
  datatype InsertOutcome = Inserted | InsertFailed(message: string)

  /** The local validator: the confirmation check runs first, the length check
      second; the first failure's message is the result. */
  function Validate(password: string, confirmPassword: string): (r: Option<string>)
    ensures r == None <==> password == confirmPassword && |password| >= MinPasswordLength
    ensures r == Some(MismatchMessage) <==> password != confirmPassword
    ensures r == Some(TooShortMessage) <==> password == confirmPassword && |password| < MinPasswordLength
  {
    if password != confirmPassword then Some(MismatchMessage)
    else if |password| < MinPasswordLength then Some(TooShortMessage)
    else None
  }

  /** The profile row written for a newly created account. */
  function ProfileRecord(f: Fields, user: Identity): AuthUser
  {
    AuthUser(user.id, f.email, f.name, f.surname, f.phone, Employee)
  }

  /** What happens after account creation was requested. */
  function AfterSignUp(f: Fields, signUp: SignUpOutcome, insert: InsertOutcome): seq<Effect>
  {
    match signUp
    case SignUpFailed(m) => [SetError(MessageOr(m, SignupFallback))]
    case SignedUp(None) => []
    case SignedUp(Some(u)) =>
      [Remote(InsertProfile(ProfileRecord(f, u)))] +
      match insert
      case InsertFailed(m) => [SetError(MessageOr(m, SignupFallback))]
      case Inserted => [Callback]
  }

  /** The account request carries the form's email, password and the three
      profile fields as metadata. */
  function CreateCall(f: Fields): RemoteCall
  {
    SignUp(f.email, f.password, f.name, f.surname, f.phone)
  }

  /** The effects between the opening and the closing of a submission. */
  function SignupBody(f: Fields, signUp: SignUpOutcome, insert: InsertOutcome): seq<Effect>
  {
    match Validate(f.password, f.confirmPassword)
    case Some(message) => [SetError(message)]
    case None =>
      [Remote(CreateCall(f))] + AfterSignUp(f, signUp, insert)
  }

  /** One submission of the form. The outcomes of the two remote calls are
      inputs; they are consulted only if the call is issued. */
  function HandleSignup(f: Fields, signUp: SignUpOutcome, insert: InsertOutcome): (t: seq<Effect>)
    ensures |t| >= 3 && t[..2] == Opening && t[|t| - 1] == SetLoading(false)
  {
    Opening + SignupBody(f, signUp, insert) + Closing
  }

  /** The observable result of one submission, from any earlier form status. */
  datatype Submission = Submission(status: FormStatus, calls: seq<RemoteCall>, succeeded: bool)

  function Submit(prior: FormStatus, f: Fields, signUp: SignUpOutcome, insert: InsertOutcome): Submission
  {
    var t := HandleSignup(f, signUp, insert);
    Submission(Settle(prior, t), Calls(t), Callback in t)
  }

  /** The submission's result, read off its body. */
  lemma SubmitByBody(prior: FormStatus, f: Fields, signUp: SignUpOutcome, insert: InsertOutcome)
    ensures var body := SignupBody(f, signUp, insert);
      Submit(prior, f, signUp, insert) == Submission(FormStatus(false, Latest(body, ErrorWrite, "")), Calls(body), Callback in body)
  {
    SubmitShape(prior, SignupBody(f, signUp, insert));
  }

  // ---------------------------------------------------------------------
  // Properties

  /** A failed local check reports its message, issues no remote call, does
      not report success and leaves the form idle. */
  lemma LocalCheckShortCircuits(prior: FormStatus, f: Fields, signUp: SignUpOutcome, insert: InsertOutcome)
    requires Validate(f.password, f.confirmPassword).Some?
    ensures Submit(prior, f, signUp, insert) ==
      Submission(FormStatus(false, Validate(f.password, f.confirmPassword).value), [], false)
  {
    SubmitByBody(prior, f, signUp, insert);
  }

  /** Mismatched passwords are reported as a mismatch even when the password
      is also too short: the confirmation check comes first. */
  lemma MismatchReportedFirst(prior: FormStatus, f: Fields, signUp: SignUpOutcome, insert: InsertOutcome)
    requires f.password != f.confirmPassword
    ensures Submit(prior, f, signUp, insert) == Submission(FormStatus(false, MismatchMessage), [], false)
  {
    LocalCheckShortCircuits(prior, f, signUp, insert);
  }

  /** Matching passwords shorter than six characters are reported as too short. */
  lemma ShortPasswordRejected(prior: FormStatus, f: Fields, signUp: SignUpOutcome, insert: InsertOutcome)
    requires f.password == f.confirmPassword && |f.password| < MinPasswordLength
    ensures Submit(prior, f, signUp, insert) == Submission(FormStatus(false, TooShortMessage), [], false)
  {
    LocalCheckShortCircuits(prior, f, signUp, insert);
  }

  /** A failed account creation shows its message (or the fallback), inserts
      nothing and does not report success. */
  lemma SignUpFailureReported(prior: FormStatus, f: Fields, message: string, insert: InsertOutcome)
    requires Validate(f.password, f.confirmPassword).None?
    ensures Submit(prior, f, SignUpFailed(message), insert)
         == Submission(FormStatus(false, MessageOr(message, SignupFallback)), [CreateCall(f)], false)
  {
    var body := SignupBody(f, SignUpFailed(message), insert);
    assert body == [Remote(CreateCall(f)), SetError(MessageOr(message, SignupFallback))];
    SubmitByBody(prior, f, SignUpFailed(message), insert);
    LatestLastWrite(body, ErrorWrite, "");
    CallsAppend([Remote(CreateCall(f))], [SetError(MessageOr(message, SignupFallback))]);
    assert body == [Remote(CreateCall(f))] + [SetError(MessageOr(message, SignupFallback))];
  }

  /** An account created without a user does nothing further and shows no error. */
  lemma SignUpWithoutUserIsSilent(prior: FormStatus, f: Fields, insert: InsertOutcome)
    requires Validate(f.password, f.confirmPassword).None?
    ensures Submit(prior, f, SignedUp(None), insert)
         == Submission(FormStatus(false, ""), [CreateCall(f)], false)
  {
    var body := SignupBody(f, SignedUp(None), insert);
    assert body == [Remote(CreateCall(f))];
    SubmitByBody(prior, f, SignedUp(None), insert);
  }

  /** The employee profile row for a newly created user, keyed by its id. */
  function InsertCall(f: Fields, user: Identity): RemoteCall
  {
    InsertProfile(AuthUser(user.id, f.email, f.name, f.surname, f.phone, Employee))
  }

  /** The effects of a submission whose account was created with a user. */
  lemma CreatedBody(f: Fields, user: Identity, insert: InsertOutcome)
    requires Validate(f.password, f.confirmPassword).None?
    ensures SignupBody(f, SignedUp(Some(user)), insert) ==
      [Remote(CreateCall(f)), Remote(InsertCall(f, user))] +
      [if insert.Inserted? then Callback else SetError(MessageOr(insert.message, SignupFallback))]
  {
  }

  /** With a created user whose profile row is stored, the only calls are the
      account request and the insert of the employee profile keyed by the new
      user's id; success is reported and no error is shown. */
  lemma ProfileInserted(prior: FormStatus, f: Fields, user: Identity)
    requires Validate(f.password, f.confirmPassword).None?
    ensures Submit(prior, f, SignedUp(Some(user)), Inserted)
         == Submission(FormStatus(false, ""), [CreateCall(f), InsertCall(f, user)], true)
  {
    var head := [Remote(CreateCall(f)), Remote(InsertCall(f, user))];
    CreatedBody(f, user, Inserted);
    SubmitByBody(prior, f, SignedUp(Some(user)), Inserted);
    CallsAppend(head, [Callback]);
    LatestAppend(head, [Callback], ErrorWrite, "");
  }

  /** A failed profile insert after the account was created shows the
      insert's message (or the fallback), reports no success, and issues no
      compensating call. */
  lemma InsertFailureSurfaced(prior: FormStatus, f: Fields, user: Identity, message: string)
    requires Validate(f.password, f.confirmPassword).None?
    ensures Submit(prior, f, SignedUp(Some(user)), InsertFailed(message))
         == Submission(FormStatus(false, MessageOr(message, SignupFallback)), [CreateCall(f), InsertCall(f, user)], false)
  {
    var head := [Remote(CreateCall(f)), Remote(InsertCall(f, user))];
    var last := SetError(MessageOr(message, SignupFallback));
    CreatedBody(f, user, InsertFailed(message));
    SubmitByBody(prior, f, SignedUp(Some(user)), InsertFailed(message));
    CallsAppend(head, [last]);
    LatestAppend(head, [last], ErrorWrite, "");
  }

  /** Success is reported exactly when both passwords pass the local checks,
      an account with a user was created, and the profile row was stored. */
  lemma SucceedsIff(prior: FormStatus, f: Fields, signUp: SignUpOutcome, insert: InsertOutcome)
    ensures Submit(prior, f, signUp, insert).succeeded <==>
      && Validate(f.password, f.confirmPassword).None?
      && signUp.SignedUp? && signUp.user.Some?
      && insert.Inserted?
  {
    if Validate(f.password, f.confirmPassword).Some? {
      LocalCheckShortCircuits(prior, f, signUp, insert);
    } else {
      match signUp
      case SignUpFailed(m) => SignUpFailureReported(prior, f, m, insert);
      case SignedUp(None) => SignUpWithoutUserIsSilent(prior, f, insert);
      case SignedUp(Some(u)) =>
        if insert.Inserted? {
          ProfileInserted(prior, f, u);
        } else {
          InsertFailureSurfaced(prior, f, u, insert.message);
        }
    }
  }

  /** The form is idle after every submission, and the result never depends
      on the error or busy flag left by an earlier submission. */
  lemma SubmissionForgetsPrior(p1: FormStatus, p2: FormStatus, f: Fields, signUp: SignUpOutcome, insert: InsertOutcome)
    ensures !Submit(p1, f, signUp, insert).status.loading
    ensures Submit(p1, f, signUp, insert) == Submit(p2, f, signUp, insert)
  {
    SubmitByBody(p1, f, signUp, insert);
    SubmitByBody(p2, f, signUp, insert);
  }

  /** Worked instances: "abc12" twice is too short, "abcdef" against "xyz999"
      is a mismatch, and a full success stores an employee profile. */
  lemma Examples(prior: FormStatus, signUp: SignUpOutcome, insert: InsertOutcome)
    ensures Submit(prior, Fields("A", "B", "123", "a@b.com", "abc12", "abc12"), signUp, insert)
         == Submission(FormStatus(false, TooShortMessage), [], false)
    ensures Submit(prior, Fields("A", "B", "123", "a@b.com", "abcdef", "xyz999"), signUp, insert)
         == Submission(FormStatus(false, MismatchMessage), [], false)
    ensures Submit(prior, Fields("A", "B", "123", "a@b.com", "abcdef", "abcdef"), SignedUp(Some(Identity("u1"))), Inserted)
         == Submission(FormStatus(false, ""),
                       [SignUp("a@b.com", "abcdef", "A", "B", "123"),
                        InsertProfile(AuthUser("u1", "a@b.com", "A", "B", "123", Employee))],
                       true)
  {
    ShortPasswordRejected(prior, Fields("A", "B", "123", "a@b.com", "abc12", "abc12"), signUp, insert);
    MismatchReportedFirst(prior, Fields("A", "B", "123", "a@b.com", "abcdef", "xyz999"), signUp, insert);
    ProfileInserted(prior, Fields("A", "B", "123", "a@b.com", "abcdef", "abcdef"), Identity("u1"));
  }
}
