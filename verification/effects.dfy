/** The observable vocabulary of the portal's event handlers. Each handler is
    modelled as the ordered list of effects it produces: writes to component
    state, calls to the hosted backend (with the arguments passed), and the
    firing of the callback the parent component handed down. */
module Effects {
  import opened AuthTypes

  /** A request to the hosted authentication provider or profile store. */
  datatype RemoteCall =
    | SignUp(email: string, password: string, name: string, surname: string, phone: string)
    | InsertProfile(record: AuthUser)
    | SignInWithPassword(email: string, password: string)
    | SignOut
    | GetUser
    | SelectProfile(id: string)

  /** One observable step of a handler. */
  datatype Effect =
    | SetLoading(on: bool)
    | SetError(message: string)
    | SetEmail(email: string)
    | SetPassword(password: string)
    | SetRole(role: UserRole)
    | SetUser(user: AuthUser)
    | Remote(call: RemoteCall)
    | Callback

  /** The value a state cell holds after the writes in `t`, starting from `prior`:
      the last write wins. `write` picks the writes to that cell out of the effects. */
  function Latest<T>(t: seq<Effect>, write: Effect -> Option<T>, prior: T): (r: T)
    ensures (forall i :: 0 <= i < |t| ==> write(t[i]).None?) ==> r == prior
    decreases |t|
  {
    if t == [] then prior
    else Latest(t[1..], write, if write(t[0]).Some? then write(t[0]).value else prior)
  }

  /** Running two traces one after the other is running their concatenation. */
  lemma {:induction false} LatestAppend<T>(a: seq<Effect>, b: seq<Effect>, write: Effect -> Option<T>, prior: T)
    ensures Latest(a + b, write, prior) == Latest(b, write, Latest(a, write, prior))
    decreases |a|
  {
    if a == [] {
      assert a + b == b;
    } else {
      assert (a + b)[1..] == a[1..] + b;
      var next := if write(a[0]).Some? then write(a[0]).value else prior;
      LatestAppend(a[1..], b, write, next);
    }
  }

  /** A trace that ends with a write to the cell leaves that value, whatever came before. */
  lemma LatestLastWrite<T>(t: seq<Effect>, write: Effect -> Option<T>, prior: T)
    requires t != [] && write(t[|t| - 1]).Some?
    ensures Latest(t, write, prior) == write(t[|t| - 1]).value
  {
    var n := |t| - 1;
    assert t == t[..n] + [t[n]];
    LatestAppend(t[..n], [t[n]], write, prior);
  }

  function LoadingWrite(e: Effect): Option<bool>
  {
    if e.SetLoading? then Some(e.on) else None
  }

  function ErrorWrite(e: Effect): Option<string>
  {
    if e.SetError? then Some(e.message) else None
  }

  /** The remote calls a trace issues, in order. */
  function Calls(t: seq<Effect>): (r: seq<RemoteCall>)
    ensures |r| <= |t|
    ensures forall c :: c in r <==> Remote(c) in t
    decreases |t|
  {
    if t == [] then []
    else if t[0].Remote? then [t[0].call] + Calls(t[1..])
    else Calls(t[1..])
  }

  /** The calls of a concatenation are the calls of each part, in order. */
  lemma {:induction false} CallsAppend(a: seq<Effect>, b: seq<Effect>)
    ensures Calls(a + b) == Calls(a) + Calls(b)
    decreases |a|
  {
    if a == [] {
      assert a + b == b;
    } else {
      assert (a + b)[1..] == a[1..] + b;
      CallsAppend(a[1..], b);
    }
  }

  /** A trace with no remote call issues none. */
  lemma CallsNone(t: seq<Effect>)
    requires forall e :: e in t ==> !e.Remote?
    ensures Calls(t) == []
  {
  }

  /** `x` happens strictly before `y` in the trace. */
  predicate Before(t: seq<Effect>, x: Effect, y: Effect)
  {
    exists i, j :: 0 <= i < j < |t| && t[i] == x && t[j] == y
  }

  /** The form-level state every submitting component keeps: the busy flag
      and the inline error message ("" shows no message). */
  datatype FormStatus = FormStatus(loading: bool, error: string)

  /** The form status after a handler's trace has run from `prior`. */
  function Settle(prior: FormStatus, t: seq<Effect>): (r: FormStatus)
    ensures (forall i :: 0 <= i < |t| ==> !t[i].SetLoading?) ==> r.loading == prior.loading
    ensures (forall i :: 0 <= i < |t| ==> !t[i].SetError?) ==> r.error == prior.error
  {
    FormStatus(Latest(t, LoadingWrite, prior.loading), Latest(t, ErrorWrite, prior.error))
  }

  /** Running two traces one after the other, as seen by the form status. */
  lemma SettleAppend(prior: FormStatus, a: seq<Effect>, b: seq<Effect>)
    ensures Settle(prior, a + b) == Settle(Settle(prior, a), b)
  {
    LatestAppend(a, b, LoadingWrite, prior.loading);
    LatestAppend(a, b, ErrorWrite, prior.error);
  }

  /** What every submit handler does first: mark the form busy and clear the error. */
  const Opening: seq<Effect> := [SetLoading(true), SetError("")]

  /** What every submit handler does last, on every path: mark the form idle. */
  const Closing: seq<Effect> := [SetLoading(false)]

  /** A handler of the shape opening, body, closing ends idle, shows the last
      message its body wrote (or none), forgets the earlier status, and issues
      exactly its body's calls. */
  lemma SubmitShape(prior: FormStatus, body: seq<Effect>)
    ensures Settle(prior, Opening + body + Closing) == FormStatus(false, Latest(body, ErrorWrite, ""))
    ensures Calls(Opening + body + Closing) == Calls(body)
  {
    SettleAppend(prior, Opening + body, Closing);
    SettleAppend(prior, Opening, body);
    assert Settle(prior, Opening) == FormStatus(true, "");
    CallsAppend(Opening + body, Closing);
    CallsAppend(Opening, body);
  }

  /** The client's `message || fallback`: an empty (or absent) message is replaced. */
  function MessageOr(message: string, fallback: string): (r: string)
    ensures fallback != "" ==> r != ""
    ensures r == message || r == fallback
    ensures message != "" ==> r == message
  {
    if message != "" then message else fallback
  }
}
