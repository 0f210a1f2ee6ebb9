/** The `signIn` slice, the reducer the store registers: the sign-in form's
    fields, the authentication flag, and the error flag and message of the last
    failed login. */
module SignInSlice {
  import opened Js
  import ApiService
  import opened LoginThunk

  const LoginFailed := "Login failed"

  datatype SignInState = SignInState(
    email: JsValue,
    password: JsValue,
    isAuthenticated: bool,
    error: bool,
    errorMessage: JsValue)

  /** The state the store starts in: empty fields, not authenticated, no error. */
  const Initial := SignInState(Str(""), Str(""), false, false, Str(""))

  datatype SignInAction =
    | SetEmail(payload: JsValue)
    | SetPassword(payload: JsValue)
    | Login(step: ThunkAction)

  /** The slice reducer. `pending` has no case and leaves the state as it is. */
  function Reduce(s: SignInState, a: SignInAction): (r: SignInState)
    ensures a.SetEmail? ==> r == s.(email := a.payload)
    ensures a.SetPassword? ==> r == s.(password := a.payload)
    ensures a == Login(Pending) ==> r == s
    ensures a.Login? && a.step.Fulfilled? ==> r.isAuthenticated && !r.error
    ensures a.Login? && a.step.Rejected? ==> !r.isAuthenticated && r.error
    ensures a.Login? ==> r.email == s.email && r.password == s.password
    ensures a.Login? && !a.step.Rejected? ==> r.errorMessage == s.errorMessage
    ensures a.Login? && a.step.Rejected? && Truthy(a.step.payload) ==> r.errorMessage == a.step.payload
    ensures a.Login? && a.step.Rejected? && !Truthy(a.step.payload) ==> r.errorMessage == Str(LoginFailed)
  {
    match a
    case SetEmail(p) => s.(email := p)
    case SetPassword(p) => s.(password := p)
    case Login(Pending) => s
    case Login(Fulfilled(_)) => s.(isAuthenticated := true, error := false)
    case Login(Rejected(p)) => s.(isAuthenticated := false, error := true, errorMessage := Or(p, Str(LoginFailed)))
  }

  /** The states the reducer keeps: never authenticated and in error at once,
      and an error always comes with a non-empty message. */
  predicate Consistent(s: SignInState) {
    && !(s.isAuthenticated && s.error)
    && (s.error ==> Truthy(s.errorMessage))
  }

  /** Dispatching a sequence of actions in order. */
  function Run(s: SignInState, actions: seq<SignInAction>): SignInState
    decreases |actions|
  {
    if |actions| == 0 then s else Run(Reduce(s, actions[0]), actions[1..])
  }

  lemma InitialConsistent()
    ensures Consistent(Initial)
    ensures !Initial.isAuthenticated && !Initial.error
    ensures Initial.email == Str("") && Initial.password == Str("") && Initial.errorMessage == Str("")
  {
  }

  lemma ReducePreservesConsistent(s: SignInState, a: SignInAction)
    requires Consistent(s)
    ensures Consistent(Reduce(s, a))
  {
  }

  /** Whatever actions are dispatched from a consistent state (the initial one
      in particular), authentication and error are never set together. */
  lemma {:induction false} RunPreservesConsistent(s: SignInState, actions: seq<SignInAction>)
    requires Consistent(s)
    ensures Consistent(Run(s, actions))
    ensures !(Run(s, actions).isAuthenticated && Run(s, actions).error)
    decreases |actions|
  {
    if |actions| > 0 {
      ReducePreservesConsistent(s, actions[0]);
      RunPreservesConsistent(Reduce(s, actions[0]), actions[1..]);
    }
  }

  /** A success after a failure clears the error flag but keeps the message
      the failure left: the rejection's payload when it was truthy, "Login
      failed" otherwise. */
  lemma StaleMessageSurvivesSuccess(s: SignInState, reason: JsValue, token: JsValue)
    ensures var r := Reduce(Reduce(s, Login(Rejected(reason))), Login(Fulfilled(token)));
      && r.isAuthenticated && !r.error
      && r.errorMessage == Or(reason, Str(LoginFailed))
      && (Truthy(reason) ==> r.errorMessage == reason)
      && (!Truthy(reason) ==> r.errorMessage == Str(LoginFailed))
  {
  }

  /** One sign-in attempt as the store sees it: `pending`, then the action
      the thunk settles with for the given login reply. */
  function SignIn(s: SignInState, o: ApiService.AxiosOutcome): SignInState {
    Reduce(Reduce(s, Login(Pending)), Login(FetchUser(o)))
  }

  /** End to end: the attempt authenticates exactly when `login` resolves and
      touches neither form field. A failed attempt shows the backend's
      `message` only for a non-2xx reply that carries a truthy one; every other
      failure, the missing token and the unreachable server included, shows
      "Login failed". */
  lemma SignInOutcome(s: SignInState, o: ApiService.AxiosOutcome)
    ensures var r := SignIn(s, o);
      && (r.isAuthenticated <==> ApiService.Login(o).Normal?)
      && (r.error <==> ApiService.Login(o).Throw?)
      && r.email == s.email && r.password == s.password
      && (ApiService.Login(o).Normal? ==> r.errorMessage == s.errorMessage)
      && (ApiService.Login(o).Throw? && CarriesBackendMessage(o) ==> r.errorMessage == o.data.props["message"])
      && (ApiService.Login(o).Throw? && !CarriesBackendMessage(o) ==> r.errorMessage == Str(LoginFailed))
  {
  }

  /** A 2xx reply whose `body` has no usable token (`{body: {}}`,
      `{body: {token: ""}}`, `{body: {token: null}}`, whatever else the reply
      carries) leaves the user signed out, showing "Login failed" rather than
      the missing-token message. */
  lemma MissingTokenShowsLoginFailed(s: SignInState, o: ApiService.AxiosOutcome)
    requires o.Answered? && ApiService.Accepted(o.status)
    requires !Nullish(o.data) && !Nullish(Prop(o.data, "body"))
    requires !Truthy(Prop(Prop(o.data, "body"), "token"))
    ensures var r := SignIn(s, o);
      !r.isAuthenticated && r.error && r.errorMessage == Str(LoginFailed)
  {
  }

  /** End to end: a failed attempt followed by a successful one leaves the
      session authenticated and out of error, still showing the failed
      attempt's message (for a missing token, "Login failed"). */
  lemma FailedThenSuccessfulSignIn(s: SignInState, bad: ApiService.AxiosOutcome, good: ApiService.AxiosOutcome)
    requires ApiService.Login(bad).Throw? && ApiService.Login(good).Normal?
    ensures var failed := SignIn(s, bad);
      var r := SignIn(failed, good);
      && r.isAuthenticated && !r.error
      && r.errorMessage == failed.errorMessage
      && Truthy(r.errorMessage)
      && (!CarriesBackendMessage(bad) ==> r.errorMessage == Str(LoginFailed))
  {
    SignInOutcome(s, bad);
    SignInOutcome(SignIn(s, bad), good);
  }
}
