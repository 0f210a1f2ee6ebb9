/** The `authSlice` variant of the sign-in slice, whose reducers also write
    the browser's token store. The store (`localStorage` under the key
    `token`) is the explicit `stored` component of a session. */
module AuthSlice {
  import opened Js
  import ApiService

  datatype AuthState = AuthState(isAuthenticated: bool, error: bool, errorMessage: string, token: string)

  /** The slice's state together with the persisted token. */
  datatype Session = Session(slice: AuthState, stored: Option<string>)

  const InitialAuth := AuthState(false, false, "", "")

  /** The actions the slice reacts to; any other action (the thunk's lifecycle
      actions among them, since this slice has no extra reducers) is `Other`. */
  datatype AuthAction = LoginSlice(payload: JsValue) | LogoutSlice | Other

  /** The slice reducer. `loginSlice` first destructures `token` out of its
      payload (a `TypeError` when the payload is `undefined` or `null`), then
      marks the session authenticated and stores the token, coerced to a
      string. `logoutSlice` marks it unauthenticated and removes the token. */
  function Apply(s: Session, a: AuthAction): (r: Reduction<Session>)
    ensures r.Raised? <==> a.LoginSlice? && Nullish(a.payload)
    ensures r.Reduced? && !a.LoginSlice? ==> r.state.slice.error == s.slice.error
    ensures r.Reduced? ==> r.state.slice.errorMessage == s.slice.errorMessage
    ensures r.Reduced? ==> r.state.slice.token == s.slice.token
    ensures a.LoginSlice? && r.Reduced? ==> r.state.slice.isAuthenticated && !r.state.slice.error
    ensures a.LoginSlice? && r.Reduced? ==> r.state.stored == Some(ToString(Prop(a.payload, "token")))
    ensures a.LogoutSlice? ==> r.Reduced? && !r.state.slice.isAuthenticated && r.state.stored == None
    ensures a.Other? ==> r == Reduced(s)
  {
    match a
    case LoginSlice(payload) =>
      (match Get(payload, "token")
       case Throw(e) => Raised(e)
       case Normal(token) =>
         Reduced(Session(s.slice.(isAuthenticated := true, error := false), Some(ToString(token)))))
    case LogoutSlice =>
      Reduced(Session(s.slice.(isAuthenticated := false), None))
    case Other => Reduced(s)
  }

  /** `dispatch`: a reducer that throws leaves the session as it was. */
  function Dispatch(s: Session, a: AuthAction): Session {
    match Apply(s, a)
    case Reduced(next) => next
    case Raised(_) => s
  }

  function Run(s: Session, actions: seq<AuthAction>): Session
    decreases |actions|
  {
    if |actions| == 0 then s else Run(Dispatch(s, actions[0]), actions[1..])
  }

  /** A `{ token: t }` payload. */
  function TokenPayload(t: string): JsValue {
    Obj(map["token" := Str(t)])
  }

  /** `loginSlice({token: t})` stores exactly `t`, whatever was stored before. */
  lemma LoginStoresToken(s: Session, t: string)
    ensures var r := Dispatch(s, LoginSlice(TokenPayload(t)));
      r.slice.isAuthenticated && !r.slice.error && r.stored == Some(t)
  {
  }

  /** `logoutSlice` clears the stored token and authentication from any
      session, changes nothing else, and a second logout changes nothing. */
  lemma LogoutIdempotent(s: Session)
    ensures var r := Dispatch(s, LogoutSlice);
      && !r.slice.isAuthenticated && r.stored == None
      && r.slice.(isAuthenticated := s.slice.isAuthenticated) == s.slice
      && Dispatch(r, LogoutSlice) == r
  {
  }

  /** Logging in then out leaves no token and no authentication, whatever the
      login payload was. */
  lemma LoginThenLogout(s: Session, payload: JsValue)
    ensures var r := Dispatch(Dispatch(s, LoginSlice(payload)), LogoutSlice);
      !r.slice.isAuthenticated && r.stored == None
  {
  }

  /** A login payload without a token (an object with no `token` property, or
      a primitive such as a string) still authenticates, and stores the string
      "undefined", which the interceptor then sends as a bearer token. */
  lemma LoginWithoutTokenStoresUndefined(s: Session, payload: JsValue, config: ApiService.Request)
    requires !Nullish(payload) && !(payload.Obj? && "token" in payload.props)
    ensures var r := Dispatch(s, LoginSlice(payload));
      && r.slice.isAuthenticated && r.stored == Some("undefined")
      && ApiService.HasToken(r.stored)
      && ApiService.Intercept(config, r.stored).headers["Authorization"] == "Bearer undefined"
  {
  }

  /** An empty token authenticates the session all the same, but the stored
      `""` is falsy, so the interceptor attaches no Authorization header. */
  lemma LoginWithEmptyTokenSendsNoAuthorization(s: Session, config: ApiService.Request)
    ensures var r := Dispatch(s, LoginSlice(TokenPayload("")));
      && r.slice.isAuthenticated && r.stored == Some("")
      && !ApiService.HasToken(r.stored)
      && ApiService.Intercept(config, r.stored) == config
  {
  }

  /** What every session reached from the initial slice state keeps, whatever
      token the browser had stored beforehand: the error flag, message and
      `token` field never leave their initial values (no reducer writes them),
      and an authenticated session always has a token stored. */
  predicate Reachable(s: Session) {
    && s.slice.error == false
    && s.slice.errorMessage == ""
    && s.slice.token == ""
    && (s.slice.isAuthenticated ==> s.stored.Some?)
  }

  lemma {:induction false} RunKeepsReachable(s: Session, actions: seq<AuthAction>)
    requires Reachable(s)
    ensures Reachable(Run(s, actions))
    ensures Run(s, actions).slice.token == ""
    decreases |actions|
  {
    if |actions| > 0 {
      var next := Dispatch(s, actions[0]);
      assert Reachable(next);
      RunKeepsReachable(next, actions[1..]);
    }
  }

  lemma InitialReachable(stored: Option<string>)
    ensures Reachable(Session(InitialAuth, stored))
    ensures !InitialAuth.isAuthenticated && !InitialAuth.error
    ensures InitialAuth.errorMessage == "" && InitialAuth.token == ""
  {
  }
}
