/** The `fetchUser` async thunk, defined identically in both sign-in slices:
    it awaits `login` and turns its outcome into the lifecycle actions that
    the store's reducers see. */
module LoginThunk {
  import opened Js
  import ApiService

  /** The actions an async thunk dispatches: `pending` first, then one of
      `fulfilled` or `rejected` carrying a payload. */
  datatype ThunkAction =
    | Pending
    | Fulfilled(payload: JsValue)
    | Rejected(payload: JsValue)

  /** The settling action for a settled `login` promise. A resolved token is
      the fulfilled payload. A rejection becomes `rejectWithValue(error.message)`;
      when the thrown value is `undefined` or `null`, reading `.message` itself
      throws and the rejected action carries no payload (`undefined`). */
  function Settle(login: Completion): (a: ThunkAction)
    ensures a != Pending
    ensures login.Normal? ==> a == Fulfilled(login.value)
    ensures login.Throw? && login.thrown.Obj? && "message" in login.thrown.props ==> a == Rejected(login.thrown.props["message"])
    ensures login.Throw? && !(login.thrown.Obj? && "message" in login.thrown.props) ==> a == Rejected(Undefined)
  {
    match login
    case Normal(token) => Fulfilled(token)
    case Throw(error) =>
      match Get(error, "message")
      case Normal(message) => Rejected(message)
      case Throw(_) => Rejected(Undefined)
  }

  /** The thunk run against one login reply. */
  function FetchUser(o: ApiService.AxiosOutcome): ThunkAction {
    Settle(ApiService.Login(o))
  }

  /** Whether a login reply is a non-2xx one whose payload has a truthy
      `message`: the only way a backend message reaches the rejected payload. */
  predicate CarriesBackendMessage(o: ApiService.AxiosOutcome) {
    && o.Answered? && !ApiService.Accepted(o.status)
    && o.data.Obj? && "message" in o.data.props && Truthy(o.data.props["message"])
  }

  /** The thunk fulfils exactly when `login` resolves. When it rejects, the
      payload is the backend's `message` for a non-2xx reply and `undefined`
      for everything else: since `login` throws bare strings there, and a
      string has no `message`, the missing-token and network messages are lost. */
  lemma FetchUserPayload(o: ApiService.AxiosOutcome)
    ensures FetchUser(o).Fulfilled? <==> ApiService.Login(o).Normal?
    ensures FetchUser(o).Rejected? && !(o.Answered? && !ApiService.Accepted(o.status)) ==> FetchUser(o).payload == Undefined
    ensures CarriesBackendMessage(o) ==> FetchUser(o) == Rejected(o.data.props["message"])
    ensures FetchUser(o).Rejected? && Truthy(FetchUser(o).payload) ==> CarriesBackendMessage(o)
  {
  }
}
