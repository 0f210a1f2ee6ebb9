/** The `user` slice: the signed-in user's first and last name, replaced
    wholesale by either of its two setters. */
module UserSlice {
  import opened Js

  datatype UserState = UserState(firstName: JsValue, lastName: JsValue)

  const Initial := UserState(Str(""), Str(""))

  /** Both setters take a payload object and copy its two name properties. */
  datatype UserAction = GetUser(payload: JsValue) | UpdateUser(payload: JsValue)

  /** The record a payload's two name properties make; any other property of
      the payload is dropped. */
  function Names(payload: JsValue): UserState
    requires !Nullish(payload)
  {
    UserState(Prop(payload, "firstName"), Prop(payload, "lastName"))
  }

  /** The slice reducer. Reading a name off an `undefined` or `null` payload
      throws a `TypeError`; otherwise the new state is the payload's names,
      whatever the state was. */
  function Apply(s: UserState, a: UserAction): (r: Reduction<UserState>)
    ensures r.Raised? <==> Nullish(a.payload)
    ensures r.Reduced? && a.payload.Obj? && "firstName" in a.payload.props ==> r.state.firstName == a.payload.props["firstName"]
    ensures r.Reduced? && a.payload.Obj? && "lastName" in a.payload.props ==> r.state.lastName == a.payload.props["lastName"]
    ensures r.Reduced? && !(a.payload.Obj? && "firstName" in a.payload.props) ==> r.state.firstName == Undefined
    ensures r.Reduced? && !(a.payload.Obj? && "lastName" in a.payload.props) ==> r.state.lastName == Undefined
  {
    match Get(a.payload, "firstName")
    case Throw(e) => Raised(e)
    case Normal(first) =>
      match Get(a.payload, "lastName")
      case Throw(e) => Raised(e)
      case Normal(last) => Reduced(UserState(first, last))
  }

  /** `dispatch`: a reducer that throws leaves the state as it was. */
  function Dispatch(s: UserState, a: UserAction): (r: UserState)
    ensures Nullish(a.payload) ==> r == s
    ensures !Nullish(a.payload) ==> r == Names(a.payload)
  {
    match Apply(s, a)
    case Reduced(next) => next
    case Raised(_) => s
  }

  function Run(s: UserState, actions: seq<UserAction>): UserState
    decreases |actions|
  {
    if |actions| == 0 then s else Run(Dispatch(s, actions[0]), actions[1..])
  }

  /** `getUser({firstName: f, lastName: l})` yields exactly those names. */
  lemma GetUserSetsNames(s: UserState, f: JsValue, l: JsValue)
    ensures Dispatch(s, GetUser(Obj(map["firstName" := f, "lastName" := l]))) == UserState(f, l)
  {
  }

  /** The two setters are interchangeable on every state. */
  lemma UpdateUserIsGetUser(s: UserState, payload: JsValue)
    ensures Dispatch(s, UpdateUser(payload)) == Dispatch(s, GetUser(payload))
  {
  }

  /** Setting the same payload twice is setting it once. */
  lemma SetterIdempotent(s: UserState, a: UserAction)
    ensures Dispatch(Dispatch(s, a), a) == Dispatch(s, a)
  {
  }

  /** The payload of the last action in the sequence that the reducer
      accepts, if any. */
  function LastAccepted(actions: seq<UserAction>): (p: Option<JsValue>)
    ensures p.Some? ==> !Nullish(p.value)
    decreases |actions|
  {
    if |actions| == 0 then None
    else if !Nullish(actions[|actions| - 1].payload) then Some(actions[|actions| - 1].payload)
    else LastAccepted(actions[..|actions| - 1])
  }

  lemma {:induction false} RunSnoc(s: UserState, actions: seq<UserAction>, a: UserAction)
    ensures Run(s, actions + [a]) == Dispatch(Run(s, actions), a)
    decreases |actions|
  {
    if |actions| > 0 {
      assert (actions + [a])[1..] == actions[1..] + [a];
      RunSnoc(Dispatch(s, actions[0]), actions[1..], a);
    }
  }

  /** Last write wins: after any sequence of setters the state is the names of
      the last accepted payload, and the start state matters only when no
      payload was accepted. */
  lemma {:induction false} LastWriteWins(s: UserState, actions: seq<UserAction>)
    ensures LastAccepted(actions).Some? ==> Run(s, actions) == Names(LastAccepted(actions).value)
    ensures LastAccepted(actions).None? ==> Run(s, actions) == s
    decreases |actions|
  {
    if |actions| > 0 {
      var init := actions[..|actions| - 1];
      var last := actions[|actions| - 1];
      assert actions == init + [last];
      RunSnoc(s, init, last);
      LastWriteWins(s, init);
    }
  }

  /** Two stores fed the same setters end in the same state once any payload
      has been accepted. */
  lemma EarlierStateForgotten(s1: UserState, s2: UserState, actions: seq<UserAction>)
    requires LastAccepted(actions).Some?
    ensures Run(s1, actions) == Run(s2, actions)
  {
    LastWriteWins(s1, actions);
    LastWriteWins(s2, actions);
  }

  /** The store starts with two empty names and shows them until a payload is
      accepted; from then on it shows the last accepted payload's names. */
  lemma NamesFromInitial(actions: seq<UserAction>)
    ensures Initial.firstName == Str("") && Initial.lastName == Str("")
    ensures LastAccepted(actions).None? ==> Run(Initial, actions) == UserState(Str(""), Str(""))
    ensures LastAccepted(actions).Some? ==> Run(Initial, actions) == Names(LastAccepted(actions).value)
  {
    LastWriteWins(Initial, actions);
  }
}
