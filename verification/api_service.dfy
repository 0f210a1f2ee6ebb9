/** The request and response rules of the API service: the client's request
    interceptor, `login`'s classification of the login reply, and the headers
    and status handling of the two profile calls. The transport is abstract:
    each call takes the reply it receives as an input. */
module ApiService {
  import opened Js

  const ApiBaseUrl := "http://localhost:3001/api/v1"
  const LoginUrl := ApiBaseUrl + "/user/login"
  /** The profile calls spell their URL out instead of using the base URL. */
  const ProfileUrl := "http://localhost:3001/api/v1/user/profile"

  const MissingTokenMessage := "Missing token in API response"
  const NotOkMessage := "Network response was not ok"

  type Headers = map<string, string>

  /** An outgoing HTTP request. `url` is as the caller gave it: for the
      configured client, a path still to be resolved against the base URL.
      `data` is the body before JSON encoding (`Undefined` when there is none). */
  datatype Request = Request(verb: string, url: string, headers: Headers, data: JsValue)

  /** The headers every request of the configured client starts with. */
  const ClientHeaders: Headers := map["Content-Type" := "application/json"]

  /** A request issued through the configured client, as its interceptor sees
      it: the URL is still the caller's path, resolved only when the request is
      dispatched, after the interceptors ran (see `FullUrl`). */
  function ClientRequest(verb: string, path: string, data: JsValue): (q: Request)
    ensures q.verb == verb && q.url == path && q.data == data
    ensures q.headers.Keys == {"Content-Type"} && q.headers["Content-Type"] == "application/json"
  {
    Request(verb, path, ClientHeaders, data)
  }

  predicate IsLetter(c: char) {
    'a' <= c <= 'z' || 'A' <= c <= 'Z'
  }

  predicate IsSchemeChar(c: char) {
    IsLetter(c) || '0' <= c <= '9' || c == '+' || c == '-' || c == '.'
  }

  /** A URL scheme: a letter, then letters, digits, `+`, `-` or `.`. */
  predicate IsScheme(s: string) {
    |s| > 0 && IsLetter(s[0]) && forall i :: 1 <= i < |s| ==> IsSchemeChar(s[i])
  }

  /** Axios's `isAbsoluteURL`: `//`, optionally preceded by a scheme and a colon. */
  predicate IsAbsoluteUrl(u: string) {
    || (|u| >= 2 && u[..2] == "//")
    || exists k :: 1 <= k <= |u| - 3 && IsScheme(u[..k]) && u[k..k + 3] == "://"
  }

  /** The URL without any of its leading slashes. */
  function StripLeadingSlashes(u: string): (r: string)
    ensures |r| <= |u| && r == u[|u| - |r|..]
    ensures r == "" || r[0] != '/'
    ensures forall i :: 0 <= i < |u| - |r| ==> u[i] == '/'
    decreases |u|
  {
    if |u| > 0 && u[0] == '/' then StripLeadingSlashes(u[1..]) else u
  }

  /** The URL without one or two trailing slashes (`/\/?\/$/`). */
  function StripTrailingSlashes(u: string): (r: string)
    ensures |r| <= |u| && r == u[..|r|] && |u| - 2 <= |r|
    ensures forall i :: |r| <= i < |u| ==> u[i] == '/'
  {
    if |u| >= 2 && u[|u| - 2..] == "//" then u[..|u| - 2]
    else if |u| >= 1 && u[|u| - 1] == '/' then u[..|u| - 1]
    else u
  }

  /** Axios's `combineURLs`: the base and the relative URL joined by exactly
      one slash; an empty relative URL leaves the base. */
  function CombineUrls(base: string, relative: string): string {
    if relative == "" then base
    else StripTrailingSlashes(base) + "/" + StripLeadingSlashes(relative)
  }

  /** Axios's `buildFullPath` for the configured client: an absolute URL is
      sent as it is, any other one is joined to the base URL. */
  function FullUrl(url: string): string {
    if IsAbsoluteUrl(url) then url else CombineUrls(ApiBaseUrl, url)
  }

  /** A relative path with or without its leading slash goes to the same
      place: the base URL, one slash, then the path. */
  lemma FullUrlJoinsWithOneSlash(path: string)
    requires path != "" && path[0] != '/' && !IsAbsoluteUrl(path)
    ensures FullUrl(path) == ApiBaseUrl + "/" + path
    ensures FullUrl("/" + path) == ApiBaseUrl + "/" + path
  {
  }

  /** A relative path that does not start with `/` stays relative once a
      single `/` is put in front of it: a slash is no scheme character, and
      the path's own first character is not a second slash. */
  lemma SlashedNotAbsolute(path: string)
    requires path != "" && path[0] != '/'
    ensures !IsAbsoluteUrl("/" + path)
  {
    var u := "/" + path;
    forall k | 1 <= k <= |u| - 3
      ensures !(IsScheme(u[..k]) && u[k..k + 3] == "://")
    {
      assert u[..k][0] == '/';
    }
    assert u[..2] != "//" by {
      assert u[..2][1] == path[0];
    }
  }

  /** `localStorage.getItem('token')`: the stored string, or `null`. */
  function GetItem(stored: Option<string>): JsValue {
    match stored
    case Some(t) => Str(t)
    case None => Null
  }

  /** `if (token)` on the result of `getItem`: a stored empty string counts as
      absent. */
  predicate HasToken(stored: Option<string>) {
    Truthy(GetItem(stored))
  }

  /** `Bearer ${token}` for the result of `getItem`. */
  function Bearer(stored: Option<string>): (h: string)
    ensures stored.Some? ==> h == "Bearer " + stored.value
    ensures stored.None? ==> h == "Bearer null"
  {
    "Bearer " + ToString(GetItem(stored))
  }

  /** The request interceptor: attach `Bearer <token>` when a truthy token is
      stored, otherwise pass the request through untouched. */
  function Intercept(config: Request, stored: Option<string>): (r: Request)
    ensures r.verb == config.verb && r.url == config.url && r.data == config.data
    ensures HasToken(stored) ==> "Authorization" in r.headers && r.headers["Authorization"] == "Bearer " + stored.value
    ensures HasToken(stored) ==> r.headers.Keys == config.headers.Keys + {"Authorization"}
    ensures forall k :: k in config.headers && k != "Authorization" ==> k in r.headers && r.headers[k] == config.headers[k]
    ensures !HasToken(stored) ==> r == config
  {
    if HasToken(stored) then
      config.(headers := config.headers["Authorization" := Bearer(stored)])
    else
      config
  }

  /** Intercepting an already intercepted request changes nothing more. */
  lemma InterceptIdempotent(config: Request, stored: Option<string>)
    ensures Intercept(Intercept(config, stored), stored) == Intercept(config, stored)
  {
  }

  /** Every request of the configured client keeps its JSON content type, and
      carries an Authorization header exactly when a truthy token is stored. */
  lemma ClientRequestHeaders(verb: string, path: string, data: JsValue, stored: Option<string>)
    ensures var r := Intercept(ClientRequest(verb, path, data), stored);
      && "Content-Type" in r.headers && r.headers["Content-Type"] == "application/json"
      && ("Authorization" in r.headers <==> HasToken(stored))
      && (HasToken(stored) ==> r.headers["Authorization"] == "Bearer " + stored.value)
  {
  }

  // ---------------------------------------------------------------- login

  /** What the global axios client reports for the login POST: a reply with a
      status and a parsed body, or no reply at all (network failure, timeout). */
  datatype AxiosOutcome =
    | Answered(status: int, data: JsValue)
    | Unanswered(message: string)

  /** Axios's default `validateStatus`: only 2xx replies resolve. */
  predicate Accepted(status: int) {
    200 <= status < 300
  }

  /** The login request. It goes through the global axios client, not the
      configured one, so the interceptor never sees it: no Authorization header
      is attached whatever is stored. */
  function LoginRequest(email: JsValue, password: JsValue): (q: Request)
    ensures q.verb == "POST" && q.url == LoginUrl
    ensures "Authorization" !in q.headers
    ensures q.data.Obj? && q.data.props.Keys == {"email", "password"}
    ensures q.data.props["email"] == email && q.data.props["password"] == password
  {
    Request("POST", LoginUrl, map[], Obj(map["email" := email, "password" := password]))
  }

  /** The error axios rejects with: with a `response` for a non-2xx reply,
      without one when nothing came back. */
  function AxiosError(o: AxiosOutcome): (e: JsValue)
    requires !(o.Answered? && Accepted(o.status))
    ensures e.Obj? && "message" in e.props
  {
    match o
    case Unanswered(m) => Obj(map["message" := Str(m)])
    case Answered(status, data) =>
      Obj(map["message" := Str("Request failed with status code " + IntToDecimal(status)),
              "response" := Obj(map["status" := Num(status), "data" := data])])
  }

  /** The `try` block of `login`: await the POST, read `response.data.body.token`,
      throw an `Error` when it is falsy. */
  function LoginAttempt(o: AxiosOutcome): Completion {
    if !(o.Answered? && Accepted(o.status)) then Throw(AxiosError(o))
    else
      match Get(o.data, "body")
      case Throw(e) => Throw(e)
      case Normal(body) =>
        match Get(body, "token")
        case Throw(e) => Throw(e)
        case Normal(token) =>
          if !Truthy(token) then Throw(ErrorObject("Error", MissingTokenMessage)) else Normal(token)
  }

  /** The `catch` block of `login`: what it throws for a caught value `e`,
      `e.response ? e.response.data : e.message` (or the `TypeError` reading
      those properties raises). */
  function LoginRethrow(e: JsValue): JsValue {
    match Get(e, "response")
    case Throw(t) => t
    case Normal(response) =>
      var c := if Truthy(response) then Get(response, "data") else Get(e, "message");
      match c
      case Throw(t) => t
      case Normal(v) => v
  }

  /** `login(email, password)` as a settled promise. It resolves with the
      token when the 2xx reply carries a truthy `body.token`; a non-2xx reply
      rejects with the backend's payload unchanged; every other failure,
      including the missing token, rejects with a bare string (the caught
      error's `message`), never an `Error` object. */
  function Login(o: AxiosOutcome): (r: Completion)
    ensures r.Normal? ==> o.Answered? && Accepted(o.status) && Truthy(r.value)
    ensures o.Answered? && !Accepted(o.status) ==> r == Throw(o.data)
    ensures o.Unanswered? ==> r == Throw(Str(o.message))
    ensures o.Answered? && Accepted(o.status) && r.Throw? ==> r.thrown.Str?
  {
    match LoginAttempt(o)
    case Normal(token) => Normal(token)
    case Throw(e) => Throw(LoginRethrow(e))
  }

  /** On a 2xx reply whose data and `body` can be read, `login` resolves with
      `body.token` when it is truthy and otherwise rejects with the bare
      missing-token string. Other properties of the reply play no part; a
      missing token (`{body: {}}`) reads as `undefined`. */
  lemma LoginClassifiesToken(o: AxiosOutcome)
    requires o.Answered? && Accepted(o.status)
    requires !Nullish(o.data) && !Nullish(Prop(o.data, "body"))
    ensures var token := Prop(Prop(o.data, "body"), "token");
      && (Truthy(token) ==> Login(o) == Normal(token))
      && (!Truthy(token) ==> Login(o) == Throw(Str(MissingTokenMessage)))
  {
  }

  /** On a 2xx reply without readable data or `body`, reading the token throws
      a `TypeError`, and `login` rejects with its message string. */
  lemma LoginUnreadableBodyRejects(o: AxiosOutcome)
    requires o.Answered? && Accepted(o.status)
    requires Nullish(o.data) || Nullish(Prop(o.data, "body"))
    ensures Login(o).Throw? && Login(o).thrown.Str?
  {
  }

  /** Conversely, `login` resolves only with the `body.token` of a 2xx reply. */
  lemma LoginResolvesOnlyWithReplyToken(o: AxiosOutcome)
    requires Login(o).Normal?
    ensures o.Answered? && Accepted(o.status)
    ensures o.data.Obj? && "body" in o.data.props
    ensures var body := o.data.props["body"];
      body.Obj? && "token" in body.props && body.props["token"] == Login(o).value
  {
  }

  // -------------------------------------------------------- profile calls

  /** An HTTP reply as `fetch` delivers it: the status, and how `response.json()`
      settles. */
  datatype FetchResponse = FetchResponse(status: int, json: Completion)

  /** How the `fetch` promise settles: with a reply of any status, or rejected
      when no reply arrives. */
  datatype FetchOutcome = Delivered(response: FetchResponse) | Refused(error: JsValue)

  /** `response.ok`: a status in the range 200 to 299. */
  predicate OkStatus(status: int) {
    200 <= status <= 299
  }

  /** A request handed to `fetch` and how the call's promise settles. */
  datatype Exchange = Exchange(request: Request, result: Completion)

  /** The profile request: the stored token is interpolated into the bearer
      header without any check, so an absent token gives `Bearer null`. */
  function ProfileRequest(verb: string, stored: Option<string>, data: JsValue): (q: Request)
    ensures q.url == ProfileUrl && q.verb == verb && q.data == data
    ensures q.headers.Keys == {"Content-Type", "Authorization"}
    ensures q.headers["Content-Type"] == "application/json"
    ensures stored.Some? ==> q.headers["Authorization"] == "Bearer " + stored.value
    ensures stored.None? ==> q.headers["Authorization"] == "Bearer null"
  {
    Request(verb, ProfileUrl, map["Content-Type" := "application/json", "Authorization" := Bearer(stored)], data)
  }

  /** `fetchUserProfile()`: POST to the profile URL; reject with an `Error`
      when the reply is not ok, otherwise settle as `response.json()` does. */
  function FetchUserProfile(stored: Option<string>, o: FetchOutcome): (x: Exchange)
    ensures x.request == ProfileRequest("POST", stored, Undefined)
    ensures o.Refused? ==> x.result == Throw(o.error)
    ensures o.Delivered? && !OkStatus(o.response.status) ==> x.result == Throw(ErrorObject("Error", NotOkMessage))
    ensures o.Delivered? && OkStatus(o.response.status) ==> x.result == o.response.json
  {
    var request := ProfileRequest("POST", stored, Undefined);
    match o
    case Refused(e) => Exchange(request, Throw(e))
    case Delivered(response) =>
      if !OkStatus(response.status) then Exchange(request, Throw(ErrorObject("Error", NotOkMessage)))
      else Exchange(request, response.json)
  }

  /** For a reply whose body parses, `fetchUserProfile` fails exactly when the
      status is not ok, and otherwise resolves with the parsed body. */
  lemma FetchProfileFailsExactlyWhenNotOk(stored: Option<string>, status: int, body: JsValue)
    ensures var x := FetchUserProfile(stored, Delivered(FetchResponse(status, Normal(body))));
      && (x.result.Throw? <==> !OkStatus(status))
      && (x.result.Throw? ==> x.result.thrown == ErrorObject("Error", NotOkMessage))
      && (x.result.Normal? ==> x.result.value == body)
  {
  }

  /** `updateUserProfile(userData)`: PUT the new names to the profile URL and
      settle as `response.json()` does. The status is never looked at; a
      rejected `fetch` is caught and rethrown unchanged. */
  function UpdateUserProfile(stored: Option<string>, userData: JsValue, o: FetchOutcome): (x: Exchange)
    ensures x.request == ProfileRequest("PUT", stored, userData)
    ensures o.Refused? ==> x.result == Throw(o.error)
    ensures o.Delivered? ==> x.result == o.response.json
  {
    var request := ProfileRequest("PUT", stored, userData);
    match o
    case Refused(e) => Exchange(request, Throw(e))
    case Delivered(response) => Exchange(request, response.json)
  }

  /** Two replies that differ only in status settle `updateUserProfile` alike:
      an error status with a JSON body resolves as a success would. */
  lemma UpdateIgnoresStatus(stored: Option<string>, userData: JsValue, s1: int, s2: int, json: Completion)
    ensures UpdateUserProfile(stored, userData, Delivered(FetchResponse(s1, json))).result
         == UpdateUserProfile(stored, userData, Delivered(FetchResponse(s2, json))).result
  {
  }
}
