# Argent Bank front-end: session and profile state, in Dafny

This project models the session logic of the Argent Bank single-page front-end
and proves properties about it. The model covers:

- the two sign-in reducers. `signInSlice` is the one the store registers. `authSlice`
  is a variant that also writes the browser's token store.
- the `user` profile reducer.
- the request and response rules of the API service: the request interceptor,
  `login`'s classification of the login reply, and the headers and status handling
  of the two profile calls.

Everything is written as pure functions over immutable records. The browser's
`localStorage` entry `token` is an explicit `Option<string>`. Each HTTP call takes
the reply it receives as an input value, so no transport is modelled.

JavaScript's own semantics are modelled where the code depends on them (module
`Js`):

- truthiness, so a stored `""` counts as no token;
- `||`;
- property reads, which throw a `TypeError` on `undefined` and `null`;
- string coercion by `localStorage.setItem` and template literals;
- thrown values of any type.

The central end-to-end fact follows from these rules. `login` catches its own
`Error('Missing token in API response')` and rethrows its `.message`, which is a
bare string. The thunk then passes `error.message` to `rejectWithValue`. A string
has no `message` property, so the rejected payload is `undefined`. The rejected
reducer therefore shows "Login failed". The only failure whose text reaches the
state is a non-2xx reply whose payload has a truthy `message`.

Modules, one per source file: `Js` (value semantics), `ApiService`
(`utils/apiService.js`), `LoginThunk` (the `fetchUser` thunk, defined identically in
both slice files), `SignInSlice`, `AuthSlice`, `UserSlice`.

Facts about the code that the model makes explicit:

- A 2xx reply without a token ends with errorMessage "Login failed", not the
  missing-token text (`SignInSlice.MissingTokenShowsLoginFailed`).
- `logoutSlice` touches only the authentication flag and the stored token. No
  reducer clears the `user` slice's names.
- `fetchUserProfile` always sends, with header `Bearer null` when nothing is stored.
  The `if (token)` guard is in `User.jsx`, which is not part of this model.
- `login` uses the global axios client and the profile calls use `fetch`. The
  interceptor therefore shapes no request the core sends
  (`ApiService.LoginRequest`, `ApiService.ProfileRequest`).

## Model

| member | source | states |
|---|---|---|
| Js.Get | bank-frontend/src/utils/apiService.js:49 | A property read throws exactly when the object is `undefined` or `null`. The thrown `TypeError` has a `message` and no `response`. A missing property reads as `undefined`. |
| Js.ToString | bank-frontend/src/slices/authSlice.js:58 | The string stored for a value is empty exactly when the value is `""`. A string is stored as itself. |
| ApiService.ClientRequest | bank-frontend/src/utils/apiService.js:6-11 | A request of the configured client reaches its interceptor with the caller's path still unresolved. It starts with the single header `Content-Type: application/json`. |
| ApiService.FullUrlJoinsWithOneSlash | bank-frontend/src/utils/apiService.js:3-7 | When the request is dispatched, any relative path is joined to `http://localhost:3001/api/v1` with exactly one `/`, whether or not the path starts with `/`. A colon inside a relative path, such as `a:b`, makes no difference. This is axios's `combineURLs`. |
| ApiService.SlashedNotAbsolute | bank-frontend/src/utils/apiService.js:6-7 | A path written with one leading `/`, such as `/user/profile`, is never an absolute URL for axios. It is therefore always joined to the configured base URL and never sent as it is. |
| ApiService.Intercept | bank-frontend/src/utils/apiService.js:19-26 | With a truthy stored token, the request gains `Authorization: Bearer <token>` and keeps every other header, method, URL and body. With no token or `""`, the request is returned unchanged. |
| ApiService.InterceptIdempotent | bank-frontend/src/utils/apiService.js:21-25 | Intercepting twice gives the same request as intercepting once. |
| ApiService.ClientRequestHeaders | bank-frontend/src/utils/apiService.js:6-26 | Every intercepted client request keeps `Content-Type: application/json`. It has an Authorization header if and only if a truthy token is stored. |
| ApiService.LoginRequest | bank-frontend/src/utils/apiService.js:42-47 | The login POST to `/user/login` carries `{email, password}`. It has no Authorization header, because it bypasses the interceptor. |
| ApiService.AxiosError | bank-frontend/src/utils/apiService.js:44-47 | A rejected POST always yields an error object with a `message`. |
| ApiService.Login | bank-frontend/src/utils/apiService.js:42-62 | `login` resolves only on a 2xx reply, and only with a truthy value. A non-2xx reply rejects with the backend payload unchanged. No reply rejects with the bare message string. Every failure after a 2xx reply rejects with a bare string. |
| ApiService.LoginClassifiesToken | bank-frontend/src/utils/apiService.js:49-60 | On any 2xx reply whose data and `body` can be read, `login` resolves with `body.token` when it is truthy. Otherwise it rejects with the string "Missing token in API response", not an `Error`. Other fields of the reply play no part. |
| ApiService.LoginUnreadableBodyRejects | bank-frontend/src/utils/apiService.js:49-60 | On a 2xx reply whose data or `body` is `undefined` or `null`, reading the token throws. `login` then rejects with that error's message string. |
| ApiService.LoginResolvesOnlyWithReplyToken | bank-frontend/src/utils/apiService.js:49-54 | Conversely, a resolved `login` came from a 2xx reply, and its value is that reply's `body.token`. |
| ApiService.ProfileRequest | bank-frontend/src/utils/apiService.js:71-79 | A profile request has exactly the headers Content-Type `application/json` and Authorization `Bearer <stored>`. The Authorization value is `Bearer null` when nothing is stored. |
| ApiService.FetchUserProfile | bank-frontend/src/utils/apiService.js:70-86 | The profile is fetched by POST. A refused fetch rejects with its error. A reply that is not ok rejects with `Error('Network response was not ok')`. An ok reply settles as its JSON body does. |
| ApiService.FetchProfileFailsExactlyWhenNotOk | bank-frontend/src/utils/apiService.js:81-85 | When the reply body parses, the fetch fails if and only if the status is outside 200 to 299. Otherwise it resolves with the parsed body. |
| ApiService.UpdateUserProfile | bank-frontend/src/utils/apiService.js:97-116 | The update PUTs the user data with the bearer header. It settles as the reply's JSON body does, whatever the status. A refused fetch is rethrown unchanged. |
| ApiService.UpdateIgnoresStatus | bank-frontend/src/utils/apiService.js:101-111 | Two replies that differ only in status give the same update result. |
| LoginThunk.Settle | bank-frontend/src/slices/signInSlice.js:13-23 | The thunk fulfils with the resolved token. On a rejection, the payload is the thrown value's `message` property, or `undefined` when there is none. The same thunk is defined in authSlice.js at lines 14-24. |
| LoginThunk.FetchUserPayload | bank-frontend/src/slices/signInSlice.js:15-21 | The thunk fulfils exactly when `login` resolves. Apart from a non-2xx reply, every rejection carries payload `undefined`. A truthy payload occurs exactly when a non-2xx reply carries a truthy `message`, and the payload is that message. |
| SignInSlice.Reduce | bank-frontend/src/slices/signInSlice.js:38-83 | `setEmail` and `setPassword` change only their field, and `pending` changes nothing. `fulfilled` sets authenticated and clears the error, keeping the message. `rejected` clears authentication, sets the error, and sets the message to a truthy payload or else "Login failed". |
| SignInSlice.InitialConsistent | bank-frontend/src/slices/signInSlice.js:31-37 | The initial state has empty email, password and message, and is neither authenticated nor in error. |
| SignInSlice.ReducePreservesConsistent | bank-frontend/src/slices/signInSlice.js:45-82 | Each action keeps two facts. The state is never authenticated and in error at once. An error always comes with a truthy message. |
| SignInSlice.RunPreservesConsistent | bank-frontend/src/slices/signInSlice.js:31-82 | The two facts hold over any sequence of actions, so isAuthenticated and error are never both true. |
| SignInSlice.StaleMessageSurvivesSuccess | bank-frontend/src/slices/signInSlice.js:67-70 | After a failure followed by a success, the state is authenticated and not in error, but the message the failure set remains. That message is the rejection payload when it is truthy, and "Login failed" otherwise. |
| SignInSlice.SignInOutcome | bank-frontend/src/slices/signInSlice.js:13-82 | Over one attempt, authentication holds if and only if `login` resolves, and the error holds if and only if it rejects. The form fields are unchanged. The message is the backend's own only for a non-2xx reply carrying a truthy `message`. Otherwise it is "Login failed". |
| SignInSlice.FailedThenSuccessfulSignIn | bank-frontend/src/slices/signInSlice.js:13-82 | A rejected attempt followed by a resolved one ends authenticated and not in error, still showing the first attempt's message. Without a backend `message`, for example a missing token or no reply, that message is "Login failed". |
| SignInSlice.MissingTokenShowsLoginFailed | bank-frontend/src/slices/signInSlice.js:78-82 | Any 2xx reply whose `body` has a falsy or missing token leaves the user signed out, in error, with message "Login failed". This includes `{body: {}}` and replies carrying other fields. |
| AuthSlice.Apply | bank-frontend/src/slices/authSlice.js:54-69 | `loginSlice` throws exactly on a nullish payload. Otherwise it authenticates, clears the error and stores the token as a string. `logoutSlice` clears authentication and removes the stored token. Neither writes the message or the `token` field. |
| AuthSlice.LoginStoresToken | bank-frontend/src/slices/authSlice.js:54-59 | `loginSlice({token: t})` authenticates and stores exactly `t`, overwriting any earlier value. |
| AuthSlice.LogoutIdempotent | bank-frontend/src/slices/authSlice.js:66-69 | Logout clears authentication and the stored token and changes nothing else. A second logout changes nothing. |
| AuthSlice.LoginThenLogout | bank-frontend/src/slices/authSlice.js:54-69 | After login then logout, no token is stored and the session is not authenticated. |
| AuthSlice.LoginWithoutTokenStoresUndefined | bank-frontend/src/slices/authSlice.js:55-58 | Any non-nullish payload without a `token` property still authenticates and stores the string "undefined". That includes objects such as `{user: …}` and primitives such as a string. The interceptor then sends the stored value as `Bearer undefined`. |
| AuthSlice.RunKeepsReachable | bank-frontend/src/slices/authSlice.js:39-69 | From the initial state, any action sequence keeps error false, the message "" and the `token` field "". An authenticated session always has some string stored, which may be `""`. |
| AuthSlice.LoginWithEmptyTokenSendsNoAuthorization | bank-frontend/src/slices/authSlice.js:54-59 | `loginSlice({token: ""})` authenticates and stores `""`. That value is falsy, so the interceptor attaches no Authorization header. |
| AuthSlice.InitialReachable | bank-frontend/src/slices/authSlice.js:39-44 | The initial state is not authenticated and not in error, with empty message and token, for any previously stored token. |
| UserSlice.Apply | bank-frontend/src/slices/userSlice.js:27-43 | A setter throws exactly on a nullish payload. Otherwise the new names are the payload's `firstName` and `lastName`, `undefined` where missing, whatever the old state. |
| UserSlice.Dispatch | bank-frontend/src/slices/userSlice.js:27-43 | A dispatch with a nullish payload leaves the state. Any other payload's two names become the state. |
| UserSlice.GetUserSetsNames | bank-frontend/src/slices/userSlice.js:27-30 | `getUser({firstName: f, lastName: l})` yields exactly `{f, l}`. |
| UserSlice.UpdateUserIsGetUser | bank-frontend/src/slices/userSlice.js:27-43 | `updateUser(p)` and `getUser(p)` have the same effect on every state. |
| UserSlice.SetterIdempotent | bank-frontend/src/slices/userSlice.js:27-43 | Applying a setter twice with the same payload equals applying it once. |
| UserSlice.LastWriteWins | bank-frontend/src/slices/userSlice.js:27-43 | After any sequence of setters, the state holds the names of the last accepted payload. It is the start state when no payload was accepted. |
| UserSlice.EarlierStateForgotten | bank-frontend/src/slices/userSlice.js:27-43 | Once any payload is accepted, the final state does not depend on the start state. |
| UserSlice.NamesFromInitial | bank-frontend/src/slices/userSlice.js:4-43 | The store starts with both names `""` and keeps them until a payload is accepted. After that it shows the last accepted payload's names. |

## Left out

- The React pages, components and layout: rendering, hooks, effects and navigation
  are UI. This includes the `if (token)` guard and the error display in the `User`
  page, and the `getUser(response.body)` dispatch in `EditName`.
- `store.js`: it registers only the `signIn` reducer. `authSlice` and `userSlice`
  are modelled as standalone reducers.
- `utils.js`: token decoding is delegated to the `jwt-decode` library, which is
  not part of this model. Only trivial null guards would remain.
- The interceptor's error handler (`apiService.js` lines 27-30): it logs and
  forwards the rejection unchanged.
- Console logging.
- The hard-coded account balances.
- JSON encoding of request bodies and JSON parsing of replies. A body is given as
  a value, and a reply as the way its `json()` settles.
- Axios's own default headers and its automatic Content-Type on the login POST.
- Promises and async scheduling. Each call is modelled as already settled, so
  out-of-order resolution of concurrent calls is not modelled.
- ApiService.FullUrlJoinsWithOneSlash: only the classic axios path join is
  modelled: an absolute URL is kept, anything else is joined to the base. The
  `allowAbsoluteUrls` option of later axios releases is not modelled.
- Js.Get: primitives are modelled as having no properties, which ignores
  `length` and prototype methods. None of the property names this code reads
  exist on a primitive.
- Js.Get: every `TypeError` uses one wording (V8's "Cannot read properties of …").
  The wording differs for destructuring and between engines, and nothing here
  depends on it.
- Js.ToString: numbers are integers, so there is no floating point, NaN or
  exponent notation.
- Js.ToString: arrays are not modelled. `String([])` and `String([""])` are `""`,
  so the claim that only `""` coerces to `""` holds over the modelled values only.
  No path in this code stores or reads an array.
- `localStorage` failures such as quota errors: `setItem` is assumed to succeed.
