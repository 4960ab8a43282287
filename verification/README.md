# Session machinery of the wristo-sso browser client, in Dafny

This project models the client-side session machinery of the wristo-sso sign-in
client, as a functional Dafny model with proved properties:

- the **session store** (`src/store/user.ts`): the in-memory `token` and
  `userInfo`, mirrored into durable browser storage under the keys `token` and
  `userInfo`, rehydrated from it at start-up, and changed by the actions
  `login`, `register`, `logout`, `fetchUserInfo` and `setToken`;
- the **route table and navigation guard** (`src/router/index.ts`);
- the **HTTP interceptors** (`src/config/axios.ts`): the bearer header taken
  from storage, the split of replies by business code, and the 403 wipe of
  storage;
- the **request builders** (`src/api/auth.ts`, `src/api/user.ts`): endpoint
  paths, role stamping on registration, and the avatar suffix.

The store is one immutable `World` value (token, profile, storage map). Every
action is a pure function that takes its backend call's settled outcome as an
input. Every backend reply is an input, so nothing in the model talks to a
network.

| file | module | models |
|---|---|---|
| `common.dfy` | `Common` | `Option` (JavaScript's null/undefined) and `Result` |
| `api_types.dfy` | `ApiTypes` | the reply envelope, the profile, the login payload, the request payloads |
| `json.dfy` | `Json` | the `JSON.stringify`/`JSON.parse` pair used on the profile, with its round trip proved |
| `local_storage.dfy` | `LocalStorage` | `localStorage` as a key-to-string map; the two session keys |
| `http.dfy` | `Http` | requests, the request and response interceptors |
| `router.dfy` | `Router` | the route table, redirect resolution, the guard, navigation |
| `auth_api.dfy` | `AuthApi` | login, register and logout requests |
| `user_api.dfy` | `UserApi` | profile requests, `split('.')`, the avatar suffix and form |
| `user_store.dfy` | `UserStore` | rehydration and the five store actions |
| `session.dfy` | `Session` | each store action run end to end through request builder and interceptors |

## What the code does not promise

One might expect the session to behave as one unit: `token == ""` exactly
when there is no profile, and a 403 clearing the session store. The code is
looser, and the model follows the code:

- The 403 handler removes the two storage keys and navigates to `/login`. It
  does not touch the store's in-memory fields. After a 403 the store still holds
  its token, but storage no longer mirrors it (`Session.ForbiddenLeavesStaleStore`).
  The guard and the request interceptor read storage, so they treat the user
  as signed out.
- The token/profile coupling is not an invariant of the code. `login` stores
  whatever the payload holds, and a payload with a token but no profile leaves
  them decoupled (`UserStore.PartialLoginDecouples`). `setToken` changes only
  the token (`UserStore.SetTokenCoupling`). Logout, complete logins and profile
  refreshes do keep the coupling.
- Nothing in the guard sends a signed-in user away from the sign-in page. The guard allows every public destination.
- The guard is a function from the destination and the storage map to a
  verdict. It returns no storage, so it cannot write any.

## Model

| member | source | states |
|---|---|---|
| `Json.DecodeEncode` | src/store/user.ts:9-17 | parsing the text the store writes for a profile, or for `null`, gives back the same nullable profile |
| `Json.EncodeDistinguishesNull` | src/store/user.ts:9-17 | the written text is `null` exactly when there is no profile |
| `LocalStorage.StoredToken` | src/config/axios.ts:17-18 | the stored token reads as non-empty exactly when the `token` key is present with a non-empty value |
| `Http.AttachBearer` | src/config/axios.ts:16-22 | with a stored token the request gains `Authorization: Bearer <token>` and keeps every other header, its method, URL and body; without one the request is returned unchanged |
| `Http.BearerCarriesStoredToken` | src/config/axios.ts:17-20 | a request built without a credential leaves with one exactly when storage holds a token, and stripping `Bearer ` from the header gives the stored value back |
| `Http.InterceptResponse` | src/config/axios.ts:25-48 | a delivered reply resolves with its body exactly when its code is the success code, and otherwise rejects with that code and message; every failure rejects; only a 403 changes storage, by removing exactly the two session keys, and only a 403 starts a navigation, to `/login` |
| `Http.ClearCredentials` | src/config/axios.ts:38-39 | the 403 wipe removes exactly `token` and `userInfo` and keeps every other entry |
| `Http.ClearCredentialsIdempotent` | src/config/axios.ts:38-39 | wiping twice leaves the same storage as wiping once |
| `Http.ForbiddenWipeIdempotent` | src/config/axios.ts:36-42 | a second 403 changes storage no further |
| `Http.NoBearerAfterForbidden` | src/config/axios.ts:17-39 | after a 403 the next request goes out without an Authorization header |
| `Router.FindRecord` | src/router/index.ts:5-32 | the record found is declared in the table for the requested path, and no record is found only when none is declared for it |
| `Router.Guard` | src/router/index.ts:35-46 | a destination with `requiresAuth: false` is allowed whatever the token; any other destination, including one with no meta, is allowed exactly when storage holds a non-empty token; every redirect goes to `/auth` |
| `Router.AuthIsPublic` | src/router/index.ts:10-15 | `/auth` resolves to the public `Auth` view |
| `Router.PathsAreDistinct` | src/router/index.ts:5-32 | no path is declared twice in the route table |
| `Router.LegacyPathsRedirectToAuth` | src/router/index.ts:6-31 | `/`, `/login`, `/forgot-password` and `/reset-password` all land on `/auth` |
| `Router.NamedRoutesArePublic` | src/router/index.ts:10-27 | every named route of the table is declared public |
| `Router.RedirectsTargetViews` | src/router/index.ts:6-31 | every redirect of the table targets `/auth`, which is a view, so redirects never chain |
| `Router.UnknownPathsAreProtected` | src/router/index.ts:35-44 | a path the table does not declare is protected, so the guard fails closed |
| `Router.NavigationSettles` | src/router/index.ts:35-46 | a guard redirect is never redirected again; a navigation lands on the requested page when it is public or a token is stored, and on `/auth` otherwise |
| `Router.SignedOutReachesOnlyPublicPages` | src/router/index.ts:35-46 | without a stored token every navigation ends on a public page |
| `AuthApi.LoginRequest` | src/api/auth.ts:14-16 | login posts the credentials unchanged to `/public/auth/login/email` |
| `AuthApi.StampRole` | src/api/auth.ts:18-19 | the registration payload's roles become exactly `['ROLE_MERCHANT']`; username, password, email and every other field are kept |
| `AuthApi.StampRoleIdempotent` | src/api/auth.ts:19 | stamping twice yields the payload stamping once does |
| `AuthApi.StampRoleIgnoresCallerRoles` | src/api/auth.ts:19 | whatever roles the caller supplied, the same payload is sent |
| `AuthApi.RegisterRequest` | src/api/auth.ts:18-21 | registration posts the stamped payload to `/public/auth/register` |
| `AuthApi.LogoutRequest` | src/api/auth.ts:23-25 | logout posts no body to `/public/auth/logout` |
| `UserApi.GetUserInfoRequest` | src/api/user.ts:4-6 | the profile is fetched by GET on `/users/info` |
| `UserApi.UpdateUserInfoRequest` | src/api/user.ts:8-10 | profile changes are posted unchanged to `/users/update/my-info` |
| `UserApi.Split` | src/api/user.ts:16 | splitting on the dot yields at least one piece, no piece holds a dot, and there is a single piece, the whole name, exactly when the name has no dot |
| `UserApi.JoinSplit` | src/api/user.ts:16 | joining the pieces with the dot gives the name back |
| `UserApi.LastPieceIsFinalSegment` | src/api/user.ts:16 | the last piece is the longest dot-free suffix of the name |
| `UserApi.AvatarSuffixIsExtension` | src/api/user.ts:16 | the suffix is the text after the last dot, or the whole name when it has no dot, or `png` for an empty name or one ending in a dot; it is never empty and never holds a dot |
| `UserApi.AvatarForm` | src/api/user.ts:12-16 | the upload form carries the file, `folder = merchant/avatar`, and `suffix` set to the derived avatar suffix, which is non-empty and dot-free |
| `UserApi.UploadAvatarRequest` | src/api/user.ts:12-19 | the avatar form is posted to `/files/upload` as multipart form data |
| `UserStore.MessageOr` | src/store/user.ts:25 | a thrown message is the server's message when that is non-empty, and exactly the default message when it is empty |
| `UserStore.Rehydrate` | src/store/user.ts:7-10 | the initial token is the stored token, or `''` when it is absent or empty; a missing or empty stored profile reads as `null`, any other stored text gives the profile it parses to, and text that does not parse makes start-up fail |
| `UserStore.Login` | src/store/user.ts:12-19 | a rejected login changes nothing and passes the rejection on; a resolved one takes the payload's token and profile (or `''` and `null`), writes both to storage, changes no other key, and returns the payload |
| `UserStore.Register` | src/store/user.ts:20-26 | registration never changes the store or storage; it returns a non-empty payload; otherwise a rejection passes through, and a resolved reply throws the server's message, or `注册失败` when that message is empty |
| `UserStore.Logout` | src/store/user.ts:27-39 | logout always completes with no token, no profile and both keys removed, keeping every other stored entry, whatever the backend answered |
| `UserStore.FetchUserInfo` | src/store/user.ts:40-51 | without a token it fails and changes nothing; a delivered profile replaces only the profile and its stored copy; a rejection passes through and changes nothing; a reply without a profile throws the server's message, or `获取用户信息失败` when that message is empty, and changes nothing |
| `UserStore.SetToken` | src/store/user.ts:52-55 | only the token and its stored copy change |
| `UserStore.RehydratedIsMirrored` | src/store/user.ts:7-10 | a freshly rehydrated state is mirrored by storage |
| `UserStore.LoginRoundTrip` | src/store/user.ts:8-17 | a restart right after a resolved login rebuilds the same token and profile |
| `UserStore.LoginKeepsMirror` | src/store/user.ts:12-19 | login, resolved or rejected, keeps storage mirroring the store |
| `UserStore.LogoutMirrors` | src/store/user.ts:27-39 | after logout storage mirrors the signed-out store |
| `UserStore.FetchUserInfoKeepsMirror` | src/store/user.ts:40-51 | a profile refresh keeps storage mirroring the store |
| `UserStore.SetTokenKeepsMirror` | src/store/user.ts:52-55 | replacing the token keeps storage mirroring the store |
| `UserStore.LogoutIdempotent` | src/store/user.ts:27-39 | logging out twice gives the state logging out once gives |
| `UserStore.LogoutCouples` | src/store/user.ts:34-35 | after logout there is neither a token nor a profile |
| `UserStore.CompleteLoginCouples` | src/store/user.ts:14-15 | a login whose payload holds a token and a profile leaves both set |
| `UserStore.FetchUserInfoKeepsCoupling` | src/store/user.ts:40-51 | a profile refresh keeps "token exactly when profile" |
| `UserStore.PartialLoginDecouples` | src/store/user.ts:14-15 | a login payload with a token and no profile leaves a token without a profile |
| `UserStore.SetTokenCoupling` | src/store/user.ts:52-55 | `setToken` keeps "token exactly when profile" exactly when the new token agrees with the profile's presence |
| `Session.LoginVia` | src/store/user.ts:12-13 | the store's login sends the credentials to the login endpoint |
| `Session.RegisterVia` | src/store/user.ts:20-21 | the store's registration sends the role-stamped payload to the register endpoint |
| `Session.LogoutVia` | src/store/user.ts:27-29 | the store's logout posts an empty body to the logout endpoint |
| `Session.FetchUserInfoVia` | src/store/user.ts:40-44 | the profile is requested by GET on `/users/info`, and no request is made without a token |
| `Session.LoginSendsStoredBearer` | src/config/axios.ts:17-20 | the login request carries `Bearer <stored token>` exactly when storage holds a token |
| `Session.ForbiddenLoginWipesStorageOnly` | src/config/axios.ts:36-46 | a 403 during login removes the two keys, keeps the in-memory fields, rejects, and navigates to `/login` |
| `Session.ForbiddenLeavesStaleStore` | src/config/axios.ts:36-42 | after a 403 the store keeps its token while storage no longer mirrors it; the next request has no credential and protected pages redirect to `/auth` |
| `Session.ForbiddenNavigationLandsOnAuth` | src/config/axios.ts:42 | the navigation a 403 starts ends on `/auth` |
| `Session.SuccessfulLogin` | src/store/user.ts:12-18 | a successful complete login sets token and profile, stores the token, survives a restart, and opens protected pages |
| `Session.RejectedLoginChangesNothing` | src/config/axios.ts:28-33 | a login rejected for its business code changes neither store nor storage |
| `Session.FailedLoginChangesNothing` | src/config/axios.ts:43-46 | a transport failure other than 403 changes neither store nor storage |
| `Session.LogoutAlwaysSignsOut` | src/store/user.ts:27-39 | logout signs out whatever the backend answers, 403 included; afterwards requests carry no credential and only public pages open |
| `Session.RegisterKeepsSession` | src/store/user.ts:20-26 | registration never changes the store's fields, and storage changes only by a 403 wipe |
| `Session.FetchUserInfoRefreshesProfile` | src/store/user.ts:44-48 | a delivered profile replaces the profile, leaves the token, and keeps storage mirroring the store |

## Left out

- HTTP transport: the client instance, its `/api` base URL, the 10-second
  timeout and the development proxy. Backend replies are inputs (`Http.Reply`).
- The success business code (`BizErrorCode.SUCCESS`) is defined in a file that
  is not part of this model. It is the `success` parameter of
  `Http.InterceptResponse`, and every property holds for any value of it.
- Toast messages and console logging: they do not affect state.
- Pinia reactivity, lazy view imports and the browser-history object.
- Json.Decode: a stand-in for `JSON.parse` that reads only what
  `Json.Encode` writes. The profile is an object of string members, and only
  `"` and `\` are escaped. Whitespace, numbers, arrays and nested objects are
  not read and are treated as parse errors.
- UserStore.Rehydrate: because of the codec above, start-up fails on stored
  text such as `{"id":1}`, the shape a real profile takes since its `id` is a
  number (src/types/api.ts:16). `JSON.parse` would accept it. The model
  promises the round trip only for what the store itself writes.
- The profile's own fields (`src/types/api.ts`). The store never inspects
  them, so the profile is opaque.
- `File` and `FormData`: the file is its name, and the form is a list of
  fields.
- Concurrency: overlapping logins and last-write-wins. The model is sequential.
- `register` also writes the roles onto the caller's own object. The model
  builds a new payload and leaves out that aliasing effect.
- Http.InterceptResponse: a business rejection carries the reply's code and
  message but not its `data`, whereas the client rejects with the whole body
  (src/config/axios.ts:32). Nothing in the store reads that data.
- Router path matching is exact string equality. Trailing-slash and
  case-insensitive matching, query strings and hashes are not modelled.
- Router.ResolveWithin: redirect chains longer than the table are cut off. The
  table's redirects all target a view, so this never happens.
- Router.Navigate: the `hops` bound stands in for the router's own
  redirect-loop protection. One hop always suffices (`Router.NavigationSettles`).
- The email-code, Google, SSO-handoff and code-exchange flows, the
  registration on/off switch, and redirecting a signed-in user away from
  `/auth`: none of these has code in the modelled files.
