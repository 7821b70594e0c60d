# Venue booking service — a verified Dafny model

This project models the logic core of a small serverless venue-booking application
and proves properties of that model. The core comprises:

- **Connection cache.** The process-wide record `{ conn, promise }` behind
  `connectToDatabase`. It is an Empty / Connecting / Connected state machine. A class
  holds the record, and its methods are proved equal to pure transition functions.
- **Stored-password encoding.** `hash.salt` in hexadecimal, written by the
  registration endpoint and parsed back by the login endpoint. Hex encoding and
  decoding, with Node.js semantics, are written out here.
- **Handler decision chains.** The five serverless handlers: register, login,
  current user, logout and the venue listing. Each is a function from the request, the
  environment, the database's answers and the cryptographic collaborators to a
  response. Registration also has a method over a mutable user collection.
- **Client pieces.**
  - The venue page's filter.
  - The authentication hook's token and cached-user transitions, and its
    `useAuth` guard.
  - The endpoint table with its development-mode URL prefix.

The database, the key-derivation function (scrypt), randomness, the clock and the
JSON Web Token library are parameters:

- **Lookups** are searches over a sequence of documents.
- **A connect or query** that may throw is a `Result`.
- **A freshly generated identifier** is a parameter (`newId`), and so are the salt
  bytes (`salt`) and the creation time (`now`).
- **The KDF** is an arbitrary deterministic function `(password, saltHex) -> 64 bytes`.
- **Signing and verifying** are arbitrary functions. Verification gives `None` where
  `jwt.verify` throws.

Modules, one per source file plus shared ones:

| module | file | models |
|---|---|---|
| `Common` | common.dfy | `Option`, `Result`, JavaScript truthiness of an optional string |
| `Strings` | strings.dfy | `startsWith`, `endsWith`, `includes`, ASCII `toLowerCase`, `split`/`join` on one character |
| `Hex` | hex.dfy | `toString('hex')` and `Buffer.from(s, 'hex')` |
| `Crypto` | crypto.dfy | KDF, `timingSafeEqual`, JWT claims, signer and verifier, the signing secret |
| `Models` | models.dfy | user and venue documents, their public views, `findOne` / `findById` |
| `Http` | http.dfy | requests, responses, bodies, CORS header sets |
| `Db` | db.dfy | `api/_lib/db.js` |
| `Register` | register.dfy | `api/register.js` |
| `Login` | login.dfy | `api/login.js` |
| `CurrentUser` | current_user.dfy | `api/user.js` |
| `Logout` | logout.dfy | `api/logout.js` |
| `Venues` | venues.dfy | `api/venues/index.js` |
| `VenuePage` | venue_page.dfy | `client/src/pages/VenuePage.tsx` (the filter) |
| `UseAuth` | use_auth.dfy | `client/src/hooks/use-auth.tsx` |
| `ApiConfig` | api_config.dfy | `client/src/lib/api-config.ts` |

Some behaviours of the code are easy to miss; the model keeps each of them:

- **Malformed stored hash.** A hash half that does not decode to 64 bytes makes
  `timingSafeEqual` throw. A stored string without `.` makes scrypt throw on an
  `undefined` salt. Either way the login handler answers 500, not 401
  (`Login.MalformedHashThrows`, `Login.MalformedHashIsServerError`).
- **Signing secret.** The login and register handlers sign with
  `JWT_SECRET || 'your-secret-key'`, so an unset secret falls back to a fixed default
  (`Crypto.SigningSecret`, `Crypto.IssueToken`).
- **Splitting the stored string.** The stored string is split on every `.`, and only
  pieces 0 and 1 are used, so later pieces are ignored (`Login.ExtraPiecesIgnored`).
- **CORS policies.** There are four different policies:
  - login and register allow `*` with credentials;
  - the venue listing allows `*` without a credentials header;
  - the current-user handler lists three origins;
  - logout lists four.
- **Logout.** Logout answers 200 to every POST, whatever its headers
  (`Logout.Dispatch`).
- **Venue listing order of checks.** The venue listing connects to the database
  before it checks the method, so an unsupported method gets 500 when the connection
  fails (`Venues.ConnectBeforeMethodCheck`).

## Model

| member | source | states |
|---|---|---|
| `Db.Call` | api/_lib/db.js:9-49 | one call of `connectToDatabase` keeps the record invariant: at most one attempt outstanding, exactly while Connecting; `conn` set only while `promise` is |
| `Db.Settle` | api/_lib/db.js:51-64 | settling the pending attempt (success caches `conn`, failure clears `promise`) keeps the same invariant |
| `Db.CallWhenConnected` | api/_lib/db.js:12-15 | with `conn` set the call returns that handle, starts no attempt and changes nothing |
| `Db.CallWhileConnecting` | api/_lib/db.js:17-52 | while an attempt is pending a call waits on that same attempt and starts no other, whatever `MONGODB_URI` is |
| `Db.MissingUriOnlyWhenEmpty` | api/_lib/db.js:17-34 | the call throws the missing-`MONGODB_URI` error exactly in Empty with the variable unset or empty, and then leaves `conn` and `promise` both null |
| `Db.AttemptStartsOnlyFromEmpty` | api/_lib/db.js:17-49 | a new attempt is created exactly when the record is Empty and the connection string is set; it moves to Connecting and the caller awaits that new attempt |
| `Db.SuccessCaches` | api/_lib/db.js:51-64 | on success `conn` holds the attempt's handle, `promise` is kept, waiting callers get the handle and the next call returns it |
| `Db.FailureAllowsRetry` | api/_lib/db.js:54-61 | on failure the error propagates, `promise` becomes null, `conn` stays null, and the next call starts a different, fresh attempt |
| `Db.RunKeepsInv` | api/_lib/db.js:17-60 | the invariant holds after any sequence of calls and settlements |
| `Db.AtMostOneOutstanding` | api/_lib/db.js:17-49 | from the initial record no interleaving ever has two attempts outstanding, and `conn` set implies `promise` set |
| `Db.ConnectedIsFinal` | api/_lib/db.js:12-15 | once Connected the record never changes again and every later call returns the same handle |
| `Db.ConnectionCache.constructor` | api/_lib/db.js:3-7 | the record starts as `{ conn: null, promise: null }` and satisfies the invariant |
| `Db.ConnectionCache.Connect` | api/_lib/db.js:9-49 | updates the fields and answers exactly as `Db.Call`, keeping the invariant |
| `Db.ConnectionCache.Resolve` | api/_lib/db.js:51-64 | updates the fields and answers exactly as `Db.Settle`, keeping the invariant |
| `Hex.Encode` | api/register.js:10-12 | `toString('hex')` of n bytes is 2n characters, all from `0-9a-f` |
| `Hex.Decode` | api/login.js:11 | `Buffer.from(s, 'hex')` never yields more than half as many bytes as characters |
| `Hex.DecodeEncode` | api/login.js:11 | decoding the hex text of any bytes gives those bytes back |
| `Hex.DotNotInEncode` | api/register.js:10-12 | hex text never contains `.` |
| `Strings.Split` | api/login.js:10 | `split('.')` gives at least one piece and no piece contains the separator |
| `Strings.JoinSplit` | api/login.js:10 | joining the pieces of a split with the separator gives the original string |
| `Strings.SplitJoin` | api/login.js:10 | splitting a join of separator-free pieces gives those pieces |
| `Strings.IncludesAt` | client/src/pages/VenuePage.tsx:48-49 | `includes` holds exactly when the substring occurs at some position |
| `Strings.StartsWith` | api/user.js:72 | `startsWith` holds exactly when the prefix fits and agrees character by character, and then the string is the prefix followed by the rest |
| `Strings.Includes` | client/src/pages/VenuePage.tsx:48-49 | the empty string and any prefix are included, and nothing longer than the string is |
| `Strings.Lower` | client/src/pages/VenuePage.tsx:48-49 | lower-casing keeps the length and lowers each character |
| `Crypto.TimingSafeEqual` | api/login.js:13 | throws exactly when the lengths differ; otherwise true exactly when the bytes are equal |
| `Crypto.SigningSecret` | api/login.js:50 | the secret is `JWT_SECRET` when that is set and non-empty, else `'your-secret-key'` |
| `Crypto.IssueToken` | api/login.js:48-52 | the token is the claims signed for "7d" with `JWT_SECRET` when it is set and non-empty, else with `'your-secret-key'` |
| `Models.IdString` | api/login.js:56 | `_id.toString()` is 24 lower-case hex digits |
| `Models.IdStringInjective` | api/user.js:94 | distinct identifiers have distinct string forms, so a string id names at most one document |
| `Models.FindByUsername` | api/login.js:41 | `findOne({ username })` returns a stored user with that username, or nothing exactly when none has it |
| `Models.FindById` | api/user.js:94 | `findById` returns a stored user whose id has the lower-cased string form of the argument, or nothing exactly when none has |
| `Models.LowerHexUnchanged` | api/user.js:94 | lower-case hex text, such as `_id.toString()`, is unchanged by lower-casing |
| `Models.FindByIdString` | api/user.js:94 | looking up an identifier's own string form finds a user with exactly that identifier, and nothing exactly when none is stored |
| `Models.PublicView` | api/login.js:55-56 | the public record keeps every field but the password, and its `_id` string is 24 lower-case hex digits that decode back to the identifier |
| `Models.FindAppended` | api/register.js:41-55 | after inserting a user under a fresh username, looking that username up finds the new user |
| `Http.ListedCors` | api/user.js:28-39 | the origin is echoed exactly when it is listed; Methods, Headers and Credentials are always set |
| `Register.HashPassword` | api/register.js:9-13 | the stored string is `hex(KDF(password, saltHex)) + "." + saltHex`, with 161 characters, its only `.` at index 128, and a lower-case hex salt |
| `Register.Register` | api/register.js:15-81 | a user is inserted exactly when the answer is 201, and only under a username not already stored |
| `Register.UserCollection.HandleRegister` | api/register.js:15-81 | answers as `Register.Register` and appends exactly the inserted user, if any, to the collection; otherwise the collection is unchanged |
| `Register.MethodGuardsFirst` | api/register.js:22-29 | OPTIONS gets 200 and other non-POST methods 405, independently of the database and store, inserting nothing |
| `Register.ConnectFailureFirst` | api/register.js:31-38 | a failed connect gives 500 with its message before any field is examined |
| `Register.NullBodyIsServerError` | api/register.js:34 | a connected POST without a body throws on destructuring, gives 500 with that message and inserts nothing |
| `Register.MissingFieldRejected` | api/register.js:36-38 | a missing or empty username, password, name or email gives 400 "All fields are required" and inserts nothing |
| `Register.DuplicateRejected` | api/register.js:41-44 | a stored username gives 400 "Username already exists" and inserts nothing |
| `Register.RegisterSucceeds` | api/register.js:47-76 | a valid request inserts exactly the user with the hashed password, and answers 201 with the user minus password, `_id` as a string, and a seven-day token for `{ userId, username }`, with the open CORS headers |
| `Login.ComparePasswords` | api/login.js:9-14 | the comparison succeeds exactly when the split has at least two pieces and the hash decodes to 64 bytes; it is true exactly when the decoded hash equals `KDF(supplied, piece 1)` |
| `Login.ParseStored` | api/login.js:10 | `hash + "." + salt` splits into exactly `[hash, salt]` |
| `Login.ExtraPiecesIgnored` | api/login.js:10 | pieces after the second do not affect the comparison |
| `Login.CompareAgainstHash` | api/login.js:9-14 | against a `hashPassword` output, a supplied password matches exactly when it derives the same key with that salt |
| `Login.PasswordRoundTrip` | api/login.js:9-14 | a password always matches its own `hashPassword` encoding, for every salt and deterministic KDF |
| `Login.MalformedHashThrows` | api/login.js:11-13 | a hash half that does not decode to 64 bytes makes the comparison throw |
| `Login.Login` | api/login.js:16-66 | every answer carries the open CORS headers and is one of 200, 400, 401, 405, 500 |
| `Login.MethodGuardsFirst` | api/login.js:23-30 | OPTIONS gets 200 and other non-POST methods 405, independently of the database and store |
| `Login.MissingFieldRejected` | api/login.js:37-39 | a missing or empty username or password gives 400 "Username and password are required" |
| `Login.ConnectFailureFirst` | api/login.js:32-33 | a POST whose connect fails gives 500 with the thrown message before the body is read |
| `Login.NullBodyIsServerError` | api/login.js:35 | a connected POST without a body throws on destructuring and gives 500 with that message |
| `Login.UnknownUserRejected` | api/login.js:41-45 | for any POST carrying the credentials, an unknown username gives 401 "Invalid credentials" whatever the KDF, so no key is derived |
| `Login.WrongPasswordRejected` | api/login.js:41-45 | for any POST carrying the credentials, a failed comparison gives the identical 401 "Invalid credentials" |
| `Login.LoginSucceeds` | api/login.js:47-61 | for any POST carrying the credentials, a match gives 200 with the stored record minus password, `_id` as a string, and a seven-day token for `{ userId, username }` |
| `Login.MalformedHashIsServerError` | api/login.js:41-65 | for any POST carrying the credentials, a comparison that throws gives 500 "Internal server error" with the thrown message, not 401 |
| `Login.LoginAfterRegister` | api/login.js:41-61 | for any registration request with all four fields and any login requests carrying the same username, after the registration logging in with the registered password succeeds with the registered user, and any password succeeds exactly when it derives the same key |
| `CurrentUser.VerifyToken` | api/user.js:5-17 | never throws; no claims when `JWT_SECRET` is unset or empty, else exactly what `jwt.verify` decodes with that secret (nothing where it throws) |
| `CurrentUser.BearerToken` | api/user.js:72-77 | a token exists exactly for a present header starting with `"Bearer "`, and the header is `"Bearer "` followed by the token |
| `CurrentUser.BearerRoundTrip` | api/user.js:77 | the header `"Bearer " + t` yields the token `t` |
| `CurrentUser.Handle` | api/user.js:19-118 | every answer carries the allow-list CORS headers for the request's origin |
| `CurrentUser.GuardOrder` | api/user.js:41-66 | OPTIONS 200; else non-GET 405; else unset `MONGODB_URI` 500 "Database connection not configured"; else unset `JWT_SECRET` 500 "Authentication not configured" |
| `CurrentUser.MissingBearerRejected` | api/user.js:72-75 | a missing header, or one not starting with `"Bearer "`, gives 401 "No token provided" |
| `CurrentUser.RejectedTokenRejected` | api/user.js:80-85 | a token the verifier rejects gives 401 "Invalid token" |
| `CurrentUser.UnauthorizedTouchesNoDatabase` | api/user.js:72-90 | a 401 answer is the same whatever the connection and the stored users |
| `CurrentUser.LookupOutcome` | api/user.js:90-104 | after a decoded token: a failed connect gives 500, a lookup miss 404, a hit 200 with the found record minus password |
| `CurrentUser.StoredIdAnswered` | api/user.js:94-104 | a decoded token whose id, lower-cased, is a stored user's id is answered 200, once connected, with a user of that id |
| `CurrentUser.IssuedIdAnswered` | api/user.js:94-104 | a decoded token carrying a stored user's `_id.toString()`, as login and register issue it, is answered 200 with a user of exactly that id |
| `CurrentUser.FoundUserIsStoredUser` | api/user.js:94-104 | a 200 body is a stored user with the token's id (lower-cased), minus password, `_id` as a string |
| `CurrentUser.OriginEchoedIffListed` | api/user.js:28-36 | `Access-Control-Allow-Origin` is the request's origin exactly when it is one of the three listed |
| `Logout.Handle` | api/logout.js:1-38 | the headers are the allow-list CORS set, and the status is 200 exactly for OPTIONS and POST |
| `Logout.CorsHeaders` | api/logout.js:10-24 | the origin is echoed exactly when it is one of the four listed, else absent; Methods, Headers and Credentials are always set |
| `Logout.Dispatch` | api/logout.js:26-37 | OPTIONS gets 200 with an empty body; other non-POST methods 405 "Method not allowed"; every POST "Logged out successfully" whatever its headers and body |
| `Venues.WithStringIds` | api/venues/index.js:22-25 | the output has the input's length and order; each element has the same fields and `_id` as its string form |
| `Venues.Handle` | api/venues/index.js:4-35 | every answer carries the venue CORS headers |
| `Venues.PreflightWithoutDatabase` | api/venues/index.js:10-13 | OPTIONS gets 200 with no body whatever the connection and the query give |
| `Venues.ConnectBeforeMethodCheck` | api/venues/index.js:15-30 | a method other than GET and OPTIONS gets 405 if the connect succeeds, else 500 |
| `Venues.ErrorsGive500` | api/venues/index.js:31-34 | a thrown connect or query gives 500 "Internal server error" with the thrown message |
| `Venues.ListingPreservesVenues` | api/venues/index.js:18-27 | a GET answers 200 with every fetched venue, in order, unchanged except `_id` as a string |
| `VenuePage.FilterList` | client/src/pages/VenuePage.tsx:40-53 | the result is an order-preserving subsequence; every kept venue meets all four conditions; every venue meeting them is kept; each venue occurs as often as in the input if it matches, else not at all |
| `VenuePage.FilteredVenues` | client/src/pages/VenuePage.tsx:53 | undefined `venues` gives the empty list |
| `VenuePage.Matches` | client/src/pages/VenuePage.tsx:40-52 | a kept venue lies in both inclusive ranges, has the chosen category unless it is "all", and contains the query in name or address unless it is empty; under the initial filters only the two ranges count |
| `VenuePage.KeptIffMatches` | client/src/pages/VenuePage.tsx:40-52 | a venue is kept exactly when capacity, price, category and search all hold |
| `VenuePage.AllCategoriesUnrestricted` | client/src/pages/VenuePage.tsx:45-46 | category "all" makes the result independent of `categorizeVenue` |
| `VenuePage.SearchMeaning` | client/src/pages/VenuePage.tsx:47-50 | an empty query imposes no restriction; otherwise the lower-cased query must occur in the lower-cased name or address |
| `VenuePage.SearchIgnoresQueryCase` | client/src/pages/VenuePage.tsx:47-50 | the query is compared case-insensitively: lowering it first changes nothing |
| `VenuePage.DefaultFiltersKeep` | client/src/pages/VenuePage.tsx:12-52 | under the initial filters a venue is kept exactly when 0 ≤ capacity ≤ 3000 and 0 ≤ price ≤ 1000000 |
| `UseAuth.SuccessStoresSession` | client/src/hooks/use-auth.tsx:42-69 | login success and register success both store the answered token and cache the answered user |
| `UseAuth.FailureChangesNothing` | client/src/hooks/use-auth.tsx:51-81 | a login error or register error leaves token and user unchanged |
| `UseAuth.LogoutSignsOut` | client/src/hooks/use-auth.tsx:88-105 | logout success and logout error both end with no token and a null user; repeating logout changes nothing |
| `UseAuth.Apply` | client/src/hooks/use-auth.tsx:42-105 | a success stores the answered token and exposes the answered user; a failure changes nothing; logout of either outcome leaves no token and a null user |
| `UseAuth.ExposedUser` | client/src/hooks/use-auth.tsx:111 | `user ?? null` exposes a user exactly when the query has one |
| `UseAuth.UseAuth` | client/src/hooks/use-auth.tsx:124-129 | throws "useAuth must be used within an AuthProvider" exactly without a provider, else gives the context |
| `UseAuth.ContextUser` | client/src/hooks/use-auth.tsx:108-121 | inside a provider the hook succeeds, and the user is null while the query data is undefined or null |
| `UseAuth.AuthSession.constructor` | client/src/hooks/use-auth.tsx:27-34 | a session starts with the token the browser kept and no user fetched |
| `UseAuth.AuthSession.OnLoginSuccess` | client/src/hooks/use-auth.tsx:42-50 | stores the token and caches the user, as `Apply` of a login success |
| `UseAuth.AuthSession.OnLoginError` | client/src/hooks/use-auth.tsx:51-57 | changes neither token nor user |
| `UseAuth.AuthSession.OnRegisterSuccess` | client/src/hooks/use-auth.tsx:66-74 | stores the token and caches the user, as `Apply` of a register success |
| `UseAuth.AuthSession.OnRegisterError` | client/src/hooks/use-auth.tsx:75-81 | changes neither token nor user |
| `UseAuth.AuthSession.OnLogoutSuccess` | client/src/hooks/use-auth.tsx:88-96 | removes the token and sets the cached user to null |
| `UseAuth.AuthSession.OnLogoutError` | client/src/hooks/use-auth.tsx:97-105 | removes the token and sets the cached user to null, as on success |
| `ApiConfig.ApiBaseUrl` | client/src/lib/api-config.ts:3-9 | in development the base is `http://localhost:5000`, in production empty, so URLs are relative |
| `ApiConfig.VenueById` | client/src/lib/api-config.ts:21 | `VENUE_BY_ID(id)` is `VENUES + "/" + id` |
| `ApiConfig.GetApiUrl` | client/src/lib/api-config.ts:25-30 | in development `"http://localhost:5000" + e`, in production `e`; always ends with `e` |
| `ApiConfig.EndpointsWellFormed` | client/src/lib/api-config.ts:12-22 | the endpoint constants are pairwise distinct and all start with `/api/` |
| `ApiConfig.VenueByIdUnderVenues` | client/src/lib/api-config.ts:14-21 | every venue URL lies under `/api/venues/` and is none of the fixed endpoints |

## Left out

- Logging (`console.log` / `console.error`) is not modelled. For `api/user.js`, this includes the `timestamp` field of its 500 body, which `Http.Failure` does not carry.
- Clocks and randomness are parameters:
  - the `createdAt` date of a new user (`now`);
  - the 16 random salt bytes (`salt`);
  - the database-assigned `_id` (`newId`).
- The cryptographic primitives are uninterpreted functions: scrypt, JWT signing and verification, and token expiry. Constant-time behaviour, collision resistance and signature security are not modelled.
- Mongoose and MongoDB:
  - Queries are lookups over a sequence of documents.
  - A query that throws is modelled only for the venue listing's `find`, as a `Result`. The user lookups and `save` are taken to succeed.
  - A `findById` whose id is not a valid ObjectId throws a cast error in the source. Here it is a lookup miss, answered 404 instead of 500.
  - Schema validation, the unique index on `username`, the `__v` field and `.lean()` are not modelled.
- Asynchrony in `api/_lib/db.js` becomes explicit steps. The awaited promise is the Connecting state, and its settlement is a separate `Settle`/`Resolve` step. The event loop itself and any interleaving inside a handler are not modelled.
- Request bodies:
  - Body fields are strings. Non-string JSON values and their truthiness are not modelled.
  - A `null` body is `None` and makes the destructuring throw, giving 500. An `undefined` body is not distinguished from `null`. The texts of library and engine errors are fixed constants.
- Capacity and price are integers, not JavaScript numbers. `Number(venue.price)` is the price itself. `toLowerCase` is ASCII-only.
- `categorizeVenue` is not part of this model. It is an arbitrary function from price to category name.
- The React side is not modelled: rendering, loading and error flags, the mutations' network requests, the toasts, and react-query's own refetching of the current user. The session's state changes only through the six success and error callbacks. `localStorage` is a plain field.
- `ENV` and `API_CONFIG` in `client/src/lib/api-config.ts` are not modelled. They are constants that nothing in the core reads. `import.meta.env.DEV` is a boolean parameter.
- `api/venues/[id].js` and `api/_lib/models.js` are not part of this model beyond the document field lists.
- `Hex.Decode`: its own contract is only a length bound. Its exact behaviour is stated through `Hex.DecodeEncode` (on hex text) and through `Login.ComparePasswords` (on stored strings).
- `Login.Login`: its own contract states only the headers and the set of possible statuses. Its decisions are stated by the `Login` lemmas in the table: the method guards, a failed connect, a missing body, missing fields, an unknown user, a wrong password, a comparison that throws, and success.
- `Models.FindById`: a 24-digit hex id is matched in either case, and any other string finds nothing. The cast in the source also accepts a 12-character string as raw bytes, and throws on other strings (500, not 404); neither is modelled.
