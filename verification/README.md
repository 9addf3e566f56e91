# Account and session state machine of a user-authentication backend

This project models the core of an Express/Mongoose backend's user accounts:
registration, login, logout, access-token refresh, and the `verifyJWT` guard that
protects routes. The store is a map from user id to user document. Every request
handler is a pure function from a store and a request to a new store and a result
(`Ok` or `Err(kind, status, message)`).

Cryptography is abstract. Token signing and verification (jsonwebtoken), the
parsing of `expiresIn` strings (ms) and password hashing (bcrypt) are fields of a
`Primitives` value passed in from outside. The ghost predicate `Crypto.Lawful`
lists the only facts the backend relies on:

- a token verifies under its own secret to the payload it was signed with;
- a token never verifies under any other secret;
- tokens and hashes are never empty;
- `compare(p, hash(p, salt))` holds;
- "15m" is 900 seconds and "7d" is 604800 seconds.

Tokens carry `{ id }` plus the `iat` and `exp` seconds that jsonwebtoken adds.
The clock is the parameter `now`.

Modules, following the source:

- `Outcomes`: options, error kinds, results.
- `Text`: JavaScript's `trim`, `toLowerCase` and first-occurrence `replace`.
- `Crypto`: the primitives and their laws.
- `UserModel`: `src/models/user.model.js`. Schema setters, required and unique paths, the pre-save rehash guard, `isPasswordCorrect` and the two token generators. Also the store and its invariant `Consistent`.
- `UserController`: `src/controllers/user.controller.js`.
- `AuthMiddleware`: `src/middlewares/auth.middleware.js`.
- `SessionProperties`: properties that span several operations.
- `Scenario`: one complete session.
- `RefreshFindings`: the refresh handler with the names it actually uses.

The refresh handler in src/controllers/user.controller.js does not run as written:

- Its arrow function closes at line 176. That leaves the `return` at line 203 outside any function. In an ES module this is a syntax error, so the controller file does not load, and none of its four handlers exists.
- Line 186 calls `awaitUser.findById(decodedToken?._id)`. `awaitUser` is an undefined name: it throws a ReferenceError, which line 216 turns into 401 "awaitUser is not defined". Read as `await User.findById`, the lookup still finds nothing, because the payload key is `id`, not `_id`.
- Line 201 destructures `newrefreshToken`, which the token issuer never returns.

Register, Login and Logout are modelled as the code would behave once the file parses.

`UserController.RefreshFlow` places lines 177-213 inside the handler and reads `awaitUser.findById` as `await User.findById`. It takes the two property names as parameters. `UserController.RefreshAccessToken` is the intended handler: it reads `id` and `refreshToken`. `RefreshFindings` holds the flow with the names as written.

Some outcomes of the code, stated plainly:

- An unknown user at login is rejected with status 400 (src/controllers/user.controller.js:107).
- An absent register field passes the blank check, because `undefined?.trim() === ""` is false (src/controllers/user.controller.js:46).
- A failed avatar upload makes `avatar.url` throw a `TypeError`, reported as 500 (src/controllers/user.controller.js:74).
- In refresh, a failure to issue tokens is caught and rethrown as 401, with its message kept (src/controllers/user.controller.js:215-216).

## Model

| member | source | states |
|---|---|---|
| Text.BlankIffAllSpace | src/controllers/user.controller.js:46 | a present field is rejected as blank exactly when it consists only of white space |
| Text.NormalizeIsNormal | src/models/user.model.js:7-21 | what a `lowercase: true, trim: true` path stores has no upper-case letter and no white space at either end |
| Text.NormalizeIdempotent | src/models/user.model.js:7-21 | applying the lowercase and trim setters to an already stored value changes nothing |
| Text.NormalizeNonEmpty | src/models/user.model.js:7-21 | a value that is not all white space keeps a non-empty value after the lowercase and trim setters |
| Text.ReplaceFirstAt | src/middlewares/auth.middleware.js:11 | `replace` with a string pattern cuts out the first occurrence, keeping what precedes and follows it |
| Crypto.SignVerifyRoundTrip | src/models/user.model.js:66-77 | a signed token verifies, until `exp`, to the id it was signed for with its issue and expiry times |
| Crypto.ExpiredTokenRejected | src/models/user.model.js:68-70 | once `iat` plus the lifetime has passed, the token no longer verifies |
| Crypto.OtherSecretRejected | src/models/user.model.js:67-77 | a token signed under one secret does not verify under a different one |
| UserModel.FindOne | src/controllers/user.controller.js:50-52 | `findOne({$or:[{username},{email}]})` finds a user exactly when one matches either field; it returns the first match in insertion order |
| UserModel.Save | src/models/user.model.js:55-59 | a save changes nothing but the password; a new document or a different assigned password is stored as its hash; an unchanged password is kept as it was |
| UserModel.IsPasswordCorrect | src/models/user.model.js:62-64 | a password is accepted against any stored hash that was made from it |
| UserModel.GenerateAccessToken | src/models/user.model.js:67-71 | an access token is produced exactly when the access secret is set and its lifetime setting (default "15m") parses; it carries the user's id, its issue time, and the issue time plus that lifetime as expiry, under the access secret |
| UserModel.GenerateRefreshToken | src/models/user.model.js:73-77 | a refresh token is produced exactly when the refresh secret is set and its lifetime setting (default "7d") parses; it carries the user's id, its issue time and its expiry, under the refresh secret |
| UserModel.SavedPasswordIsCorrect | src/models/user.model.js:62-64 | after a save hashed a password, `isPasswordCorrect` accepts that password |
| UserModel.DefaultLifetimes | src/models/user.model.js:67-77 | with the expiry settings unset, access tokens expire 900 s and refresh tokens 604800 s after issue |
| UserModel.TokensAreNotInterchangeable | src/models/user.model.js:67-77 | with distinct secrets, a refresh token is not a valid access token and an access token is not a valid refresh token |
| UserModel.Create | src/models/user.model.js:7-44 | creation stores normalised username and email, trimmed fullname and the password hash; it succeeds exactly when every required path is present and non-empty after the setters and neither the username nor the email is already held; every failure is 500 and leaves the store alone |
| UserModel.CreateKeepsConsistent | src/models/user.model.js:7-31 | creation keeps every stored document well formed and keeps usernames and emails unique |
| UserController.GenerateTokens | src/controllers/user.controller.js:7-30 | issuance succeeds exactly when the user exists and both tokens can be signed; the stored refresh token becomes exactly the returned one and nothing else changes; any failure is 500 and leaves the store alone |
| UserController.Register | src/controllers/user.controller.js:32-89 | rejection order is blank field (400), then existing username or email (409), then missing avatar (400); a failure leaves the store unchanged; success adds exactly one record (lower-cased username, cover image "" without an upload) and returns it without password or refresh token |
| UserController.RegisterSucceeds | src/controllers/user.controller.js:43-84 | a request with all four fields present and not blank, no exact match on username or email, an avatar file and an avatar URL, whose normalised username and email no document holds, is accepted |
| UserController.Login | src/controllers/user.controller.js:92-145 | rejection order is no identifier (400), then no matching user (400), then wrong password (401); tokens are issued exactly when all three checks pass, and the login succeeds whenever issuance does; the user is returned without secrets |
| UserController.Logout | src/controllers/user.controller.js:147-172 | logout always succeeds; it unsets the user's stored refresh token and changes no other user or field |
| UserController.RefreshFlow | src/controllers/user.controller.js:177-217 | every failure of the refresh flow is 401 and leaves the store alone; success requires a presented token that verifies and whose payload names an id |
| UserController.RefreshAccessToken | src/controllers/user.controller.js:174-217 | no token gives 401; a verified token that differs from the stored one gives 401 "expired or used"; a presented token that verifies, names a stored user and equals that user's stored refresh token is accepted whenever issuance succeeds; success issues a new pair, stores its refresh token and returns that token |
| AuthMiddleware.ExtractToken | src/middlewares/auth.middleware.js:9-11 | a truthy cookie is the token; otherwise there is a token exactly when there is an Authorization header, and it differs from the header exactly when the header contains "Bearer " |
| AuthMiddleware.VerifyJwt | src/middlewares/auth.middleware.js:6-36 | the guard accepts exactly a truthy token that verifies under the access secret and names a stored user; it then returns that user without secrets; every failure is 401, with the verifier's message kept when there is one |
| AuthMiddleware.BearerHeaderYieldsToken | src/middlewares/auth.middleware.js:9-11 | without a truthy cookie, the header `Bearer <t>` yields `t` |
| AuthMiddleware.PlainHeaderIsToken | src/middlewares/auth.middleware.js:9-11 | a header that does not contain "Bearer " is used whole as the token |
| AuthMiddleware.BearerRemovedAnywhere | src/middlewares/auth.middleware.js:11 | the first "Bearer " is removed wherever it stands, so text before it stays in the token; this is not a prefix strip |
| AuthMiddleware.MissingTokenRejected | src/middlewares/auth.middleware.js:13-15 | no header, or a bare "Bearer " header, is refused with 401 "Unauthorized request" before any verification |
| SessionProperties.GenerateTokensKeepsConsistent | src/controllers/user.controller.js:22-23 | storing a refresh token keeps the store invariant |
| SessionProperties.RegisterKeepsConsistent | src/controllers/user.controller.js:72-79 | registration keeps usernames and emails unique and every record well formed |
| SessionProperties.LoginKeepsConsistent | src/controllers/user.controller.js:117-119 | login keeps the store invariant |
| SessionProperties.LogoutKeepsConsistent | src/controllers/user.controller.js:149-155 | logout keeps the store invariant |
| SessionProperties.RefreshKeepsConsistent | src/controllers/user.controller.js:201 | refresh keeps the store invariant |
| SessionProperties.IssuedAccessTokenAuthenticates | src/middlewares/auth.middleware.js:18-30 | round trip: an access token issued for a user, presented before expiry, makes the guard return that user without secrets |
| SessionProperties.RefreshTokenRejectedByGuard | src/middlewares/auth.middleware.js:18 | with distinct secrets, the guard refuses a refresh token |
| SessionProperties.AccessTokenOutlivesLogout | src/controllers/user.controller.js:147-155 | logout does not revoke access tokens: one issued before it still authenticates until it expires |
| SessionProperties.CurrentRefreshTokenAccepted | src/controllers/user.controller.js:181-201 | a refresh token that was just issued and stored is accepted before it expires |
| SessionProperties.AtMostOneLiveRefreshToken | src/controllers/user.controller.js:192-194 | two refreshes for the same user against the same store succeed only with the same token |
| SessionProperties.OnlyLatestRefreshTokenPasses | src/controllers/user.controller.js:22 | after an issuance, only the newly issued refresh token passes a refresh for that user |
| SessionProperties.UsedRefreshTokenRejected | src/controllers/user.controller.js:192-194 | a refresh token used in a successful refresh is refused afterwards, provided it was issued in an earlier second |
| SessionProperties.SameSecondIssuanceRepeatsToken | src/models/user.model.js:73-77 | two issuances for one user in the same second produce the same refresh token, so the first is not superseded |
| SessionProperties.LogoutRevokesRefresh | src/controllers/user.controller.js:149-155 | after logout, no refresh for that user succeeds, whatever token is presented |
| SessionProperties.RegisteredUserCanLogIn | src/controllers/user.controller.js:96-119 | a user who registered can log in with the stored username and their password, and gets back the record registration returned |
| Scenario.AliceRegisters | src/controllers/user.controller.js:72-84 | registering alice on an empty store leaves a store holding exactly her record under id 0, with her password hashed, and returns that record without password or refresh token |
| Scenario.AliceLogsIn | src/controllers/user.controller.js:110-119 | on the store registration left, a wrong password is refused with 401; the right one logs alice in, returns her registered record, and stores a refresh token that expires 7 days after the login |
| Scenario.AliceSession | src/controllers/user.controller.js:177-201 | alice's refresh token is accepted once and refused when replayed |
| Scenario.IssuedRefreshTokenRotates | src/controllers/user.controller.js:192-201 | a refresh token issued at `t0` is accepted at a later `t1` and refused after that refresh |
| Scenario.LoginRefreshTokenRotates | src/controllers/user.controller.js:119 | the refresh token a login returns is accepted once and then refused |
| RefreshFindings.RefreshAsWritten | src/controllers/user.controller.js:186 | reading `_id` from the payload makes every refresh fail with 401 and leave the store alone |
| RefreshFindings.CurrentTokenRefusedAsWritten | src/controllers/user.controller.js:186 | the refresh token a login just stored is accepted by the intended handler and refused as written |
| RefreshFindings.RotatedTokenWithheldAsWritten | src/controllers/user.controller.js:201 | as written, a successful refresh stores a new refresh token but returns none |
| RefreshFindings.RotatedTokenReturned | src/controllers/user.controller.js:201-210 | the corrected handler returns exactly the refresh token it stored |

## Left out

- HTTP plumbing is not modelled: routing, cookie options, the `ApiResponse`/`ApiError` envelopes and the 201 status of registration. Results are `Ok` or `Err(kind, status, message)`, and the values a handler sets as cookies equal the ones it returns.
- `asyncHandler` is not part of this model. An exception that is not an `ApiError` is assumed to reach the client as status 500. Such exceptions are the `TypeError` on a missing upload or username, bcrypt's missing-argument error, and Mongoose's validation and duplicate-key errors.
- Image uploads (`uploadOnCloudinary`) are external I/O. Their outcome is an input: an optional URL.
- Inside jsonwebtoken, ms and bcrypt, only the laws in `Crypto.Lawful` are assumed. HMAC, salting and clock tolerance are left out. So is bcrypt's 72-byte truncation, and so is any promise that a wrong password fails to match: the scenario takes that as a premise.
- Mongoose query semantics are left out. Lookups match exactly, and an absent field matches no document. Case-insensitive matching through setters on queries is not modelled, and neither is the stripping of `undefined` filter keys. The schema's unique indexes appear only as the duplicate-key failure of `UserModel.Create`.
- `UserController.Logout` follows `$set: { refreshToken: undefined }` as unsetting the field. Mongoose 7 and later drop `undefined` keys from updates, which would make logout a no-op. The Mongoose version is not part of this model.
- Store failures are not modelled: a write that cannot be committed, and the 500 responses of logout and of the post-create lookup at line 82.
- Concurrency is not modelled. The read-compare-write on the stored refresh token is a single step here.
- `Text.Lower` maps only ASCII letters; JavaScript's `toLowerCase` covers all of Unicode. Request fields are strings or absent. A non-string field, which would make `.trim` throw, is not modelled.
- Logging, `watchHistory` and the timestamps do not affect behaviour.
- SessionProperties.UsedRefreshTokenRejected: states rotation only when the refresh happens in a later second than the token's issue. Two issuances in the same second give identical tokens (see `SessionProperties.SameSecondIssuanceRepeatsToken`).

## Findings

The refresh handler at src/controllers/user.controller.js:174-176 closes before its logic. The `return` at line 203 then stands outside any function, which is a syntax error in an ES module, so the file does not load. The model places lines 177-213 inside the handler and reads `awaitUser.findById` as `await User.findById`. The two rows below concern that placed code.

| source | as written | input that shows it | evidently intended | confidence | as-written member | corrected member |
|---|---|---|---|---|---|---|
| src/controllers/user.controller.js:186 | the user is looked up by `decodedToken?._id`; the payload key is `id`, so even with `awaitUser` read as `await User` the lookup finds nothing; taken literally, the undefined `awaitUser` throws first, giving 401 "awaitUser is not defined" | the refresh token a login just stored, presented before it expires | look the user up by `decodedToken.id` | high; not executed | RefreshFindings.CurrentTokenRefusedAsWritten | SessionProperties.CurrentRefreshTokenAccepted |
| src/controllers/user.controller.js:201 | destructures `newrefreshToken` from `{ accessToken, refreshToken }`, so the response body's refresh token is undefined (and the cookie is set to the string "undefined") while the store holds a new token | any refresh that passes the comparison | destructure `refreshToken` and return it | high; not executed | RefreshFindings.RotatedTokenWithheldAsWritten | RefreshFindings.RotatedTokenReturned |
