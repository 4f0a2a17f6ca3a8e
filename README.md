# The Good Network user service: authentication core in Dafny

This project models the authentication core of the Express user service of
The Good Network and proves properties about it. It covers these parts:

- **Six-digit reset codes.** A code is drawn, rendered as text and later checked against a clock.
- **JSON Web Tokens.** There are two kinds: one-hour access tokens signed with `JWT_SECRET`, and thirty-day refresh tokens signed with `REFRESH_TOKEN_SECRET`.
- **The authentication middleware.** It accepts an access token from the `Authorization` header and otherwise tries to rotate the `refreshToken` cookie.
- **Two gates.** The role gate and the admin gate run after authentication.
- **The `reset_code` table.** It holds a user's pending reset codes, one row per issued code.
- **The handlers.** These cover signup, login, forgot password, verify reset code, reset password, logout, token refresh and the caller's own profile.

The model is written in two styles, following the source:

- **Pure parts are functions with lemmas.** This covers code generation, code validation and the token helpers.
- **Stateful parts are classes and methods.** The database (`Store.Database`), the request and the response (`Http.Request`, `Http.Response`) are classes whose fields the methods update. Each middleware and handler is a method, and its `ensures` states the full new state of the response, the request and the database on every branch.

Signing is abstract. A token is the set of claims `jsonwebtoken` would put in it (`id`, `iat`, `exp`) plus the secret that signed it. Its text form is a dot-separated decimal encoding, and `Jwt.DecodeEncode` and `Jwt.EncodeDecode` prove that this encoding is an exact inverse pair.

Time handling follows the library:

- The clock (`Date.now()`) is a parameter `now` in milliseconds.
- `iat` is `now / 1000`.
- A token verifies while `now / 1000 < exp`, as section 4.1.4 of RFC 7519 describes the `exp` claim.

Randomness, the mailer's reply and store availability are parameters too:

- `crypto.randomInt` becomes the `draw` parameter.
- The forgot-password mailer's reply becomes `mailStatus`.
- Whether the store answers during a request is `Database.reachable`.
- What an insert without `.select()` hands back is `Database.insertReturnsRows`. One client version returns `null`, the other the array of inserted rows.

## Behaviour as written

The model follows the code, including where it departs from what its comments and documentation promise. Each point below is proved in the model:

- **Stored reset codes never validate.**
  - `insertResetCode` stores the expiry as ISO-8601 text (src/models/authModel.js:12).
  - `validateResetCode` compares the millisecond clock with it (src/utils/utils.js:20). In JavaScript, `number < string` converts the text to NaN, so the comparison is false.
  - `AuthModel.StoredRowNeverValidates` proves that a stored code is never accepted. `AuthModel.NumericExpiryWindow` proves the five-minute window that a numeric expiry would have given.
- **Token refresh through `/auth/refresh` never succeeds.**
  - `refreshTokens` passes the decoded verification object, not the cookie text, to `refreshAllTokens` (src/controllers/authController.js:287-289). `jwt.verify` rejects a non-string token, so the call yields `null`.
  - Destructuring `null` throws, and the handler answers 500 (`AuthController.RefreshTokens`, `Jwt.NonTextNeverVerifies`).
- **A rotated access token carries no lifetime.**
  - `refreshAllTokens` mints the new access token without an `expiresIn` (src/utils/jwtUtils.js:58). What the signer does then is the parameter `Config.implicitLifetime`.
  - `Jwt.RotatedAccessTokenLifetime` gives the consequence: when that lifetime is zero, the authentication middleware throws after writing the new cookie and header.
- **Signup never issues tokens for the new user.**
  - `createUser` returns the `data` of an insert without `.select()` (src/models/userModel.js:12-19). That value is `null` or an array of rows, never the record.
  - With `null`, reading `user.id` (src/controllers/authController.js:51) throws after the record is stored, and the answer is 500.
  - With an array, `user.id` is `undefined`. Both tokens are signed without an id, and the 201 body carries the array.
  - `AuthController.SignupUser` states both cases. `AuthController.SignupHeaderCarriesNoId` proves that the signup header authenticates but names no user.
- **A refresh cookie that does not verify throws instead of answering 403.** The middleware only answers 403 when there is no truthy cookie at all (`AuthMiddleware.Authenticate`).
- **The reset token is an ordinary access token.** It is signed by `generateToken(userID, "10m")`. It therefore authenticates in the header (`AuthController.ResetTokenAuthenticates`). Any unexpired access token from a login is accepted as a reset token (`AuthController.AccessTokenResetsPassword`).
- **The scheme word of `Authorization` is never checked.** Whatever follows the token after a space, including more words or doubled spaces, is ignored (`Http.AnySchemeAccepted`, `Http.TrailingWordsIgnored`).
- **Reset codes are appended, never replaced.** After a second forgot-password request, `.single()` fails for that user (`Store.SecondRowBreaksSingle`).
- **The user and reset-code models the handlers call are missing or empty.**
  - `authModel.getResetCode` and `authModel.deleteResetCode` are not defined in src/models/authModel.js.
  - `userModel.findUserByEmailWithPassword` and `userModel.updatePassword` are not defined in src/models/userModel.js.
  - As written, each call to a missing function throws and its handler answers 500.
  - `findUserByEmail`, `findUserById` and `updateUser` are empty stubs (src/models/userModel.js:22-24) that resolve to `undefined`. As written, every lookup finds nobody.
  - In particular, `userController.resetPassword` updates the password through `updateUser` (src/controllers/userController.js:127-129). As written that changes nothing, yet the handler still answers 200 "Password reset successfully".
  - The model gives all of these the meaning their names and their callers imply:
    - `GetResetCode` and `DeleteResetCode` are the two halves of `getAndDeleteResetCode`.
    - The lookups read the `user-service` table.
    - Both password updates, `updatePassword` and `updateUser(id, { password })`, store the digest (`Store.WithPassword`). `Store.ResetPasswordTakesEffect` proves that afterwards only the new password is accepted.

## Model

| member | source | states |
|---|---|---|
| Text.Split | src/middleware/authMiddleware.js:17 | `split(" ")` yields at least one part and no part contains the separator |
| Text.SplitJoin | src/middleware/authMiddleware.js:17 | splitting the join of separator-free words gives the words back |
| Text.JoinSplit | src/middleware/authMiddleware.js:17 | joining the parts of a split gives the text back |
| Text.ParseDecimalOfDecimal | src/utils/utils.js:8 | `toString()` of a number reads back as that number |
| Text.DecimalOfDigitsValue | src/utils/utils.js:8 | a canonical digit string is the rendering of the number it denotes |
| Text.DecimalLength | src/utils/utils.js:8 | numbers in [10^(k-1), 10^k) render with exactly k digits |
| ResetCode.GenerateResetCode | src/utils/utils.js:7-9 | the code has six digits without a leading zero and denotes the random draw in [100000, 1000000) |
| ResetCode.EveryResetCodeIsGenerated | src/utils/utils.js:7-9 | every six-digit code without a leading zero comes from exactly one admissible draw |
| ResetCode.NumberLessThan | src/utils/utils.js:20 | JavaScript's `currentTime < expirationTime`: true only for a numeric expiry the clock has not reached; an ISO-text expiry compares as NaN and gives false |
| ResetCode.ValidateResetCode | src/utils/utils.js:18-21 | valid iff the codes are strictly equal and the clock is before a numeric expiry; never valid against an ISO-text expiry |
| ResetCode.RejectedAtExpiry | src/utils/utils.js:20 | the comparison is strict: at the expiry instant the code is rejected |
| ResetCode.MismatchRejected | src/utils/utils.js:20 | a different code is rejected at any time |
| ResetCode.ValidityOnlyExpires | src/utils/utils.js:18-21 | a code valid at some time was valid at every earlier time |
| Jwt.DecodeEncode | src/utils/jwtUtils.js:9-11 | decoding a signed token gives back its claims and signing secret |
| Jwt.EncodeDecode | src/utils/jwtUtils.js:29-37 | a token text that decodes is the encoding of what it decodes to |
| Jwt.EncodeIsWord | src/controllers/authController.js:62 | a token is a non-empty word without spaces, so it survives the `Bearer` header |
| Jwt.Sign | src/utils/jwtUtils.js:9-11 | the signed token holds `id`, `iat` = clock in seconds, `exp` = `iat` + lifetime and the signing secret |
| Jwt.Expiry | src/utils/jwtUtils.js:10 | `exp` is `iat` plus the `expiresIn` seconds; with `expiresIn` undefined it is absent iff the signer adds no default; never before `iat` |
| Jwt.Unexpired | src/utils/jwtUtils.js:36 | a token without `exp` never expires; otherwise it is live iff the millisecond clock is before `exp` seconds |
| Jwt.JwtVerify | src/utils/jwtUtils.js:36 | the claims exactly when the argument is text that decodes to a token signed with that secret and unexpired; `null` for any non-text argument |
| Jwt.SecretFor | src/utils/jwtUtils.js:31-34 | `JWT_SECRET` for "access", `REFRESH_TOKEN_SECRET` for any other type |
| Jwt.GenerateToken | src/utils/jwtUtils.js:9-11 | an access token for the given id and lifetime, signed with `JWT_SECRET` |
| Jwt.GenerateRefreshToken | src/utils/jwtUtils.js:18-22 | a refresh token for the id, signed with `REFRESH_TOKEN_SECRET`, expiring thirty days after issue |
| Jwt.VerifyToken | src/utils/jwtUtils.js:29-45 | non-null iff the argument is text that decodes, was signed with the secret the type selects and is unexpired; the type is echoed and the payload is the decoded claims |
| Jwt.RefreshAllTokens | src/utils/jwtUtils.js:54-67 | non-null iff the argument verifies as a refresh token; then both new tokens carry its id, the access token without a lifetime of its own and the refresh token for thirty days |
| Jwt.GeneratedTokenVerifiesUntilExpiry | src/utils/jwtUtils.js:9-11 | an access token verifies exactly until its issue second plus its lifetime and yields its id |
| Jwt.GeneratedRefreshTokenVerifiesUntilExpiry | src/utils/jwtUtils.js:18-22 | a refresh token verifies as any non-access type for exactly thirty days and yields its id |
| Jwt.KindIsolation | src/utils/jwtUtils.js:29-37 | with distinct secrets, an access token never verifies as a refresh token and vice versa |
| Jwt.SharedSecretMixesKinds | src/utils/jwtUtils.js:29-37 | with equal secrets, an access token verifies as a refresh token at every moment before its expiry |
| Jwt.RotatedAccessTokenLifetime | src/utils/jwtUtils.js:58 | the rotated access token's `exp` is the signer's default, and it verifies at once iff that default is not zero |
| Jwt.VerifiesWhenDecoded | src/utils/jwtUtils.js:29-37 | verification of a text depends only on the token it decodes to |
| Jwt.NonTextNeverVerifies | src/utils/jwtUtils.js:38-44 | `undefined` and an already decoded object give `null`, so `refreshAllTokens` of a decoded object is `null` |
| Store.Hash | src/controllers/authController.js:31-36 | the digest of a password verifies that password |
| Store.HashAcceptsOnlyItsPassword | src/controllers/authController.js:86 | a digest verifies exactly the password it was computed from |
| Store.UserWithEmail | src/controllers/authController.js:24 | the found user is stored with that e-mail; none iff no stored user has it |
| Store.UserWithId | src/controllers/userController.js:77 | the found user is stored with that id; none iff the id is missing or no stored user has it |
| Store.WithPassword | src/controllers/authController.js:237 | the users with that id get the new digest; every other record is unchanged |
| Store.UpdatedUserHasNewPassword | src/controllers/authController.js:237 | after the update, the user found by that id is the old record with the new digest |
| Store.ResetPasswordTakesEffect | src/controllers/authController.js:231-237 | after a reset the user's digest accepts the new password and rejects any other, the old one included |
| Store.RowsOf | src/models/authModel.js:39-43 | exactly the rows of that user |
| Store.WithoutUser | src/models/authModel.js:50-53 | exactly the rows of other users remain, and the removed count is that user's row count |
| Store.SelectSingle | src/models/authModel.js:39-47 | `.single()` succeeds iff the user has exactly one row, and returns that row |
| Store.RowsOfAppend | src/models/authModel.js:14-23 | an insert adds the row to its own user's rows and no one else's |
| Store.DeletionSparesOthers | src/models/authModel.js:50-53 | deleting one user's rows leaves every other user's rows as they were |
| Store.DeletionRemovesAll | src/models/authModel.js:50-53 | after the delete the user has no row and `.single()` fails |
| Store.SingleAfterFirstInsert | src/models/authModel.js:14-23 | after the first insert for a user, `.single()` finds exactly that row |
| Store.SecondRowBreaksSingle | src/models/authModel.js:14-23 | after a second insert for the same user, `.single()` fails |
| Store.Database.FindUserByEmail | src/controllers/authController.js:24 | succeeds iff the store answers; the result is the user with that e-mail |
| Store.Database.FindUserById | src/controllers/userController.js:77 | succeeds iff the store answers; the result is the user with that id |
| Store.Database.NewUser | src/models/userModel.js:14 | the stored record holds the next identity value and the given e-mail, username and digest |
| Store.Database.CreateUser | src/models/userModel.js:11-20 | on success one record with the next id and the column defaults is appended and the id advances; the result is the insert's `data` (`null` or the array of inserted rows), not the record; nothing changes on failure |
| Store.Database.UpdatePassword | src/controllers/userController.js:127-129 | on success the users with that id get the new digest; nothing changes on failure |
| Store.Database.InsertResetRow | src/models/authModel.js:14-23 | on success the row is appended and returned; nothing changes on failure |
| Store.Database.SelectResetRow | src/models/authModel.js:39-43 | the single row of the user, or the error |
| Store.Database.DeleteResetRows | src/models/authModel.js:50-53 | on success every row of the user is removed; nothing changes on failure |
| AuthModel.NewResetRow | src/models/authModel.js:12-22 | the row holds the user, the code and an ISO-text expiry five minutes after `now` |
| AuthModel.InsertResetCode | src/models/authModel.js:10-30 | one row with a five-minute ISO expiry is appended and returned; the user's earlier rows stay; on error nothing changes |
| AuthModel.GetAndDeleteResetCode | src/models/authModel.js:37-60 | the result is the user's single row; after success the user has no rows and every other user's rows are unchanged; a failed read deletes nothing |
| AuthModel.GetResetCode | src/controllers/authController.js:164-165 | the user's single row, or an error when there is not exactly one or the store fails |
| AuthModel.DeleteResetCode | src/controllers/authController.js:187 | every row of the user is removed when the store answers |
| AuthModel.StoredRowNeverValidates | src/models/authModel.js:12 | a stored row never validates, whatever code is entered and whenever |
| AuthModel.NumericExpiryWindow | src/utils/utils.js:15-21 | with a numeric expiry, the e-mailed code would be accepted for exactly five minutes |
| Http.CookieValue | src/controllers/authController.js:210-216 | a cookie is taken iff it is present and non-empty, and its value is returned |
| Http.AccessCandidate | src/middleware/authMiddleware.js:16-19 | the candidate is the second space-separated word of the header when non-empty, and it holds no space |
| Http.AnySchemeAccepted | src/middleware/authMiddleware.js:17 | any first word, `Bearer` or not, is skipped and the token is taken |
| Http.TrailingWordsIgnored | src/middleware/authMiddleware.js:17 | whatever follows the token after a space is ignored, however many words or spaces it holds |
| Http.Response.Send | src/controllers/authController.js:64-66 | the status and JSON body are set |
| Http.Response.Cookie | src/controllers/authController.js:55-60 | one cookie write is appended |
| Http.Response.ClearCookie | src/controllers/authController.js:257-261 | one cookie clearing is appended |
| Http.Response.SetAuthorization | src/controllers/authController.js:62 | the `Authorization` header is set |
| AuthMiddleware.AccessVerification | src/middleware/authMiddleware.js:16-22 | a verification exists only for a header word that decodes to a `JWT_SECRET` token with those claims |
| AuthMiddleware.Authenticate | src/middleware/authMiddleware.js:15-51 | a verified access token sets `req.id` and continues with the response untouched. Otherwise a truthy refresh cookie is rotated: a new cookie and `Bearer` header are written and `req.id` is the refresh token's id, or the call throws when rotation or re-verification yields `null`. Without a cookie the answer is 403, and only then |
| AuthMiddleware.IssuedBearerHeaderAuthenticates | src/controllers/authController.js:90-101 | the header a login writes authenticates until the token expires and yields its id |
| AuthMiddleware.RefreshTokenInHeaderRejected | src/middleware/authMiddleware.js:19-22 | with distinct secrets, a refresh token in the header is never accepted |
| AuthorizationMiddleware.SomeRoleRequired | src/middleware/authorizationMiddleware.js:25 | true iff some held role is among the required roles |
| AuthorizationMiddleware.HasRequiredRole | src/middleware/authorizationMiddleware.js:22-26 | the gate opens iff the user exists, its `roles` is a list, and some held role is among the required ones |
| AuthorizationMiddleware.HasRequiredRoleIsIntersection | src/middleware/authorizationMiddleware.js:22-26 | the gate opens iff the user exists, its roles are a list, and held and required roles intersect |
| AuthorizationMiddleware.NoRequiredRoleDeniesAll | src/middleware/authorizationMiddleware.js:22-26 | an empty role list admits nobody |
| AuthorizationMiddleware.Authorize | src/middleware/authorizationMiddleware.js:8-39 | 401 without a truthy id before any lookup; 500 on store failure; `next()` iff the stored user holds a required role; 403 otherwise; never throws |
| UserMiddleware.IsAdmin | src/middleware/userMiddleware.js:15 | only an existing user whose `admin` flag is set passes; a missing user never does |
| UserMiddleware.Admin | src/middleware/userMiddleware.js:9-27 | 500 on store failure; `next()` iff the user named by `req.id` exists and is an admin; 403 otherwise; never throws |
| UserMiddleware.MissingIdIsNotAdmin | src/middleware/userMiddleware.js:10-15 | a request without an id is refused |
| AuthController.CookieToken | src/controllers/authController.js:276-277 | the cookie's text when present, otherwise `undefined` |
| AuthController.SignupUser | src/controllers/authController.js:20-72 | 409 with nothing stored and the id unchanged when the e-mail is taken. Otherwise one user with the argon2 digest is appended and the id advances. If the insert hands back `null`, the answer is 500 with nothing written. If it hands back the rows, a thirty-day refresh cookie and a one-hour `Bearer` token, both without an id, are written and 201 is sent with the rows. 500 with nothing changed on store failure |
| AuthController.LoginUsingEmail | src/controllers/authController.js:80-111 | the same 401 for an unknown e-mail and a wrong password, with nothing written; otherwise the same cookie and header as signup and 200 |
| AuthController.ForgotPassword | src/controllers/authController.js:119-152 | 404 with nothing stored for an unknown e-mail. Otherwise a six-digit code row is stored before the code goes to the mailer, and the answer is 200 only when the mailer's reply has status 200, else 500 |
| AuthController.VerifyResetCode | src/controllers/authController.js:160-200 | 404 without exactly one row; 400 keeping the row for a wrong or expired code; otherwise a ten-minute `resetToken` access-token cookie, all of the user's rows deleted, and 200 |
| AuthController.ResetPassword | src/controllers/authController.js:208-248 | 401 without the cookie or when it fails access verification, 404 without a truthy id, all before any update; otherwise the new digest is stored, the cookie cleared and 200 sent |
| AuthController.Logout | src/controllers/authController.js:256-266 | the refresh cookie is cleared with its strict options and 200 is sent |
| AuthController.RefreshTokens | src/controllers/authController.js:274-306 | 401 when the cookie does not verify as a refresh token, 500 otherwise; no cookie or header is ever written |
| AuthController.SignupHeaderCarriesNoId | src/controllers/authController.js:51-62 | the signup header authenticates for an hour but yields no truthy id |
| AuthController.ResetTokenAuthenticates | src/controllers/authController.js:177 | the reset token authenticates as a `Bearer` access token for ten minutes and yields its user id |
| AuthController.AccessTokenResetsPassword | src/controllers/authController.js:219 | a login's one-hour access token passes the reset-token check while unexpired |
| UserController.SignupUser | src/controllers/userController.js:14-66 | same outcomes as the authentication controller's signup: 409 or 500 with nothing changed; otherwise the user is stored, the id advances, and the answer is 500 for a `null` insert reply or 201 with id-less tokens for a row array |
| UserController.GetOwnProfile | src/controllers/userController.js:73-90 | 200 with the user named by `req.id`, 404 when there is none, 500 on store failure |
| UserController.ResetPassword | src/controllers/userController.js:98-140 | same outcomes as the authentication controller's reset; the empty `updateUser` stub is given the update meaning `Store.WithPassword` |

## Left out

- E-mail delivery (src/controllers/emailController.js) is I/O. Its effect enters only as the `mailStatus` parameter of the forgot-password handler. The mailer as written returns no `status` field, so `mailStatus` is not derived from it.
- The welcome e-mail at signup is not modelled. A failure to send it is caught and only logged (src/controllers/authController.js:39-50), so its outcome has no effect on the handler's response or on the store.
- argon2id is an opaque one-way function (`Store.Hash`). Salts, cost parameters and timing are not modelled.
- `crypto.randomInt` is replaced by the `draw` parameter. Its uniformity is not modelled.
- JWT signatures are modelled by the secret that signed the token, not by HMAC. Forgery resistance is assumed, not proved. Header fields other than the claims are not modelled.
- Jwt.Expiry: the library's handling of `expiresIn: undefined` is not known from the code. It is the `Config.implicitLifetime` parameter, and the library may instead reject such a call outright.
- Missing `JWT_SECRET` or `REFRESH_TOKEN_SECRET` values are not modelled. Secrets are always present.
- The `error` text that 500 responses carry and the `action` field of the logout and refresh bodies are not modelled. Bodies carry only `message` and, where sent, `user`.
- Store.Database: store failures are all-or-nothing per request (`reachable`). A store that answers one call and fails the next is not modelled. So the 500 branches after a successful lookup in signup and forgot password are unreachable in the model.
- Request fields are well typed: `userID` is a number, codes and passwords are strings. JSON bodies of other shapes are not modelled.
- `adminController`, the routes, `src/index.js` and the server start-up are not part of this model. The admin routes import `../middleware/adminMiddleware.js` (src/routes/adminRoutes.js:3), which is not part of this model.
- Module loading is not modelled. src/controllers/authController.js:11 default-imports `emailController`, but src/controllers/emailController.js has only named exports (lines 12 and 50). As written, that import stops the file from loading. The model's handlers assume it loads, with the mailer as a parameter.
- AuthorizationMiddleware.Authorize: takes `roles` as a list of role names, as the callers' `roles.includes(role)` on a list reads. The JSDoc documents a single string (src/middleware/authorizationMiddleware.js:5). With a string argument, `includes` would be a substring test that admits roles such as "adm" or "" for "admin". That case is not modelled.
- Concurrency between requests is not modelled. Each method models one request running to completion.
- `deleteUser`, `getAllUsers` and the admin `getUser` lookup are not used by the modelled handlers and are not part of this model.
