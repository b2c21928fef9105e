# Session state machine of the NestJS auth service

This project models, in Dafny, the authentication core of a NestJS + Prisma
server: `AuthService` (`signupLocal`, `signinLocal`, `logout`), the user-store
behaviour it relies on from `UsersService` (`createUser`, lookup by email,
single-record update), and the refresh-token rotation of `TokensService`.

A user row holds an email (unique), an argon2 hash of the password and a
nullable `hashedRefreshToken`, the fingerprint of the refresh token issued
last. A user is logged in while the fingerprint is set and logged out once it
is null. Signup, signin and rotation each mint a fresh JWT pair for the user's
own id and email and overwrite that user's fingerprint with a hash of the new
refresh token. That overwrite is the only revocation there is. Logout nulls
the fingerprint.

Layout:

- `wrappers.dfy` (`Wrappers`): `Option` and `Result`.
- `hashing.dfy` (`Hashing`): argon2 as a `Hasher`, a pair of functions
  `hash(secret, salt)` and `verify(digest, secret)`. `Hasher.Sound()` is what
  the logic relies on: a digest accepts exactly the secret it was made from
  and is never that secret.
- `jwt.dfy` (`Jwt`): claims, the token pair, and an `Issuer` with abstract
  signing functions and `decode`. `Issuer.Sound()` says that decoding gives back
  the signed claims and that access tokens expire before refresh tokens.
  `GetTokens` mints a pair at wall-clock second `now`. Freshness is proved from
  the decode round trip, not assumed: pairs minted in different seconds differ.
- `store.dfy` (`Store`): the user row, the table (`Db`, and the `UserTable`
  class that both services share), errors and HTTP statuses, and the pure
  meaning of `createUser`, `findUserByEmail` and `updateUser`.
- `session.dfy` (`Session`): the state machine as pure transitions
  `Signup`, `Signin`, `Logout` and `Rotate`. Each one returns the caller's
  result and the table afterwards. `Run` serves a sequence of requests.
- `properties.dfy` (`SessionProperties`): multi-step properties, including
  the integration test's scenarios.
- `users.dfy`, `tokens.dfy`, `auth.dfy`: the services as classes. Their
  methods update the shared table in place, step by step as the source does,
  and each is proved equal to its pure transition.
- `flow.dfy` (`AuthFlow`): the integration test's rotation flow, driven
  through the service objects.

Randomness and the clock are parameters: each argon2 call takes a salt, and
each token issuance takes the current second `now`. A database outage during
`createUser` is an optional parameter `outage`.

The model follows the code on two points:

- A duplicate signup is Forbidden (403), because `createUser` maps Prisma's
  P2002 to `ForbiddenException`. It is not a 400-class credentials error.
- `logout` answers `true` for every id, including one that does not exist.

Reading chosen for `createUser`'s argument: `createUser` receives the plain
password and hashes it once (users.service.ts:13, as its unit test exercises
it). `signupLocal` as written passes `{email, hashedPassword}` instead. That
combination is modelled separately as `Session.SignupAsWritten` (see
Findings). The corrected `Session.Signup`, used everywhere else, hands the
plain password to `createUser`. `findUserByEmail` and `updateUser` are called
but not defined in users.service.ts. They are modelled as a plain lookup and
as a one-row update of `hashedRefreshToken`. Updating a missing id fails with
Prisma's record-not-found error P2025.

## Model

| member | source | states |
|---|---|---|
| Store.CatchCreateError | src/server/app/users/users.service.ts:21-29 | a store error maps to 403 exactly when it is the unique-constraint code P2002; every other error is rethrown unchanged |
| Store.CreateUser | src/server/app/users/users.service.ts:12-33 | succeeds iff there is no outage and the email is not registered; a failure leaves the table unchanged; a duplicate email is Forbidden (403) and an outage is passed through the catch; on success exactly one row is added, under the next autoincrement id, holding the email, the hash of the password and no fingerprint; with a sound hasher the stored hash verifies the password and is not the password; table invariants are kept |
| Store.CreateUserAsWritten | src/server/app/users/users.service.ts:12-13 | with the `password` field absent, createUser fails with a runtime error and writes nothing; with it present it behaves as Store.CreateUser |
| Store.FindUserByEmail | src/server/app/auth/auth.service.ts:37 | finds a row iff the email is registered, and the row found has that email |
| Store.UpdateUser | src/server/app/auth/auth.service.ts:57-60 | succeeds iff the id exists, otherwise fails with P2025 and changes nothing; only that row's fingerprint changes, to the given value |
| Jwt.GetTokens | src/server/app/auth/auth.service.ts:30 | with a sound issuer both tokens decode to the user's own id and email, the issue second, and their expiries |
| Jwt.FreshTokens | src/server/app/auth/test/integration/auth.service.int-spec.ts:212-222 | pairs minted for a different user or in a different second differ in both the access and the refresh token |
| Jwt.AccessIsNotRefresh | src/server/app/auth/auth.service.ts:30 | the two tokens of one pair are different strings |
| Session.UpdateRefreshToken | src/server/app/auth/auth.service.ts:31 | succeeds iff the user exists; touches only that user's fingerprint, which then holds a hash of the token and, with a sound hasher, accepts it |
| Session.Signup | src/server/app/auth/auth.service.ts:22-34 | succeeds iff there is no outage and the email is new; a duplicate is Forbidden 403 and a failure changes nothing; on success the tokens are minted for the new id and email, exactly one row is added with the password hash and the fingerprint of the returned refresh token, the stored hash is not the password, and the user is logged in |
| Session.Signin | src/server/app/auth/auth.service.ts:36-54 | succeeds iff a registered user with that email has a password hash accepting the password; an unknown email is BadRequest "User does not exist" and a wrong password BadRequest "Password invalid", both changing nothing; on success the tokens are minted for that user's id and email and only that user's fingerprint is overwritten, with a hash of the returned refresh token |
| Session.Logout | src/server/app/auth/auth.service.ts:56-62 | always answers true; an existing user ends logged out with nothing else changed; a missing id changes nothing |
| Session.Rotate | src/server/app/auth/test/integration/auth.service.int-spec.ts:143-223 | succeeds iff the user exists, is logged in and the fingerprint accepts the presented token; every failure is the same Forbidden 403 and changes nothing; on success the new pair is minted for the user and only that user's fingerprint is overwritten with a hash of the new refresh token |
| Session.SignupAsWritten | src/server/app/auth/auth.service.ts:22-28 | as written, every signup fails with status 500 and leaves the table unchanged |
| Session.Handle | src/server/app/auth/auth.service.ts:22-62 | serving any one request keeps emails unique and ids below the counter, never removes a row or changes an email or password hash, and keeps every fingerprint a hash of a refresh token minted for its own user |
| Session.Run | src/server/app/auth/auth.service.ts:22-62 | the same three guarantees for any sequence of requests |
| SessionProperties.SignupThenSignin | src/server/app/auth/test/integration/auth.service.int-spec.ts:82-89 | after a successful signup, signin with the same email and password succeeds and returns tokens for the new id |
| SessionProperties.SignupTwice | src/server/app/auth/test/integration/auth.service.int-spec.ts:52-62 | a second signup with the same email is Forbidden and leaves the table as the first signup left it |
| SessionProperties.LogoutEndsSession | src/server/app/auth/test/integration/auth.service.int-spec.ts:160-177 | after logout, rotation with any token is Forbidden and changes nothing |
| SessionProperties.LogoutIdempotent | src/server/app/auth/auth.service.ts:56-62 | logging out twice answers true and gives the same table as logging out once |
| SessionProperties.TruncatedTokenRejected | src/server/app/auth/test/integration/auth.service.int-spec.ts:179-199 | with the last character of the current refresh token cut off, rotation is Forbidden and changes nothing |
| SessionProperties.SigninRevokesPrevious | src/server/app/auth/auth.service.ts:50-53 | after a successful signin, a refresh token issued to that user in another second is no longer accepted |
| SessionProperties.RotationScenario | src/server/app/auth/test/integration/auth.service.int-spec.ts:202-223 | signup gives T1; rotating with T1's refresh token a second later gives T2, which differs from T1 in both tokens; rotating with T1's refresh token again is Forbidden |
| SessionProperties.AcceptedTokenNamesUser | src/server/app/auth/auth.service.ts:30-31 | when every fingerprint was minted for its own user, any token the fingerprint accepts decodes to that user's id and email |
| SessionProperties.ServedTokensNameTheirUser | src/server/app/auth/auth.service.ts:22-62 | starting from an empty table and serving any requests, a refresh token accepted for user id decodes to subject id |
| SessionProperties.SignupAsWrittenRefusesFreshEmail | src/server/app/auth/test/integration/auth.service.int-spec.ts:45-50 | for the test's first signup on an empty table, the as-written code fails with 500 while the corrected signup succeeds and the user can then sign in |
| Users.UsersService.CreateUser | src/server/app/users/users.service.ts:12-33 | hashes, inserts through the unique index and maps the error as Store.CreateUser says, updating the shared table in place |
| Users.UsersService.FindUserByEmail | src/server/app/auth/auth.service.ts:37 | returns the row Store.FindUserByEmail describes, without changing the table |
| Users.UsersService.UpdateUser | src/server/app/auth/auth.service.ts:57-60 | updates the shared table as Store.UpdateUser says |
| Tokens.TokensService.GetTokens | src/server/app/tokens/tokens.service.spec.ts:63-69 | a thin wrapper over the issuer: with a sound issuer both returned tokens decode to the user's id and email, the issue second and their expiries; the pair is the one Jwt.GetTokens describes |
| Tokens.TokensService.UpdateRefreshToken | src/server/app/tokens/tokens.service.spec.ts:72-77 | updates the table as Session.UpdateRefreshToken says |
| Tokens.TokensService.RotateRefreshTokens | src/server/app/tokens/tokens.service.spec.ts:79-96 | answers and updates the table as Session.Rotate says |
| Auth.AuthService.constructor | src/server/app/auth/auth.service.ts:17-20 | both services share one user table and one argon2 library |
| Auth.AuthService.SignupLocal | src/server/app/auth/auth.service.ts:22-34 | answers and updates the table as Session.Signup says: create, mint, persist the fingerprint last, return the same tokens |
| Auth.AuthService.SigninLocal | src/server/app/auth/auth.service.ts:36-54 | answers and updates the table as Session.Signin says: the two early BadRequest exits, then mint and persist |
| AuthFlow.RotateAfterSignup | src/server/app/auth/test/integration/auth.service.int-spec.ts:202-223 | through the service objects: after signup and a rotation in a later second, both new tokens differ from the first pair, and replaying the first refresh token is Forbidden |
| Auth.AuthService.Logout | src/server/app/auth/auth.service.ts:56-62 | answers true and updates the table as Session.Logout says, whatever the update's outcome |

## Left out

- Rotation: tokens.service.ts is not part of this model. `Session.Rotate` and `Tokens.TokensService.RotateRefreshTokens` are derived from the tests and the calls around them. The Forbidden message "Access Denied" is a placeholder. The integration test calls `rotateRefreshTokens` on `AuthService` (auth.service.int-spec.ts:152, 171, 190, 218), but auth.service.ts defines no such method. The model routes rotation through `TokensService` only.
- `getTokens` and `updateRefreshToken` are also inferred from their call sites and unit tests. Access tokens and refresh tokens are given separate signing functions, which stand in for their separate secrets.
- argon2 internals (salting, the hash function, constant-time comparison) and JWT signing, secrets and expiry checks are foreign libraries. They are kept abstract. The soundness of hash/verify and of sign/decode are hypotheses of the lemmas that need them.
- Token freshness depends on the wall clock. It is modelled by the `now` parameter. A pair minted twice in the same second for the same user is the same pair, which is why the rotation scenario needs `t0 != t1`.
- Asynchrony and concurrency are not modelled: requests are served one after another. This leaves out the race between two rotations with the same token, the unhandled rejection of logout's unawaited update on a missing id, and that update taking effect after logout has already answered.
- `updateUser` is modelled only for the `hashedRefreshToken` field, the one field the core passes. The other optional fields of its DTO are never used by the core.
- The `createAt` and `updateAt` timestamps of a row are not modelled.
- Database errors other than P2002 are modelled only for `createUser`, through the `outage` parameter. The other store calls fail only for a missing id.
- The hash `signupLocal` computes at auth.service.ts:23 does not appear in the corrected model, which hashes once inside `createUser`. It appears in `Session.SignupAsWritten`.
- Request validation (`IsEmail`, `IsNotEmpty` on the DTOs), controllers, Swagger, module wiring, the page server and the request-context decorator are framework plumbing.
- Ids are unbounded naturals. Prisma's 32-bit `Int` limit on the autoincrement id is not modelled.
- A failed insert leaves the autoincrement counter `nextId` unchanged. On Postgres and MySQL a failed insert still uses up a sequence value. Nothing proved depends on the exact id values, only on ids being fresh and unique.
- `Store.UndefinedPasswordTypeError` stands for the TypeError raised when argon2 is handed `undefined`. Its text "TypeError" is a placeholder, not the runtime's message.

## Findings

| source | as written | input that shows it | evidently intended | confidence | as-written member | corrected member |
|---|---|---|---|---|---|---|
| src/server/app/auth/auth.service.ts:23-28 | `signupLocal` hashes the password and passes `{email, hashedPassword}`. `createUser` (users.service.ts:13) hashes `createUserDto.password`, a property `CreateUserDto` (create-user.dto.ts:6-19) does not declare. A build that type-checks rejects that line, and so does the object literal in users.service.spec.ts:38-41. In the emitted JavaScript the property is undefined, so argon2 throws a TypeError and signup fails with 500 before any row is written | signupLocal({email: "example@test.com", password: "123456"}) on an empty table | the plain password is hashed exactly once and stored, so signup succeeds and signinLocal can verify the password | medium, not executed | Session.SignupAsWritten | Session.Signup |
