# Verge authentication service, modelled in Dafny

This project models the back-end authentication service of Verge, a
case-management product for immigration law firms. The service has three
operations:

- **signUp** registers a firm and its first user, who is an admin. It
  lower-cases the e-mail, refuses an address that is already registered,
  writes the firm and then the user, and hands back a TOTP enrolment secret.
- **signIn** checks the password. It returns only a five-minute challenge
  token tagged `2fa`.
- **verifyTwoFactor** checks that challenge token and a six-character TOTP
  code. It marks the user `verified` the first time, and issues a one-hour
  access token and a thirty-day refresh token.

Request validation (class-validator constraints on `SignUpDto` and
`Verify2faDto`) is modelled as a pre-check.

## Layout

- `common.dfy` (`Common`): `Option`, `Result`, and the ASCII lower-casing
  applied to e-mails.
- `argon2.dfy` (`Argon2`): the password digest as a symbolic term. Only
  `Verify` looks inside it.
- `totp.dfy` (`Totp`): the time-step counter and the verification window of
  RFC 6238 (30-second steps, window 1). The code function is a parameter, so
  every result holds for every code function.
- `jwt.dfy` (`Jwt`): tokens as symbolic signed claim sets. A token verifies
  exactly when the key matches and `now < exp` (RFC 7519, section 4.1.4).
- `dto.dfy` (`Dto`): raw request bodies, the validity predicates and the
  parse functions.
- `store.dfy` (`Store`): the `Firm` and `User` rows, the unique e-mail index,
  and the store invariant `Db.Valid`.
- `auth.dfy` (`Auth`): each operation as a pure function of the store and
  the request. It returns the result and the sequence of store writes the
  operation issues (`firm.create`, `user.create`, `user.update`).
- `service.dfy` (`Service`): the class `AuthService`. It holds the tables as
  map fields, its methods update them step by step, and each method is proved
  equal to its function in `Auth`.
- `properties.dfy` (`AuthProperties`): lemmas that relate several calls.
- `scenario.dfy` (`Scenario`): the sign-up → sign-in → verify run, driven
  through a fresh service object.

Inputs stand in for I/O, the clock and randomness:

- the clock is a `now: nat` parameter, in whole seconds;
- the argon2 salt and the 20-byte TOTP secret are parameters of `SignUp`;
- the two signing keys, the TOTP code function and the firm's default plan
  tier are fixed when the service object is built.

Row ids come from per-table counters held in the store.

Points where the code's behaviour may surprise a reader:

- `@IsString()` accepts the empty string. So an empty firm name, first name
  or last name passes validation (`Dto.PasswordLengthBoundary`).
- `code` is checked only for length. A six-character non-numeric string
  passes validation (`Dto.CodeLengthIsTheOnlyCheck`).
- `!user.twoFactorSecret` is JavaScript falsiness. An empty-string secret is
  refused like a missing one, with 'User not found or 2FA not configured'
  (`Auth.Configured`).
- The user and firm returned by `verifyTwoFactor` come from the store row,
  not from the token. The `firmId` claim of the challenge token is never
  checked.

The challenge token is signed with the access-token key. It differs from an
access token only by its `type` claim and its lifetime (`AuthProperties.ChallengeLifetime`,
`AuthProperties.SessionTokensRejected`). Keeping a challenge token from
acting as a session token therefore depends on every consumer of access
tokens checking that claim.

## Model

| member | source | states |
|---|---|---|
| Common.Lower | backend/src/auth/auth.service.ts:25 | the normalised e-mail has the input's length; every letter A-Z becomes lower case and every other character is kept; the result has no upper-case letter |
| Common.LowerIdempotent | backend/src/auth/auth.service.ts:86 | normalising an already normalised address changes nothing, so sign-in finds the e-mail that sign-up stored |
| Argon2.Verify | backend/src/auth/auth.service.ts:96 | a password verifies against a digest exactly when hashing it again under the digest's own salt reproduces the digest |
| Argon2.Hash | backend/src/auth/auth.service.ts:35 | a digest verifies the password that was hashed and no other password |
| Totp.Counter | backend/src/auth/auth.service.ts:155-160 | the time-step counter T is the 30-second bucket containing `now` |
| Totp.Verify | backend/src/auth/auth.service.ts:155-160 | the code of the current step is accepted; an accepted code is the code of some step within one step of the current one |
| Totp.VerifyWindow | backend/src/auth/auth.service.ts:155-160 | with `window: 1`, a code is accepted exactly when it is the code of step T-1, T or T+1 |
| Totp.AcceptedWithinOneStep | backend/src/auth/auth.service.ts:155-160 | a code shown by the authenticator at one time is accepted at any time less than 30 seconds away, in either direction |
| Jwt.Verify | backend/src/auth/auth.service.ts:134-140 | a token yields a payload exactly when it is a signed token under the given key and `now` is before its `exp`; the payload is then the claims it was signed with; malformed text, a wrong key or an expired token yield nothing |
| Jwt.Sign | backend/src/auth/auth.service.ts:101-111 | a signed token verifies under its signing key and under no other key, only before `now + ttl`, and then yields exactly the claims signed |
| Jwt.ExpiryBoundary | backend/src/auth/auth.service.ts:101-111 | a token is still accepted one second before its expiry and is refused at its expiry |
| Dto.ValidSignUp | backend/src/auth/dto/sign-up.dto.ts:9-44 | a sign-up body is valid exactly when firm name, first and last name, e-mail and password are strings, no optional property holds a non-string value, the e-mail passes the e-mail predicate, the password has at least 8 characters, and a phone given as a string passes the US-phone predicate |
| Dto.SignUpFailures | backend/src/auth/dto/sign-up.dto.ts:9-44 | the list of failing properties is empty exactly when the body is valid; `password`, `email` and `phone` are listed exactly when their own constraint fails |
| Dto.ParseSignUp | backend/src/auth/dto/sign-up.dto.ts:9-44 | a body becomes a DTO exactly when every constraint holds. Names are required strings; address fields and phone are optional; the e-mail passes the e-mail predicate; the password has at least 8 characters; a present phone passes the US-phone predicate. Otherwise it is a 400 listing at least one property |
| Dto.PasswordLengthBoundary | backend/src/auth/dto/sign-up.dto.ts:10-39 | in an otherwise valid body, a 7-character password is rejected and an 8-character one accepted; empty firm and person names are accepted |
| Dto.ValidVerify2fa | backend/src/auth/dto/verify-2fa.dto.ts:3-10 | an absent, null or non-string token or code is invalid; with both strings, the body is valid exactly when the code has six characters |
| Dto.ParseVerify2fa | backend/src/auth/dto/verify-2fa.dto.ts:3-10 | a body becomes a DTO exactly when the temp token is a string and the code is a string of length 6; the DTO carries both unchanged |
| Dto.CodeLengthIsTheOnlyCheck | backend/src/auth/dto/verify-2fa.dto.ts:7-9 | any six characters pass, `abcdef` included; five or seven characters are rejected |
| Store.FindUserByEmail | backend/src/auth/auth.service.ts:86-90 | the lookup returns the stored user with that exact e-mail, or None when no stored user has it |
| Store.FindUserById | backend/src/auth/auth.service.ts:146-149 | the lookup by id finds a user exactly when one is stored under that id; the row found carries that id and belongs to a stored firm, so the firm it includes is always there |
| Store.EmailsUnique | backend/src/auth/auth.service.ts:26-33 | in a consistent store, two users with the same e-mail are the same user |
| Auth.ApplyWrite | backend/src/auth/auth.service.ts:41-72 | the store writes `firm.create`, `user.create` and `user.update`: each touches only its own table; creating a firm leaves the users alone, and only creating a user extends the e-mail index |
| Auth.Apply | backend/src/auth/auth.service.ts:167-170 | writes applied in order; a sequence with no firm creation leaves the firms as they are, and one with no user creation leaves the e-mail index as it is |
| Auth.ApplyKeepsRows | backend/src/auth/auth.service.ts:41-72 | no sequence of writes removes a stored firm or user |
| Auth.Configured | backend/src/auth/auth.service.ts:151 | `user.twoFactorSecret` is truthy: a configured secret is present, an empty-string secret is not configured, and a secret as sign-up generates it (32 base32 characters) is configured |
| Auth.SignUpOutcome | backend/src/auth/auth.service.ts:24-83 | signUp is a Conflict('Email is already registered') writing nothing exactly when some user has the lower-cased e-mail. Otherwise it writes one new firm and then one new admin user of that firm in `pending` state, with the lower-cased e-mail, the hashed password and the returned secret, and returns summaries without hash or secret, the enrolment payload, and no token. The store stays consistent |
| Auth.SignUpKeepsStoreValid | backend/src/auth/auth.service.ts:41-72 | creating a firm under the next id and then a user of it under the next id, with an unused lower-case e-mail, keeps the store consistent |
| Auth.SignInOutcome | backend/src/auth/auth.service.ts:85-130 | signIn fails only with Unauthorized('Invalid credentials'), whether the e-mail is unknown or the password wrong. It succeeds exactly when a user with the lower-cased e-mail has that password, and then returns `twoFactorRequired`, a challenge token for that user and firm tagged `2fa` under the access key for 5 minutes, and the user and firm views |
| Auth.GenerateTokens | backend/src/auth/auth.service.ts:194-212 | the access token yields only {sub, firmId} under the access key for one hour; the refresh token yields {sub, firmId, type 'refresh'} under the refresh key for thirty days; with distinct keys the refresh token never verifies under the access key |
| Auth.VerifyOutcome | backend/src/auth/auth.service.ts:132-192 | verifyTwoFactor succeeds exactly when every check passes. Each failing check gives its own 401, in the order: token invalid or expired, tag not `2fa`, user missing or without secret, code outside T-1..T+1. A failure writes nothing. On success the status write is issued only if the user was not verified yet, and the response holds the user marked verified, its firm, and the access and refresh tokens |
| Auth.MarkVerifiedKeepsStoreValid | backend/src/auth/auth.service.ts:166-172 | the status write changes only that user's status, and no write changes nothing; both keep the store consistent |
| Service.AuthService.constructor | backend/src/auth/auth.service.ts:18-22 | a new service holds the given keys and code function over an empty, consistent store |
| Service.AuthService.SignUp | backend/src/auth/auth.service.ts:24-83 | the method returns what `Auth.SignUpOutcome` returns and leaves the store that its writes produce, firm first and user second |
| Service.AuthService.SignIn | backend/src/auth/auth.service.ts:85-130 | the method changes nothing and returns what `Auth.SignInOutcome` returns |
| Service.AuthService.VerifyTwoFactor | backend/src/auth/auth.service.ts:132-192 | the method returns what `Auth.VerifyOutcome` returns and leaves the store its writes produce, updating the row only when the status was not yet verified |
| AuthProperties.SignUpRows | backend/src/auth/auth.service.ts:41-72 | a successful signUp writes exactly the new firm row and then the new user row; the store afterwards is the old one with those two rows added under unused ids |
| AuthProperties.SignUpAddsOneOfEach | backend/src/auth/auth.service.ts:41-72 | a successful signUp adds exactly one firm and one user and changes no stored user |
| AuthProperties.SignUpCreatesAdmin | backend/src/auth/auth.service.ts:52-82 | the created user belongs to the new firm and has the lower-cased e-mail, role admin, status pending, the given password, and the secret returned in `twoFactorEnrollment`; it is the user that e-mail now finds |
| AuthProperties.SecondSignUpConflicts | backend/src/auth/auth.service.ts:25-33 | after a sign-up, a second sign-up whose e-mail lower-cases to the same address is a Conflict and writes nothing |
| AuthProperties.SignInIgnoresCase | backend/src/auth/auth.service.ts:86-90 | two e-mails that lower-case alike give the same signIn outcome |
| AuthProperties.ChallengeLifetime | backend/src/auth/auth.service.ts:101-111 | the challenge token is tagged `2fa`. Before 5 minutes it passes the token and tag checks of verifyTwoFactor; from 5 minutes on it fails with 'Invalid or expired token' |
| AuthProperties.SessionTokensRejected | backend/src/auth/auth.service.ts:133-144 | neither an access nor a refresh token passes verifyTwoFactor, and neither writes anything. A live access token fails with 'Token is not a 2FA challenge'; with distinct keys a refresh token fails with 'Invalid or expired token' |
| AuthProperties.OnlyLiveChallengesPass | backend/src/auth/auth.service.ts:133-144 | a successful verifyTwoFactor was given an unexpired token, signed with the access key and tagged `2fa` |
| AuthProperties.VerificationMarksUser | backend/src/auth/auth.service.ts:166-172 | after a successful verifyTwoFactor the token's user is verified; no other field, user or firm changes |
| AuthProperties.StatusFlipIsIdempotent | backend/src/auth/auth.service.ts:166-172 | after one successful verification, any later verifyTwoFactor for the same user writes nothing, and the user stays verified; a retry succeeds after the flip exactly when it would have succeeded before it, so verifying again does not error |
| AuthProperties.AcceptanceIgnoresStatus | backend/src/auth/auth.service.ts:132-172 | changing only one user's 2FA status changes no verifyTwoFactor outcome from success to failure or back: the checks read the token, the user's presence and secret, and the code, never the status |
| AuthProperties.SignUpSignInVerify | backend/scripts/test-2fa.js:27-69 | sign-up with a fresh address, sign-in with the same credentials, and the authenticator's current code within 5 minutes all succeed; the access token is for the new user and firm, and the user ends verified |
| Scenario.TwoFactorRun | backend/scripts/test-2fa.js:22-76 | the same run through a service object ends with an access token that verifies and a user whose status is verified |

## Left out

- argon2, HMAC-SHA1, HOTP truncation, base32 encoding and JWT encoding are library code that is not part of this model. Digests and tokens are symbolic terms, and the TOTP code function is a parameter. Salted hashing is one-way only because nothing in the model reads a digest's contents outside `Argon2.Verify`.
- speakeasy's own checks inside `totp.verify` (token length, numeric parsing with `parseInt`) are not modelled: a code is accepted when it equals one of the three codes in the window.
- `otpauth://` URI text: the provisioning URI is kept as its account name `Verge (<email>)` and its secret, without percent-encoding.
- Random generation of the salt and of the TOTP secret: both are inputs. `Totp.IsGeneratedSecret` (32 base32 characters) is assumed only by the end-to-end lemmas.
- Database ids are strings; here they are natural numbers from per-table counters. Database defaults (`planTier` and others) are not modelled beyond a fixed default plan tier.
- `toLowerCase` is modelled for ASCII only. Non-ASCII case mapping is not modelled.
- class-validator's `isEmail` and `IsPhoneNumber('US')` are abstract predicates.
- Dto.PasswordOk: counts every character of the password, while validator's `isLength` behind `@MinLength(8)` does not count the variation selectors U+FE0E and U+FE0F. So `"1234567\u{FE0F}"` passes here and is rejected by the library.
- Dto.CodeOk: counts every character of the code, while validator's `isLength` behind `@Length(6, 6)` does not count the variation selectors U+FE0E and U+FE0F. So a six-digit code followed by U+FE0F is rejected here and accepted by the library.
- The validation pipe registration and the controller routing are not part of this model. Neither is `sign-in.dto.ts`: `SignInDto` is taken as two strings.
- Concurrency: concurrent sign-ups racing past the e-mail check are settled by the database's unique constraint, which this sequential model does not include.
- Partial failure: a failing `user.create` after `firm.create` leaves an orphan firm. Store errors are not modelled; every write succeeds.
- A missing configuration secret (`config.get` returning undefined, on which signing throws) is not modelled: both keys are strings.
- Async/await and wall-clock time: the methods are synchronous and the clock is an input in whole seconds.
