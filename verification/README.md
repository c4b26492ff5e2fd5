# User account lifecycle — a Dafny model

This project models the user model of a small social-networking backend
(`src/db/models/user.js`): the schema's field rules, the pre-save hook that
issues an email-confirmation token, the password helpers, the profile update,
token issuing, the two public projections, and the static methods `createNew`,
`findByIdentifier`, `verifyEmail` and `getById`.

The MongoDB `User` collection is a `map<Id, User>`. Each asynchronous database
call is one atomic map update, and a thrown error is a `Failure` that carries
no new store, so a failed operation writes nothing. The cryptographic libraries
are passed in as a `Primitives` record of three functions that the model does
not interpret:
- `hash(password, salt)` stands for PBKDF2.
- `sign(purpose, claims)` stands for `jwt.sign`, with one secret per purpose.
  The claims carry the issue time `iat` in whole seconds, as `jwt.sign` adds it.
- `decode(purpose, token)` stands for `jwt.verify`'s signature check. It returns
  `None` for a forged or malformed token.

The clock is a parameter `now` (whole seconds) of every operation that signs a
token or checks one. The one-hour lifetime of the email-confirmation token
(`expiresIn: '1h'`) is checked explicitly by `VerifyEmail` against the token's
`iat`.

Where a property needs the JWT library to behave, the lemma assumes
`Sound(p)`. This predicate says a token decodes to its claims under the secret
that signed it, and under no other secret.

Modules, in dependency order:
- `Wrappers`: `Option` and `Result`.
- `Text`: the `trim` and `lowercase` setters of `username` and `email`, and the
  normalized form they produce.
- `Crypto`: ids, tokens, salts, digests, token purposes and claims, and the
  `Primitives` record.
- `UserModel`: the `User` document and its instance methods, plus the pre-save hook.
- `AccountStore`: the collection, `Save` (validation, hook, unique indexes) and
  the static methods.
- `Lifecycle`: properties that relate several operations.

## Model

| member | source | states |
|---|---|---|
| Text.TrimStartSpec | src/db/models/user.js:8-9 | Trimming the start keeps a suffix that does not begin with white space, and everything dropped was white space. |
| Text.TrimEndSpec | src/db/models/user.js:8-9 | Trimming the end keeps a prefix that does not end with white space, and everything dropped was white space. |
| Text.TrimSpec | src/db/models/user.js:8-9 | A trimmed identifier has no white space at either end. It is empty exactly when the input was all white space. |
| Text.TrimIdempotent | src/db/models/user.js:8-9 | Trimming twice gives the same result as trimming once. |
| Text.LowerChar | src/db/models/user.js:8-9 | Folding a character maps each upper-case ASCII letter to its lower-case partner 32 code points up, leaves every other character unchanged, and never yields an upper-case ASCII letter. |
| Text.LowerIdempotent | src/db/models/user.js:8-9 | Lower-casing twice gives the same result as lower-casing once. |
| Text.LowerTrimCommute | src/db/models/user.js:8-9 | The `lowercase` and `trim` setters commute, so the order in which the schema applies them does not matter. |
| Text.SameUpToCaseLower | src/db/models/user.js:8-9 | Two strings that differ only in the case of ASCII letters lower-case to the same string. |
| Text.LowerMatchesUpToCase | src/db/models/user.js:8-9 | Against a string with no upper-case letters, lower-casing `x` gives that string exactly when `x` differs from it only in letter case. |
| Text.NormalizeIsNormalized | src/db/models/user.js:8-9 | Any assigned username or email is stored trimmed and without upper-case letters. |
| Text.NormalizedIsFixedPoint | src/db/models/user.js:8-9 | The setters leave an already normalized identifier unchanged. |
| Text.NormalizeIdempotent | src/db/models/user.js:8-9 | Assigning a stored identifier again stores the same value. |
| UserModel.AssignIdentifier | src/db/models/user.js:8-9 | Assigning `undefined` leaves the path unset. Assigning a string stores it trimmed and then lower-cased, which is in normalized form. |
| UserModel.SetPassword | src/db/models/user.js:60-63 | Stores the given salt and the hash of the password under that salt. No other field changes. |
| UserModel.ValidPassword | src/db/models/user.js:55-58 | Returns true exactly when rehashing the candidate with the stored salt gives the stored hash. It throws only when no salt is stored. |
| UserModel.ToJSON | src/db/models/user.js:105-116 | The public profile has exactly id, username, email, verified, fullName, gender, address and avatar, taken from the user. |
| UserModel.GenerateJWT | src/db/models/user.js:85-90 | With a sound JWT library, the session token decodes under the session secret to the user's id, username and issue time, and under the other two secrets to nothing. |
| UserModel.ToAuthJSON | src/db/models/user.js:96-103 | The auth view has id, email and verified, plus a session token signed over the id, username and issue time. |
| UserModel.ResetPasswordUrl | src/db/models/user.js:80-83 | The reset link starts with the backend URL and ends with a password-reset token for the user's id, issued now. |
| UserModel.EmailToken | src/db/models/user.js:37 | With a sound JWT library, the email-confirmation token decodes under the confirmation secret to the user's id and the issue time. |
| UserModel.UpdateUserProfile | src/db/models/user.js:65-74 | Overwrites fullName, username, email, dob, gender and address with the argument's values, absent ones included. It keeps verified, the email token and the credentials, and returns the public profile of the updated user. |
| UserModel.PreSave | src/db/models/user.js:35-51 | A new document, or one with a changed email, gets `verified = false` and a fresh email-confirmation token for its id, issued at the time of the save. Any other document is saved unchanged. Only those two fields can change. |
| AccountStore.Save | src/db/models/user.js:7-51 | A save succeeds exactly when the required paths are present, the new/existing status matches the store, and no other user holds the username or email. On success only the document's entry changes, and it holds the document as the hook leaves it. |
| AccountStore.Registration | src/db/models/user.js:122-127 | The document built for registration has the given id, the identifiers through the setters, the given fullName, the default avatar, the given salt and the password's hash, is unverified, and has no token, dob, gender or address. |
| AccountStore.SaveRegistration | src/db/models/user.js:121-128 | Saving a freshly built user succeeds exactly when its identifiers are present and unused and its id is free. It then adds the user, unverified and with a token. |
| AccountStore.CreateNew | src/db/models/user.js:121-130 | Fails when the password is missing, or when the normalized username or email is empty or already stored. Otherwise exactly one user is added: normalized identifiers, the given fullName, the default avatar, salt and hash from the password, unverified, with an email-confirmation token. Existing users are unchanged. |
| AccountStore.FindByIdentifier | src/db/models/user.js:131-133 | Returns none exactly when no stored user matches the lower-cased identifier. Otherwise it returns one of the matching stored users. |
| AccountStore.GetById | src/db/models/user.js:147-149 | Returns the stored user with that id, or none when the id is absent. |
| AccountStore.LoginRedirect | src/db/models/user.js:140 | The redirect starts with the front-end URL and ends with the session token. |
| AccountStore.VerifyEmail | src/db/models/user.js:134-145 | Succeeds exactly when the token decodes under the confirmation secret, its hour has not passed, and its id names a user whose stored token is this token. On success only that user's `verified` becomes true, and the stored token is kept. The redirect ends with a session token issued now. A token that does not decode, or has expired, is rejected by the library. |
| Lifecycle.SavePreservesValid | src/db/models/user.js:7-21 | A successful save keeps every stored user well formed and keeps username and email unique. |
| Lifecycle.CreateNewPreservesValid | src/db/models/user.js:121-130 | Registration keeps the collection valid. |
| Lifecycle.VerifyEmailPreservesValid | src/db/models/user.js:134-145 | Email verification keeps the collection valid. |
| Lifecycle.SetPasswordThenValidPassword | src/db/models/user.js:55-63 | After `setPassword(p)`, `validPassword(p)` is true. Any candidate is accepted exactly when it hashes like `p` under the new salt. |
| Lifecycle.ValidPasswordTotalOnStoredUsers | src/db/models/user.js:55-58 | On any stored user of a valid collection, `validPassword` returns a boolean and never throws. |
| Lifecycle.ToJSONHidesCredentials | src/db/models/user.js:105-116 | The public profile does not depend on the hash, the salt, the email token or the token field. |
| Lifecycle.ToAuthJSONHidesCredentials | src/db/models/user.js:96-103 | The auth view does not depend on the hash, the salt, the email token or the token field. |
| Lifecycle.VerifyEmailRepeatable | src/db/models/user.js:137-139 | After a successful verification, the same token verifies again and leaves the store as it was. |
| Lifecycle.VerifyEmailRejectsStaleToken | src/db/models/user.js:134-144 | A token that decodes but differs from the stored one is refused: as expired after its hour, and with the invalid-token error before that. |
| Lifecycle.OtherTokensCannotVerifyEmail | src/db/models/user.js:134-136 | With a sound JWT library, session tokens and password-reset tokens are never accepted for email verification. |
| Lifecycle.ResetUrlTokenDecodes | src/db/models/user.js:80-83 | With a sound JWT library, the reset link ends with a token that decodes under the reset secret to the user's id and the issue time. |
| Lifecycle.RegisterThenVerify | src/db/models/user.js:121-145 | Following the token issued at registration within the hour verifies the user. `getById` then shows the user verified, and the redirect carries a session token that decodes to the id and username. After the hour the token is rejected as expired. |
| Lifecycle.RegisterTwiceFails | src/db/models/user.js:8-9 | Registering the same data a second time fails with a duplicate key, whatever id and salt the second attempt gets. |
| Lifecycle.UpdateProfileThenSave | src/db/models/user.js:36-39 | A profile update followed by `save` keeps the credentials. A changed email clears `verified` and reissues the token, and an unchanged email keeps both. |
| Lifecycle.EmailChangeInvalidatesOldToken | src/db/models/user.js:36-39 | With a sound JWT library, after a saved profile update that changes the email, the confirmation token issued earlier (at another second) no longer verifies. |
| Lifecycle.HoldersAtMostOne | src/db/models/user.js:8-9 | In a valid collection, at most one user holds a given email, and at most one holds a given username. |
| Lifecycle.CandidatesAtMostTwo | src/db/models/user.js:132 | A lookup has at most two candidates: one user matching by email and another matching by username. |
| Lifecycle.CandidatesUpToCase | src/db/models/user.js:131-133 | In a valid collection, a user is a lookup candidate exactly when its stored email or username differs from the identifier only in letter case. |
| Lifecycle.RegisteredUserIsFound | src/db/models/user.js:121-133 | A registered user is a lookup candidate for its email and for its username as given at registration, with the surrounding white space dropped, in any letter case. |
| Lifecycle.LookupUpToCase | src/db/models/user.js:132 | Two identifiers that differ only in letter case have the same lookup candidates. |
| Lifecycle.MixedCaseLookupExample | src/db/models/user.js:132 | `Ann@X.io` and `ann@x.io` have the same lookup candidates. |

Notes on how the code is read:
- Mongoose's `isNew` is an explicit argument of `Save`. `isModified('email')`
  is true when the document's email differs from the stored record's email.
- `save` validates the required paths first, then runs the hook, then writes
  under the unique indexes on `_id`, `username` and `email`. A non-new
  document whose record is gone fails with `DocumentNotFound`.
- `updateUserProfile` only assigns fields; it does not reset `verified`. When
  the caller then calls `save`, the hook does run, and a changed email is
  re-verified (`Lifecycle.UpdateProfileThenSave`). This model follows the code,
  so the update path does not bypass the hook.
- `verifyEmail` fails in two different ways. A token that `jwt.verify` refuses
  fails with `TokenRejected`, the library's own error. A token that verifies but
  matches no stored user fails with `InvalidToken`, the code's explicit error.
  The model keeps the two apart instead of treating every failure as one error.
- `findByIdentifier` is a `findOne` over an `$or`. Email and username are each
  unique, but one user's email may equal another user's username, so two users
  can match. The model leaves the choice between them open.
- `validPassword` and `setPassword` throw when PBKDF2 gets `undefined`. For
  `createNew` without a password, the model returns `ArgumentError` before
  saving. For `validPassword`, it returns that error when no salt is stored,
  which cannot happen for a stored user.

## Left out

- The verification email (building the mailer payload and sending it):
  it belongs to an external mailer, and the send is commented out in the code.
- Salt randomness: the salt is a parameter of `SetPassword` and `CreateNew`,
  so the model does not show that two `setPassword` calls give different salts.
- PBKDF2 and JWT internals (secrets, signature, encoding). They are the
  uninterpreted `Primitives`. Only the issue time and the one-hour lifetime of
  the confirmation token are modelled; the one-year lifetime of the session
  token and the one-hour lifetime of the reset token are not checked by any
  operation of this file.
- UserModel.PreSave: two confirmation tokens for the same id issued within the
  same second carry the same claims, so they are the same token. The earlier
  one is retired by an email change only when it was issued at another second
  (`Lifecycle.EmailChangeInvalidatesOldToken`).
- AccountStore.Save: a non-new document is taken to be read from its current
  record. `Save` writes the whole document, and `isModified('email')` compares
  it with the stored record, not with the value as loaded. A document loaded
  before a concurrent change would, in Mongoose, write only its modified paths.
- `toLowerCase` folds only the ASCII letters. JavaScript folds all of Unicode.
- `dob`, `gender` and `address` are not paths of the schema. Under Mongoose's
  default strict mode, assigning them would not persist them. The model keeps
  them as document fields.
- `findByIdentifier` lower-cases the identifier but does not trim it, and the
  model follows that. Whether the driver also runs the schema setters on query
  values depends on the Mongoose version, which is not part of this model.
- `timestamps`, `since: Date.now`, `versionKey` and the `getById` query
  options: these are persistence and clock concerns.
- The async and `next()` plumbing. Concurrent requests, which rely on the
  database's unique indexes under races, are not modelled: the store is sequential.
- The empty stubs `generateConfirmationUrl` and `tokenDecode`: they have no behaviour.
- `src/routes/index.js`: router mounting and the API-description endpoints
  are framework glue with no logic of their own.
- `findByIdentifier` with an `undefined` identifier, and `validPassword` with
  an `undefined` password: both throw `TypeError` in the code. The model
  types these arguments as strings.
- `findByIdentifier` returns the first match the database meets; which one is
  left open by `FindByIdentifier`. The set of possible matches is not given a
  contract of its own; `Lifecycle.CandidatesUpToCase` states what it holds.
- The URL formats are plain concatenations of configured base URLs. The model
  states only that the URL starts with the base URL and ends with the token.
