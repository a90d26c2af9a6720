# Account lifecycle of an Express/Mongoose authentication server, in Dafny

This project models the account engine of a small Node.js authentication server and
proves properties of it. A visitor signs up and gets an activation mail. They activate
the account with a fifteen-minute token and then sign in with a password (or through
Google or Facebook) to get a one-hour session token. They can also ask for a one-hour reset link by mail
and use it once to set a new password. A nightly job deletes accounts nobody activated.

The model has one module per source file:

| module | models |
|---|---|
| `JsStrings` | `String.prototype.trim` and `toLowerCase` (ASCII case mapping), as the Mongoose setters and the express-validator sanitizers use them |
| `Crypto` | the hex encoding of `Buffer.toString('hex')`, `makeSalt`; `pbkdf2Sync` is a function parameter, `randomBytes` an input |
| `Jwt` | `jsonwebtoken` sign/verify: a token holds its secret, claims and expiry; verification succeeds iff the secret matches and the clock is before the expiry |
| `ErrorCodes` | the error table and the `HttpError` record |
| `MongoDbError` | `dbErrorHandler` and `uniqueMessage` |
| `BodyValidators` | the express-validator chains, as functions to the list of messages |
| `UserModel` | the schema (setters, validators, unique index), the `password` virtual, `encryptPassword`/`validPassword`, a document as a class, and the `users` collection as a class holding a map from normalised email to account |
| `AccountControllers` | the eight handlers, as methods of a class `Accounts` that owns the collection; each handler is one atomic step |
| `App` | the 404 fallback, the error middleware, the nightly purge |
| `AccountScenarios` | sequences of requests and what the contracts say about their replies |

What the handlers cannot see is passed in as a parameter:
- the validation result of the request;
- the sixteen random salt bytes;
- the clock;
- whether mail delivery succeeds;
- the Google and Facebook replies;
- the `validator` library's `normalizeEmail` and `isEmail`.

A handler ends in one of three ways: `Ok` (a JSON reply), `Err` (an `HttpError` passed to `next`), or `NoResponse` (the request gets no reply).

The invariant `Accounts.Valid()` is kept by every handler. It says:
- every account is stored under its own normalised email;
- the account passed schema validation;
- ids are distinct;
- every reset link is either `''` or a reset token naming the account that holds it.

Because of that invariant, a reset token is held by at most one account, and clearing it makes it unredeemable.

## Model

| member | source | states |
|---|---|---|
| JsStrings.TrimStart | models/user-model.js:10 | the result is the suffix of the input left after its leading whitespace, and does not start with whitespace |
| JsStrings.TrimEnd | models/user-model.js:15 | the result is the prefix left before the trailing whitespace, and does not end with whitespace |
| JsStrings.Trim | helpers/body-validators.js:6 | `trim()` yields a string with no whitespace at either end, empty exactly when the input is all whitespace |
| JsStrings.TrimIsMiddle | helpers/body-validators.js:6 | `trim()` removes whitespace and nothing else: its result is a contiguous slice of the input, and every character before and after that slice is whitespace |
| JsStrings.TrimIdempotent | models/user-model.js:10 | trimming twice is trimming once |
| JsStrings.TrimmedIsFixpoint | models/user-model.js:15 | a string with no whitespace at either end is left unchanged by trim |
| JsStrings.ToLowerCase | models/user-model.js:19 | lower-casing keeps the length and maps every character by the ASCII case mapping |
| JsStrings.LowerCaseIsFixpoint | models/user-model.js:19 | a lower-case string is its own lower-case form |
| JsStrings.ToLowerCaseNormalises | models/user-model.js:19 | lower-casing yields a lower-case string and keeps a trimmed string trimmed |
| JsStrings.TrimLowerCommute | models/user-model.js:13-21 | trim and lowercase commute |
| JsStrings.NormalizeIdempotent | models/user-model.js:13-21 | applying the email setters (trim, then lowercase) twice gives what one application gives |
| Crypto.HexEncode | models/user-model.js:63-65 | `toString('hex')` writes two lower-case hex digits per byte |
| Crypto.HexDecode | models/user-model.js:63-65 | reading hex back gives one byte per two digits |
| Crypto.HexRoundTrip | models/user-model.js:63-65 | decoding the hex form of bytes gives the bytes back |
| Crypto.HexEncodeInjective | models/user-model.js:63-65 | distinct derived keys have distinct hex forms |
| Crypto.MakeSalt | models/user-model.js:55-57 | a salt is 32 hex digits that decode to the 16 random bytes drawn |
| Jwt.Sign | controllers/account-controllers.js:103-111 | a signed token verifies under the signing secret and no other, exactly until `ttl` seconds after signing, and then yields the given claims |
| Jwt.Verify | controllers/account-controllers.js:134-137 | verification succeeds iff the token was signed with this secret and has not expired, and then returns its claims |
| Jwt.SignThenVerify | controllers/account-controllers.js:600-601 | a token verifies under its own secret until its expiry, and is rejected under any other secret |
| Jwt.PurposesDoNotMix | controllers/account-controllers.js:337 | with three distinct secrets, an activation, session or reset token is refused for the other two purposes |
| ErrorCodes.ErrorCode.ToHttpError | helpers/codes/error-codes.js:1-32 | the raised error's message identifies this entry and no other, and its code is the entry's 4xx or 5xx status |
| ErrorCodes.ErrorCode.Value | helpers/codes/error-codes.js:1-32 | the `value` string of each entry, never empty; ValueRoundTrip and ValuesDistinct prove that it identifies its entry |
| ErrorCodes.ErrorCode.StatusCode | helpers/codes/error-codes.js:1-32 | the `statusCode` of each entry, always a 4xx or 5xx status; SharedStatuses and OnlyServerErrorIs5xx say which entries share one and that only SERVER_ERROR is 5xx |
| ErrorCodes.FromValue | helpers/codes/error-codes.js:1-32 | reading a value back yields an entry with that value |
| ErrorCodes.ValueRoundTrip | helpers/codes/error-codes.js:1-32 | every entry is recovered from its value string |
| ErrorCodes.ValuesDistinct | helpers/codes/error-codes.js:1-32 | the eight value strings are pairwise distinct |
| ErrorCodes.SharedStatuses | helpers/codes/error-codes.js:1-32 | two distinct entries share a status only for 401 (EXPIRED_TOKEN, USER_INACTIVE) and 403 (INVALID_CREDENTIALS, USER_ALREADY_ACTIVATED) |
| ErrorCodes.OnlyServerErrorIs5xx | helpers/codes/error-codes.js:13-16 | every status is 4xx or 5xx, and only SERVER_ERROR is 5xx |
| MongoDbError.LastTruthyMessageIsLast | helpers/mongo-db-error.js:46-50 | the kept message is "" iff every message is empty, and otherwise is a message after which all messages are empty |
| MongoDbError.UniqueMessage | helpers/mongo-db-error.js:12-28 | `uniqueMessage` is always "already exists": its `try` reads the undeclared `field` at line 16, which throws under "use strict", so the `catch` text is returned; DbErrorHandler gives it the duplicate-key codes |
| MongoDbError.DbErrorHandler | helpers/mongo-db-error.js:12-54 | duplicate-key codes give "already exists", other truthy codes give "", no code gives the last truthy per-path message; the code is always the status argument (default 500) |
| BodyValidators.NameErrors | helpers/body-validators.js:5-17 | the name chain reports at most one message, and none iff the trimmed name is 4-32 ASCII letters |
| BodyValidators.NameErrorOrder | helpers/body-validators.js:5-17 | each of the three messages appears exactly when its check is the first to fail |
| BodyValidators.EmailErrors | helpers/body-validators.js:18-21 | the email chain reports its one message iff the normalised email is not an email |
| BodyValidators.Password1Errors | helpers/body-validators.js:22-30 | password1 is accepted iff it has 6 to 100 characters; at most one message |
| BodyValidators.Password2Errors | helpers/body-validators.js:31-36 | password2 is accepted iff it is non-empty and equals password1; at most one message |
| BodyValidators.SignupValidator | helpers/body-validators.js:4-37 | signup input is accepted iff name, email, password1 and password2 all pass; at most four non-empty messages |
| BodyValidators.SigninValidator | helpers/body-validators.js:39-50 | signin input is accepted iff the email is valid and the password has at least 6 characters |
| BodyValidators.SigninEmptyPasswordReportsTwice | helpers/body-validators.js:44-49 | an empty signin password yields both password messages, in order |
| BodyValidators.EmailValidator | helpers/body-validators.js:52-57 | the email is accepted iff its normalised form is an email |
| BodyValidators.ResetPasswordValidator | helpers/body-validators.js:59-66 | a reset password is accepted iff it has at least 6 characters; an empty one yields both messages |
| UserModel.EmailSetterNormalises | models/user-model.js:13-21 | the email setters always produce a trimmed lower-case email and leave such an email unchanged |
| UserModel.EmailSetter | models/user-model.js:14-19 | the `trim` then `lowercase` setters of the `email` path; EmailSetterNormalises proves the result is trimmed and lower-case and that such an email is left unchanged |
| UserModel.MatchesEmailPattern | models/user-model.js:17 | the unanchored `match` `/\S+@\S+\.\S+/`: an `@` after a non-space, then non-spaces, a `.` and a non-space; a matching email has at least five characters and contains `@` and `.`; EmailFieldErrors accepts a non-empty, untaken email exactly when it matches |
| UserModel.EncryptPassword | models/user-model.js:60-69 | an empty password or a throwing key derivation gives ""; otherwise the result is the hex form of the derived key |
| UserModel.Account.ValidPassword | models/user-model.js:72-74 | `validPassword`: the password encrypts under the account's salt to its stored hash; a non-empty hash accepts only a non-empty password whose derived key has that hash as hex form; Rehashed proves the new password is accepted after the setter, OtherPasswordRejected that no other one is |
| UserModel.NameFieldErrors | models/user-model.js:8-12 | the name path fails iff the name is empty |
| UserModel.EmailFieldErrors | models/user-model.js:13-21 | the email path fails iff the email is empty, does not match the pattern, or is taken by another document |
| UserModel.HashFieldErrors | models/user-model.js:22-26 | the hash path fails iff the hash is shorter than 6 characters |
| UserModel.ValidationErrors | models/user-model.js:6-38 | a document passes validation iff all schema validators pass and its email is not taken; every reported message is non-empty |
| UserModel.Rehashed | models/user-model.js:43-47 | setting a password changes only the salt and the hash, and the account then accepts that password |
| UserModel.EmptyPasswordNeverValid | models/user-model.js:22-26 | no persisted account accepts the empty password |
| UserModel.OtherPasswordRejected | models/user-model.js:72-74 | when the key derivation does not collide, an account accepts no password other than its own |
| UserModel.UserDocument.constructor | models/user-model.js:6-47 | a new document has the trimmed name, the normalised email, the default role and link, a fresh salt, and the hash of the password, which it accepts |
| UserModel.UserDocument.FromAccount | models/user-model.js:79 | a document read from the collection holds exactly the stored account |
| UserModel.UserDocument.SetPassword | models/user-model.js:41-50 | the setter keeps the plain password, draws the salt from the random bytes, and replaces the hash |
| UserModel.LinkHolder | controllers/account-controllers.js:614 | names an account holding the link, or says that none does |
| UserModel.StorePut | models/user-model.js:18 | writing a valid account under its email, with its own or a fresh id, keeps the collection invariant |
| UserModel.UserStore.constructor | models/user-model.js:79 | the collection starts empty and valid |
| UserModel.UserStore.FindOne | controllers/account-controllers.js:64 | `findOne({email})` finds an account exactly when one is stored under the email after the setters; in a valid store the found account's email is that normalised email and it is in stored form |
| UserModel.UserStore.Save | models/user-model.js:6-38 | saving succeeds iff validation passes (including uniqueness); then the account is written under its email, otherwise nothing changes |
| UserModel.UserStore.UpdateResetPasswordLink | controllers/account-controllers.js:559-562 | `updateOne` changes only the reset link of that account |
| UserModel.UserStore.FindByResetLink | controllers/account-controllers.js:612-618 | finds an account whose link equals the token, and finds none iff no account holds it |
| UserModel.UserStore.DeleteMany | app.js:96 | exactly the accounts with the given `isActive` value are removed; the others are untouched |
| AccountControllers.InvalidInput | controllers/account-controllers.js:47-56 | a validation failure is a 422 carrying the first message, or INVALID_INPUT_DATA when that message is empty |
| AccountControllers.Greeting | controllers/account-controllers.js:244 | the mail greeting is never empty: the name, or "unknown user" when there is none |
| AccountControllers.OneHolderPerLink | controllers/account-controllers.js:612-627 | a non-empty reset link is held by at most one account |
| AccountControllers.SupersededLinkUnheld | controllers/account-controllers.js:558-562 | a reset token for an account that now holds another link is held by nobody |
| AccountControllers.ClearedLinkUnheld | controllers/account-controllers.js:629-634 | once the holder's link is set back to '', the old token is held by nobody |
| AccountControllers.Accounts.constructor | app.js:69 | the server starts with an empty, valid collection |
| AccountControllers.Accounts.SessionReply | controllers/account-controllers.js:331-351 | a sign-in reply carries the profile and a token that decodes to the account's id and email, verifies only under the session secret, and expires exactly one hour after sign-in |
| AccountControllers.Accounts.SaveFailed | controllers/account-controllers.js:94-98 | a failed save gives a 500 whose message is empty iff every field message is empty |
| AccountControllers.Accounts.Create | controllers/account-controllers.js:88-98 | the new account is stored exactly when it passes validation; otherwise the collection is unchanged and the save error is returned |
| AccountControllers.Accounts.Signup | controllers/account-controllers.js:45-127 | a rejected body gives 422; a known email gives 409 if active and 401 if not, with no write; otherwise exactly one inactive account is added and mailed a 15-minute token with its id, name and email, and a mail failure gives 500 with the account kept |
| AccountControllers.Accounts.Activate | controllers/account-controllers.js:129-194 | a bad token gives 401, an unknown email 404, an active account 403; otherwise only that account's `isActive` becomes true |
| AccountControllers.Accounts.MarkActive | controllers/account-controllers.js:169-175 | activating a stored account changes only its `isActive` flag, and the save cannot fail |
| AccountControllers.Accounts.SendActivationEmail | controllers/account-controllers.js:196-268 | never writes; unknown email gives 404, active account 403; otherwise a new activation token is mailed, and a mail failure gives no reply |
| AccountControllers.Accounts.Signin | controllers/account-controllers.js:270-352 | never writes; unknown email gives 403, an inactive account 401 before any password check; with the password check undefined, as written, an active account gets a 500 with an empty message; a wrong password 403; a session opens iff the password check is defined (as written it is not) and the account exists, is active and accepts the password |
| AccountControllers.Accounts.FederatedAccount | controllers/account-controllers.js:392-399 | a federated account is active, takes the next id, and accepts the email followed by the session secret as its password |
| AccountControllers.Accounts.FindOrCreate | controllers/account-controllers.js:381-407 | a known email returns its account unchanged, active or not; an unknown one adds exactly one active account |
| AccountControllers.Accounts.SigninGoogle | controllers/account-controllers.js:355-443 | a missing idToken gives 422 and a failed verification 500; a payload without email gets no reply (normalizeEmail throws before any check); an unverified email gives 500; otherwise find-or-create and a session for that account |
| AccountControllers.Accounts.SigninFacebook | controllers/account-controllers.js:445-514 | a failed fetch gives 500, a reply without email no reply; otherwise find-or-create and a session, with no verified-email check |
| AccountControllers.Accounts.ForgotPassword | controllers/account-controllers.js:516-583 | only an active account is found, else 404 with no write; its link is replaced by a fresh one-hour reset token, which is mailed; a mail failure gives no reply but keeps the link |
| AccountControllers.Accounts.ResetPassword | controllers/account-controllers.js:584-647 | the token must verify under the reset secret and be an account's link, else 401; success rehashes that account with a fresh salt, clears its link and leaves the token held by nobody |
| AccountControllers.Accounts.Redeem | controllers/account-controllers.js:629-646 | the holder gets a new salt and hash and the link back to ''; a failed save changes nothing |
| App.ErrorMiddleware | app.js:77-88 | the status is the code or 500 and the message is the message or SERVER_ERROR; the body says success false, echoes the status and passes data through |
| App.NotFound | app.js:72-75 | the fallback raises a 404 with the message "Could not find this route." |
| App.UnmatchedRouteReply | app.js:72-88 | an unmatched route is answered 404 "Could not find this route." |
| App.TableEntryReachesClient | app.js:78-80 | an entry raised by a handler reaches the client with its own status and value |
| App.SilentSaveFailureReply | app.js:80 | a failed save with no field messages reaches the client as 500 SERVER_ERROR |
| App.NightlyPurge | app.js:94-100 | exactly the inactive accounts are deleted; active accounts stay as they were and the invariant holds |
| AccountScenarios.ActivateTwice | controllers/account-controllers.js:160-167 | a second activation with the same token never succeeds, and after a success it gives 403 while the token is live |
| AccountScenarios.ResetReplay | controllers/account-controllers.js:620-633 | once a reset link changed the password, replaying it gives EXPIRED_TOKEN |
| AccountScenarios.ForgotTwice | controllers/account-controllers.js:549-562 | after two reset requests in different seconds, the first link no longer works |
| AccountScenarios.SignupActivateSignin | controllers/account-controllers.js:45-352 | with `signinValidator` on the sign-in route (so the address is normalised as at signup) and the schema's `validPassword`, a successful signup, activation within 15 minutes and sign-in with the signup's address and password opens a session |
| AccountScenarios.SignupActivateSigninAsRouted | routes/account-routes.js:141 | as routed, sign-in looks the address up as typed; after a successful signup whose normalised address differs from the typed one, sign-in with the typed address is refused with INVALID_CREDENTIALS, even with the intended password check |
| AccountScenarios.EmptyPasswordSignin | models/user-model.js:60-61 | the empty password never signs in |
| AccountScenarios.SigninAsWritten | controllers/account-controllers.js:316-320 | as written no credentials ever sign in, and an active account answers 500 with an empty message |
| AccountScenarios.SigninCorrected | models/user-model.js:72-74 | with `validPassword`, a session opens iff the account is active and accepts the password |
| AccountScenarios.FederatedThenLocal | controllers/account-controllers.js:393 | with the schema's `validPassword` (as corrected), an account created by Google sign-in can be signed in locally with the email followed by the session secret; as written that sign-in is the 500 of SigninAsWritten |
| AccountScenarios.EmptyPasswordReset | controllers/account-controllers.js:629-641 | a reset with an empty password writes nothing, so the link stays redeemable; with a live held token it is a 500 |
| AccountScenarios.PurgeFreesInactiveEmail | app.js:94-100 | an unactivated address is refused at signup with 401 until the purge; afterwards only a 500 can stop its signup |
| AccountScenarios.ForgotPasswordAsWired | controllers/account-controllers.js:568-577 | as wired, a reset request for an active account gets no reply, yet its new link is written |

## Left out

- Database and network faults are left out: the `catch` branches of `findOne` and `updateOne` that answer 500 for connection errors, `config/connect-mongo.js`, and `fetch`/`verifyIdToken` failing for reasons other than the reply given. Validation failures of `save()` are modelled.
- Concurrency is left out. Each handler is one atomic step, so two simultaneous signups with one email, and other interleavings of awaits, are not modelled.
- `pbkdf2Sync`, `randomBytes`, `jsonwebtoken`'s cryptography, `validator.normalizeEmail`/`isEmail`, Google's `verifyIdToken` and the Facebook Graph API are parameters or inputs, not implementations. `normalizeEmail` returning `false` for an unparsable address is not modelled; it is a function to strings.
- Mail delivery is I/O, modelled as a success flag plus the mail that was handed over. The mail template is not modelled; `helpers/mailers/appMailer.js` reads `options.href` while the handlers pass `activationHref`, so activation mails carry no usable link. `helpers/mailers/mailer.js` and `config/sendgrid.js` are not part of this model.
- JsStrings.ToLowerCase: maps only A-Z. JavaScript's full Unicode case mapping is not modelled.
- JsStrings.IsWhitespace: the ECMAScript WhiteSpace and LineTerminator set is written out; express-validator's `trim()` is taken to remove the same set as `String.prototype.trim`.
- BodyValidators.NameErrors: validator's `isLength` counts code points (a surrogate pair counts once), and recent versions also leave out the variation selectors U+FE0E and U+FE0F; here `|s|` counts Unicode scalar values, with no such exception. The two agree on names of letters A-Z, which are the only ones accepted.
- Express routing is left out. Only `/signup` attaches a validator (routes/account-routes.js:112), so the other handlers receive their validation result as an input, which is empty as wired; for `/signin` the consequence is the third finding below. `sendActivationEmailController` is mounted on no route; it is modelled as a handler all the same.
- The error middleware's `data` is modelled as an optional string; the handlers never set it.
- Timestamps (`{ timestamps: true }`), CORS, logging, Swagger, `app.listen` and the cron schedule string are left out; the purge is an operation anyone may call.
- `helpers/codes/success-codes.js` is not part of this model. Success messages are the datatype `SuccessCode`, without their strings.
- `middlewares/auth-middleware.js` and `helpers/encrypt-data.js` are not part of this model; neither is used by the handlers.
- The Mongoose document `isNew` flag is modelled; change tracking and `_.extend` beyond the two fields it sets are not.
- Object ids are natural numbers handed out in order; ObjectId generation is not modelled.
- helpers/mongo-db-error.js:10 requires `./error-codes`, while the table is at helpers/codes/error-codes.js. The model assumes this import resolves to that table; if it does not, loading the controllers fails and no handler runs, and the findings below are about the program with the import resolved.
- Jwt.Secrets.Configured: the model assumes the three secrets (`JWT_SECRET_ACCOUNT_ACTIVATION`, `JWT_SECRET`, `JWT_SECRET_RESET_PASSWORD`) are set and non-empty, which `Accounts.Valid()` requires. The server starts without them. Then `jwt.sign` and `jwt.verify` throw: activation and reset-password answer EXPIRED_TOKEN, because their verify is inside the `try` (controllers/account-controllers.js:134, 600-601); signup answers 500 after the account is already saved; resend, Google, Facebook and forgot-password call `jwt.sign` outside any `try` and never reply; sign-in would too, but as written it stops at the 500 of `validPasswords` first. None of these unconfigured paths is modelled.

Where the code and the design documents disagree, the model follows the code:
- The schema has no `isActive` path (models/user-model.js:6-38). The handlers read and write it, and the API documentation gives it default false, so it is a persisted field defaulting to false. Under Mongoose's strict mode it would not be saved.
- A `findOne({ email })` query applies the schema's trim and lowercase setters to the queried email. The store is therefore looked up by `ToLowerCase(Trim(email))`.

## Findings

| source | as written | input that shows it | evidently intended | confidence | as-written member | corrected member |
|---|---|---|---|---|---|---|
| controllers/account-controllers.js:316 | sign-in calls `user.validPasswords`, which the schema does not define; the TypeError goes to `dbErrorHandler` and becomes a 500 with an empty message, shown as SERVER_ERROR | an active account and its correct password | `user.validPassword(password)` (models/user-model.js:72), so a correct password opens a session | high, not executed | AccountScenarios.SigninAsWritten | AccountScenarios.SigninCorrected |
| controllers/account-controllers.js:15 | `resetPassword` is imported from a module that exports only `accountActivation`; calling it throws, and the `catch` returns an `HttpError` without calling `next`, so the request never gets a reply | a forgot-password request for any active account | a reset mailer exists and the handler answers 200 once it is sent | high, not executed | AccountScenarios.ForgotPasswordAsWired | AccountControllers.Accounts.ForgotPassword |
| routes/account-routes.js:141 | `/signin` attaches no validator, so the sign-in handler looks up `req.body.email` as typed (after only the schema's trim and lowercase setters), while `/signup` stored the address `normalizeEmail` returned | signup as `John.Doe@gmail.com`, which `normalizeEmail` stores as `johndoe@gmail.com`, then sign-in with `John.Doe@gmail.com` and the same password | the route attaches `signinValidator` (helpers/body-validators.js:39-50), whose `normalizeEmail()` sanitizer gives the handler the stored form, so a new account signs in with the address it signed up with | medium, not executed | AccountScenarios.SignupActivateSigninAsRouted | AccountScenarios.SignupActivateSignin |
