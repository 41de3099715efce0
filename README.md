# auth-nexus-package, modelled in Dafny

This project models the credential lifecycle of the auth-nexus package. It covers:

- registration, login, email verification, password reset and the `/me` profile route;
- the `User` schema those routes rely on: email normalisation and validation, defaults, the role enum, the pre-save rehash, `comparePassword`, the `toJSON` redaction and the three token generators;
- the webhook service that announces `user.*` events;
- the `AuthCore` object, which resolves its configuration, initialises once, sets up services and offers `createUser`, `authenticateUser` and `verifyEmail`;
- the bearer-token middleware;
- the browser-side `AuthClient` and its token state.

MongoDB is replaced by an in-memory collection, `UserStore.UserTable`. It holds the records by `_id`, the unique index on `email` and the next fresh id. Its invariant `Indexed` says that:

- every record has passed validation;
- every stored password is a digest;
- every stored email is lower case;
- the index agrees with the records in both directions.

Passwords are hashed by an abstract, injective `Hash`; bcrypt's 72-byte limit is listed under "Left out". A JSON Web Token is a value carrying:

- a flag saying whether its signature checks;
- its claims;
- its expiry, compared against a `now` parameter as section 4.1.4 of RFC 7519 describes.

The effects are recorded in an `Effects.Outbox`:

- `emailsSent` lists every email handed to the mail service;
- `published` lists every `trigger` that got past the subscription filter, together with the delivery attempts it made.

Whether the mail transport accepts a message (`mailer`) and whether a webhook endpoint answers (`answers`) are parameters. Handlers take the decoded token, and the middleware takes a `decode` function for the header text.

The modules follow the package's files:

| Module | Models |
|---|---|
| `UserModel` | `src/models/User.js` |
| `UserStore` | the collection the model saves to |
| `Webhooks` | `src/services/WebhookService.js` |
| `Effects` | the calls into the mail and webhook services |
| `Middleware` | `src/middleware/auth.js` |
| `Routes` | `src/routes/auth.js` |
| `Core` | `src/core/AuthCore.js` |
| `Client` | `src/client/AuthClient.js` |
| `Js` | shared JavaScript value shapes |
| `Tokens` | shared token shapes |
| `Http` | shared reply shapes |
| `Settings` | shared configuration shapes |

Several quirks of the package are reproduced as written, and lemmas or contracts exhibit them:

- Any signed token, a verification or reset token included, passes the middleware (`Middleware.ResetTokenAuthorises`).
- Replies and webhook payloads use `toObject()`, so they carry the password digest (`UserModel.ToObject`).
- `AuthCore.verifyEmail` checks neither the purpose nor whether the user is already verified.
- `/register` can return 400 after the user was saved, when the verification email is rejected.
- In `/reset-password`, a new password that is too short is reported as an invalid reset token.
- `createUser` passes the base URL where the mail service expects the token (`Core.CreationMail`).

## Model

| member | source | states |
|---|---|---|
| Tokens.Verify | src/routes/auth.js:98 | a token verifies iff its signature checks and `now` is before its expiry; a bad signature and an expired token give the two distinct errors; success returns the claims |
| Tokens.Sign | src/models/User.js:80-89 | a signed token verifies exactly until `now + ttl`, and then yields the claims it was signed with |
| UserModel.TrimStart | src/models/User.js:11 | the front cut keeps a suffix of the input and removes only white space |
| UserModel.TrimEnd | src/models/User.js:11 | the back cut keeps a prefix of the input and removes only white space |
| UserModel.Trim | src/models/User.js:11 | the trimmed string neither starts nor ends with white space |
| UserModel.TrimKeepsMiddle | src/models/User.js:11 | `trim` keeps one contiguous piece of the input, and everything it cuts in front of and behind that piece is white space |
| UserModel.Lower | src/models/User.js:12 | lower-casing keeps the length |
| UserModel.NormalizedIsLowerCase | src/models/User.js:11-12 | the stored form of any email has no capital letter |
| UserModel.TrimStartLowerCommute | src/models/User.js:11-12 | trimming the front commutes with lower-casing |
| UserModel.TrimEndLowerCommute | src/models/User.js:11-12 | trimming the back commutes with lower-casing |
| UserModel.TrimLowerCommute | src/models/User.js:11-12 | the `trim` and `lowercase` setters give the same result in either order |
| UserModel.LowerIdempotent | src/models/User.js:12 | lower-casing twice is lower-casing once |
| UserModel.TrimIdempotent | src/models/User.js:11 | trimming twice is trimming once |
| UserModel.NormalizeIdempotent | src/models/User.js:11-12 | normalising a stored email leaves it unchanged, so a query by a stored email finds the record |
| UserModel.SplitsFromSomewhere | src/models/User.js:13 | the left-to-right scan for an `@` succeeds iff some `@` at or after the start position splits the string as the pattern requires |
| UserModel.ValidEmailSplits | src/models/User.js:13 | the email pattern accepts exactly the strings that some `@` splits into a dotted word and a domain ending in a 2- or 3-character part |
| UserModel.ValidEmailIsTrimmed | src/models/User.js:11-13 | an address the pattern accepts is unchanged by `trim` |
| UserModel.StoredFormIsNormal | src/models/User.js:11-13 | a lower-case address that the pattern accepts is already in stored form |
| UserModel.TestAddressIsValid | src/models/User.js:13 | "test@example.com" satisfies the pattern |
| UserModel.Compare | src/models/User.js:74-76 | `comparePassword(c)` is true iff the stored digest is the hash of `c`; a plaintext never matches |
| UserModel.Rehash | src/models/User.js:61-71 | after the hook the password is a digest; a plaintext is replaced by its hash, so only that plaintext compares true; a digest is kept as it is |
| UserModel.NewDoc | src/models/User.js:7-36 | a new document has its email in stored form (idempotent, lower case) and its first and last names trimmed; a given `isVerified` and role are kept, and they default to false and "user" when left out; its password is still plaintext |
| UserModel.Utf16Length | src/models/User.js:18 | the length `minlength` measures counts UTF-16 code units: at least one and at most two per character, and zero only for the empty string |
| UserModel.AstralPasswordIsLongEnough | src/models/User.js:18 | three characters outside the Basic Multilingual Plane are six code units, so such a password passes `minlength` |
| UserModel.Validate | src/models/User.js:7-36 | no errors iff the document is admissible; a password shorter than 6 UTF-16 code units, an email the pattern rejects, and a role outside the enum are each reported exactly when they occur |
| UserModel.PreSave | src/models/User.js:61-71 | only the password changes; a modified (plaintext) password is rehashed so that exactly that plaintext compares true; an unmodified digest leaves the document as it was |
| UserModel.ToObject | src/models/User.js:47-56 | `toObject()` keeps `_id`, email, `isVerified`, role and the password digest, because the `toJSON` redaction does not apply to it |
| UserModel.RedactForJson | src/models/User.js:47-55 | the transform removes exactly the five secret paths and keeps every other field and its value |
| UserModel.AuthToken | src/models/User.js:79-90 | the session token carries `_id`, email, role and `isVerified`, has no purpose, and verifies for exactly 7 days |
| UserModel.VerificationToken | src/models/User.js:93-95 | the verification token carries `_id` and purpose "email_verification", and verifies for exactly 24 hours |
| UserModel.ResetToken | src/models/User.js:98-100 | the reset token carries `_id` and purpose "password_reset", and verifies for exactly 1 hour |
| UserModel.TokenKindsDiffer | src/models/User.js:79-100 | only the session token lacks a purpose; the verification and reset purposes differ; reset expires before verification, which expires before session |
| UserStore.EmailsUnique | src/models/User.js:10 | in a collection whose index is sound, two records with the same email are the same record |
| UserStore.IndexAnswersTaken | src/models/User.js:10 | the unique index answers exactly whether another record holds an email |
| UserStore.EditIsSaveable | src/routes/auth.js:63-64 | a stored record whose email, role and digest are untouched passes validation again and collides with no other record |
| UserStore.Lookup | src/models/User.js:10-12 | a query by email finds the record holding its normalised form, and finds nothing iff no record holds it |
| UserStore.StoredIsPersisted | src/models/User.js:61-71 | a validated document in stored form, once saved for the first time, meets the collection invariant for records |
| UserStore.ResavedIsPersisted | src/models/User.js:61-71 | the same holds for a later save of a loaded document |
| UserStore.InsertKeepsIndexed | src/models/User.js:10 | adding a record under the next fresh id with an email nobody holds keeps the collection invariant |
| UserStore.ReplaceKeepsIndexed | src/models/User.js:10 | replacing a record with one whose email no other record holds keeps the collection invariant |
| UserStore.UserTable.FindOne | src/routes/auth.js:14 | `findOne({ email })` returns the stored record holding the normalised email, and returns nothing iff no record holds it |
| UserStore.UserTable.Insert | src/routes/auth.js:20-21 | the first save: a validation failure or a taken email writes nothing and reports the error; otherwise exactly one record is added under a fresh id, with a hashed password and timestamps; the invariant is kept |
| UserStore.UserTable.Update | src/routes/auth.js:170-171 | the save of a loaded document: validation errors and a taken email write nothing; an unmodified document is a no-op; otherwise only that record changes (the password rehashed if modified, `updatedAt` set); the invariant is kept |
| UserStore.UserTable.Edit | src/routes/auth.js:63-64 | saving a loaded record with its email, role and digest untouched cannot fail, and changes only that record |
| Webhooks.NewService | src/services/WebhookService.js:4-7 | a missing `webhooks` list becomes an empty one |
| Webhooks.Select | src/services/WebhookService.js:10-11 | the filter throws iff some entry has no `events` list; otherwise it keeps each entry, as often as it occurs, iff it subscribes to the event |
| Webhooks.Headers | src/services/WebhookService.js:26-30 | the headers hold exactly Content-Type, User-Agent and the subscription's own keys; the subscription's values win; otherwise the fixed values are used |
| Webhooks.Timeout | src/services/WebhookService.js:34 | the timeout is never 0: a truthy timeout is used as given, and a falsy one becomes 5000 |
| Webhooks.SendWebhook | src/services/WebhookService.js:17-46 | one POST to the subscription's URL, carrying the envelope with event, data, timestamp and `webhook_id` (the id when truthy, else the URL), the merged headers and the timeout; its outcome is only recorded |
| Webhooks.Trigger | src/services/WebhookService.js:9-15 | `trigger` fails iff an entry lacks `events`; otherwise it makes one attempt per subscribed entry and none for any other entry |
| Webhooks.OutcomesAreSwallowed | src/services/WebhookService.js:9-15 | whether endpoints answer changes neither whether `trigger` fails nor the requests it sends |
| Webhooks.MissingListSendsNothing | src/services/WebhookService.js:6 | a service configured without a list sends nothing |
| Webhooks.OneAttemptDespiteRetries | src/services/WebhookService.js:41-44 | a subscription with `retries > 0` still gets exactly one attempt |
| Effects.AnnouncementShape | src/routes/auth.js:30-32 | with no webhook service nothing is published; with one, the call fails iff an entry lacks `events`, and otherwise publishes one entry for the event, whose every attempt carries the user's snapshot |
| Effects.Outbox.Mail | src/routes/auth.js:24-27 | with a mail service, the email is appended to the log and a rejection is reported with its reason; without one, nothing is sent and nothing fails |
| Effects.Outbox.Announce | src/routes/auth.js:30-32 | the event log grows by exactly what `trigger` published, and the call succeeds iff `trigger` did not throw |
| Middleware.ReplaceFirst | src/middleware/auth.js:6 | `replace` with a string pattern replaces only the first occurrence, and leaves a string without one unchanged |
| Middleware.BearerHeaderYieldsToken | src/middleware/auth.js:6 | a header "Bearer t" yields exactly t |
| Middleware.BareHeaderIsToken | src/middleware/auth.js:6 | a header without "Bearer " anywhere in it is taken whole as the token |
| Middleware.SchemeRemovedAnywhere | src/middleware/auth.js:6 | "Bearer " is removed wherever it first occurs, so "Basic Bearer abc" yields "Basic abc", which is looser than section 2.1 of RFC 6750 |
| Middleware.Decide | src/middleware/auth.js:6-25 | an absent or empty token gives 401 "Access denied. No token provided."; a verification failure gives 401 "Invalid token."; the request passes iff the token verifies and its `_id` is stored, and then carries that user and the token; otherwise "Invalid token. User not found." |
| Middleware.ResetTokenAuthorises | src/middleware/auth.js:12-22 | an unexpired password-reset token of a stored user passes the middleware, because no purpose is checked |
| Middleware.VerificationTokenAuthorises | src/middleware/auth.js:12-22 | the same holds for an email-verification token |
| Middleware.Req.Authenticate | src/middleware/auth.js:14-25 | a denial sets only the response and does not call `next`; a pass sets `req.user` and `req.token` and calls `next` |
| Routes.Register | src/routes/auth.js:9-45 | an existing email gives 400 "User already exists with this email" and changes nothing; an invalid document changes nothing. Otherwise it adds exactly one record (stored email, unverified, role "user"), then mails exactly one verification token when email is enabled. A rejected email gives 400 with the record still saved. Then it publishes "user.registered" and replies 201 with the snapshot and a session token. |
| Routes.Enrol | src/routes/auth.js:20-44 | the save and what follows it, for an email nobody holds |
| Routes.Welcome | src/routes/auth.js:23-41 | after the save: the verification email, then the event, then the 201 reply, each failure ending the request with 400 |
| Routes.Login | src/routes/auth.js:48-82 | an unknown email and a wrong password both give 401 "Invalid credentials" and change nothing. A match changes only that user's `lastLogin` (and `updatedAt`), publishes "user.login" once, and replies 200 with a session token. |
| Routes.RegisteredUserLogsIn | src/routes/auth.js:52-60 | a user that `/register` stored is found by `/login` under the registered email, the chosen password matches, and the session token issued at any time verifies until it expires 7 days later |
| Routes.RecordLogin | src/routes/auth.js:62-78 | the steps after a matching password: only `lastLogin` changes, then the event and the 200 reply |
| Routes.Me | src/routes/auth.js:85-90 | a request the middleware denies gets its 401; one it passes gets 200 with the user's snapshot, whatever kind of token it presented |
| Routes.VerifyEmail | src/routes/auth.js:93-127 | a signature or expiry failure gives "Invalid or expired verification token"; a wrong purpose gives "Invalid verification token"; a missing user gives "User not found"; an already verified user gives "Email already verified"; none of these changes anything. Otherwise only `isVerified` becomes true, and one "user.verified" is published. |
| Routes.MarkVerified | src/routes/auth.js:112-123 | the steps for an unverified user: only `isVerified` (and `updatedAt`) changes, then the event and the reply |
| Routes.ForgotPassword | src/routes/auth.js:130-152 | the table is never modified; an unknown email gives 404 "User not found"; a known one is mailed one password-reset token when email is enabled |
| Routes.ResetPassword | src/routes/auth.js:155-180 | a signature or expiry failure, and a new password shorter than 6 UTF-16 code units, give "Invalid or expired reset token"; a wrong purpose gives "Invalid reset token"; a missing user gives "User not found"; none of these changes anything. Otherwise only that user's digest changes, to the hash of the new password. |
| Core.Resolve | src/core/AuthCore.js:10-17 | a key passed in the argument always wins, even a falsy one; a key left out takes the environment variable. For `baseUrl` that is the environment value when truthy, else "http://localhost:3000"; the two configs default to `{}`. |
| Core.MissingBaseUrlIsTruthy | src/core/AuthCore.js:13 | a base URL left out is never falsy |
| Core.GivenEmptyBaseUrlSurvives | src/core/AuthCore.js:13-16 | an empty base URL passed explicitly survives the default, because of the trailing spread |
| Core.ServicesFor | src/core/AuthCore.js:63-73 | each service is created iff its config is present and enabled; otherwise the previous one is kept |
| Core.ServicesFollowArgument | src/core/AuthCore.js:63-73 | for a fresh core, the email (webhook) service exists iff the argument passed an enabled email (webhook) config |
| Core.CreationMail | src/core/AuthCore.js:89 | the verification email from `createUser` carries the base URL where the token belongs, and no base URL |
| Core.Create | src/core/AuthCore.js:84-97 | an invalid document or a taken email changes nothing; otherwise exactly one record is added, then the mail and the "user.created" event follow |
| Core.Announce | src/core/AuthCore.js:87-97 | the mail is sent when there is a service; a rejection stops before the event; a failing trigger is an error; otherwise the user is returned |
| Core.AuthCore.constructor | src/core/AuthCore.js:9-23 | the config is resolved; no model, no services, not initialised |
| Core.AuthCore.Initialize | src/core/AuthCore.js:25-42 | a second call changes nothing; a failed connection rethrows and changes nothing; otherwise the model and services are set up and the core is initialised |
| Core.AuthCore.SetupServices | src/core/AuthCore.js:63-73 | the services become those the config enables, and the rest are kept |
| Core.AuthCore.CreateUser | src/core/AuthCore.js:83-98 | before `initialize` it throws and changes nothing; otherwise it does what `Core.Create` states with the core's services and base URL |
| Core.AuthCore.AuthenticateUser | src/core/AuthCore.js:100-119 | an unknown email and a wrong password throw the same "Invalid credentials"; a match publishes "user.login" and returns the user and a session token; the collection is never modified, so `lastLogin` stays as it was |
| Core.AuthCore.VerifyEmail | src/core/AuthCore.js:121-143 | every failure is "Invalid or expired verification token"; any validly signed token whose user exists marks that user verified, whatever its purpose; an already verified user is returned unchanged |
| Core.AuthCore.Confirm | src/core/AuthCore.js:131-132 | setting `isVerified` and saving changes only that record, and only when it was not yet verified |
| Client.StripTrailingSlash | src/client/AuthClient.js:3 | one trailing slash is removed; a string without one is kept |
| Client.OnlyOneSlashRemoved | src/client/AuthClient.js:3 | of two trailing slashes, one remains |
| Client.HeadersFor | src/client/AuthClient.js:11-21 | Content-Type is always "application/json"; Authorization is present iff the token is truthy, and is then "Bearer " followed by the token; there are no other keys |
| Client.ClientHeaderReachesMiddleware | src/client/AuthClient.js:16-18 | the middleware reads the client's Authorization header back as exactly the client's token |
| Client.AuthClient.constructor | src/client/AuthClient.js:2-5 | the base URL defaults to "http://localhost:3000/auth" and loses one trailing slash; the token starts null |
| Client.AuthClient.SetToken | src/client/AuthClient.js:7-9 | the token becomes the given one |
| Client.AuthClient.Logout | src/client/AuthClient.js:93-95 | the token becomes null |
| Client.AuthClient.Register | src/client/AuthClient.js:23-37 | a POST to `baseUrl/register` with the current headers and the user data; the token is replaced iff the response carries a truthy token |
| Client.AuthClient.Login | src/client/AuthClient.js:39-53 | a POST to `baseUrl/login` with email and password; the token is replaced iff the response carries a truthy token |
| Client.AuthClient.GetProfile | src/client/AuthClient.js:55-61 | a GET of `baseUrl/me` carrying the bearer header iff a token is held; the token is not changed |
| Client.AuthClient.VerifyEmail | src/client/AuthClient.js:63-71 | a POST to `baseUrl/verify-email` with the token in the body; the stored token is not changed |
| Client.AuthClient.ForgotPassword | src/client/AuthClient.js:73-81 | a POST to `baseUrl/forgot-password` with the email; the stored token is not changed |
| Client.AuthClient.ResetPassword | src/client/AuthClient.js:83-91 | a POST to `baseUrl/reset-password` with the token and the new password; the stored token is not changed |

## Left out

- The MongoDB connection (`src/core/AuthCore.js:44-55`) is a parameter of `Initialize` saying whether `mongoose.connect` succeeds. Its connection options are not modelled.
- Console logging is left out.
- The connection's other failure modes are not modelled.
- Real bcrypt salting and its cost factor are not modelled. `Hash` is an injective function, and a digest passes `minlength` as a 60-character bcrypt string would.
- JWT signing and the HMAC check are abstract. `jwtSecret` is carried in the configuration, but a missing secret, which makes `jsonwebtoken` throw, is not modelled.
- Parsing a token string is abstract. The routes take the decoded token, and the middleware takes a `decode` function.
- Time is a `nat` number of seconds, and ISO-8601 formatting of the webhook timestamp is not modelled.
- Mongoose's `__v` is a constant 0. The timestamp plugin is modelled only as `createdAt`/`updatedAt` set on save.
- `src/services/EmailService.js` (the nodemailer transport and HTML templates) is not part of this model. An email is recorded as its kind, recipient, token argument and base URL, and the transport's outcome is the `mailer` parameter.
- axios delivery and the enforcement of the timeout are left out. Whether an endpoint answers is the `answers` parameter.
- The parallelism of `Promise.allSettled` is left out. Attempts are listed in subscription order.
- Concurrency is left out, including the race between the `/register` lookup and its save. Each operation runs atomically.
- Express framing and body parsing are left out. Routes take the body fields as values.
- Body fields that are absent (`undefined`) are not modelled. In the package an absent email turns `findOne` into a match-anything query.
- `fetch` in `AuthClient` is left out. A client call returns the request it would issue and takes the parsed response as a parameter. A network failure or a `response.json()` failure is not modelled.
- Client.AuthClient.constructor: a `null` or non-string base URL, on which `replace` throws, is not modelled.
- UserModel.Lower: ASCII case mapping only. JavaScript's full Unicode `toLowerCase` is not modelled. This has two costs. JavaScript lower-cases U+212A KELVIN SIGN to "k", so the package accepts "\u212Aate@example.com" and stores "kate@example.com", while `Admissible` here rejects it. Full `toLowerCase` can also change the length ("İ" becomes two code units), so the `|r| == |s|` clause holds only for the ASCII mapping.
- UserStore.UserTable.Update: a digest has no text form here, so assigning a plaintext equal to the stored digest's bcrypt string counts as a change. In the package the path is then not marked modified: the hook skips hashing, nothing is written, the old password keeps working and the posted string does not log in. The model rehashes the string and bumps `updatedAt`.
- Routes.ResetPassword: the same gap. A `newPassword` equal to the stored digest's bcrypt string, which every `/register` and `/login` reply carries, leaves the package's record unchanged with a 200 reply. The model stores the hash of that string, so the posted string logs in and the old password stops working.
- Core.AuthCore.Router has no contract of its own. It hands the routes the core's model flag, services and config by value, while the package shares the `services` object, so services added by a later `initialize` reach an earlier router there but not here.
- Core.AuthCore.Router builds a fresh set of routes on each call. In the package, `src/routes/auth.js:2` creates one `router` when the module loads, and every `getRouter()` call, from any `AuthCore`, adds its handlers behind those already there. The first call's handlers answer every request, so a router taken before `initialize` keeps failing with `User` undefined even after `initialize` and a second `getRouter()`.
- Core.AuthCore.SetupServices: the model assumes the email service constructs. `src/services/EmailService.js` calls `nodemailer.createTransporter`, while nodemailer's factory is named `createTransport`, so in the package `new EmailService(...)` would throw whenever `emailConfig.enabled` is set. `initialize` would then rethrow with `models` set, no webhook service created and `isInitialized` false, where the model ends initialised with both services.
- UserModel.Rehash: bcrypt reads only the first 72 bytes of the UTF-8 encoding of a password, so two passwords sharing those bytes both compare true. `Hash` here is injective, so the "only that plaintext compares true" half holds in the package only for passwords of at most 72 bytes.
- UserModel.PreSave: the same 72-byte limit applies. Its "exactly that plaintext compares true" clause holds in the package only for passwords of at most 72 bytes.
- UserModel.Compare: the same 72-byte limit applies to `comparePassword`.
- `src/index.js` and the demo scripts are not part of this model. They hold re-exports and usage examples.

A few further facts about the code that the model reproduces:

- Verify-email and reset-password failures are not uniformly opaque. The routes distinguish a wrong purpose ("Invalid verification token", "Invalid reset token"), a missing user ("User not found") and an already verified email.
- The session token carries no purpose, and the middleware never looks at the purpose, so an authorised request does not need a session token.
- The routes await `trigger`, so events block the reply, and a subscription without an `events` list makes the request fail.
- `AuthCore.verifyEmail` behaves differently from the verify-email route: it skips the purpose and already-verified checks.
- Token lifetimes and the hashing work factor are fixed in the code: 7 days, 24 hours and 1 hour, and cost 12.
- Sending an email is awaited, so a rejected email fails `/register`, `/forgot-password` and `createUser`.
- Event payloads are built with `toObject()`, so they include the password digest.
