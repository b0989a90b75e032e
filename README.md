# EasyRent: registration, login and access decisions

EasyRent is a small rental-listing web application: users register as a tenant
or a landlord, log in, and are sent to the dashboard of their role. Accounts
live in a hosted identity service. Each user's role lives in a hosted realtime
database, stored under the path `users/<sanitised email>`. This project models
the decision logic under that glue and proves its properties:

- the password-strength pattern of `validatePassword`, over UTF-16 code units
  (`PasswordValidation`);
- `validateRole` and its 400 guard (`RoleValidation`);
- `sanitizeEmail` and the database path built from it (`EmailKey`);
- the `/dashboard` gate shared by the three server variants (`AccessGate`);
- `POST /register`, `POST /login` and `GET /dashboard` of the plain server
  (`PlainServer`);
- the same routes in the variant that forwards errors to a centralised
  handler, with that handler and `asyncHandler` (`ErrorServer`);
- `POST /verify-recaptcha` of the reCAPTCHA variant (`CaptchaServer`).

Each route is a step function. It maps the state before the request (database
and session role, `Backend.State`) and the outcomes of the remote calls to the
response and the new state. A class `App` per server keeps `db` and
`sessionRole` as fields. Its methods follow the handler's statements, and their
`ensures` tie the new fields and the response to the step function.

The remote calls are oracle parameters:
- `createUserWithEmailAndPassword` and `signInWithEmailAndPassword` give
  `AuthOk` or `AuthFailed(error)`;
- `set` gives `Written` or `WriteFailed(error)`;
- `get` gives `ReadOk`, in which case it sees the modelled database, or
  `ReadFailed(error)`;
- the reCAPTCHA fetch gives `Answered(success)` or `Threw(error)`.

Request-body fields are `Option<string>`. They are truthy when present and
non-empty, as JavaScript's `!x` tests.

`sanitizeEmail` appears twice in the source, at server.js:42-44 and
sevrerwerror.js:43-45. The two copies are identical, so both servers use the
one `EmailKey.Sanitize`. server.js and serverWreCAPTCHA.js have the same
`/dashboard` handler text, so both use `AccessGate.SendDashboard`.

Neither register route (server.js:75-97, sevrerwerror.js:83-104) calls
`validateRole`, so any non-empty role is stored.
`PlainServer.UnvalidatedRoleIsStoredButDenied` shows an "admin" role being
stored, put in the session at login, and denied by the dashboard.

## Model

| member | source | states |
|---|---|---|
| PasswordValidation.LookaheadFromStart | passwordval.js:3 | in a terminator-free input, a lookahead `(?=.*C)` from position 0 holds iff some unit is in class C |
| PasswordValidation.RegexAgreement | passwordval.js:2-5 | `re.test` of the pattern as the engine runs it (every start position tried, `^` only at 0, lookaheads scanning with `.`, `.{9,}$` reaching the end) holds iff ValidatePassword holds: at least 9 units, no line terminator, and at least one of A-Z, one of 0-9 and one non-alphanumeric unit |
| PasswordValidation.ShortRejected | passwordval.js:3 | every password shorter than 9 units is rejected |
| PasswordValidation.MissingClassRejected | passwordval.js:3 | a password with no uppercase letter, no digit or no special unit is rejected, whatever else it holds |
| PasswordValidation.AlphanumericRejected | passwordval.js:3 | a password of ASCII letters and digits only is rejected |
| PasswordValidation.UnderscoreOrSpaceIsSpecial | passwordval.js:3 | `_` and space count as the special unit of `[\W_]` |
| PasswordValidation.TerminatorRejected | passwordval.js:3 | a password holding LF, CR, U+2028 or U+2029 anywhere is rejected |
| PasswordValidation.AppendPreservesAcceptance | passwordval.js:3 | appending units that are not line terminators keeps a password accepted |
| PasswordValidation.PermutationPreservesAcceptance | passwordval.js:3 | two passwords with the same multiset of units are both accepted or both rejected |
| PasswordValidation.EightUnitsRejected | passwordval.js:3 | "Abcdefg1" (8 units) is rejected |
| PasswordValidation.ExampleAccepted | passwordval.js:3 | "Abcdefgh1!" is accepted |
| RoleValidation.ValidateRole | rolevalidation.js:1-3 | true iff the role is present and is exactly "tenant" or "landlord" |
| RoleValidation.TenantAccepted | rolevalidation.js:2 | "tenant" is accepted |
| RoleValidation.LandlordAccepted | rolevalidation.js:2 | "landlord" is accepted |
| RoleValidation.NearMissesRejected | rolevalidation.js:2 | "Tenant", "", " tenant", "admin" and an absent role are rejected |
| RoleValidation.RoleGuard | rolevalidation.js:4-6 | rejects with status 400 and "Role must be either 'tenant' or 'landlord'" exactly when validateRole fails, otherwise continues |
| EmailKey.Sanitize | server.js:42-44 | keeps the length; each position holds `_` where the input had one of `. # $ [ ]`, and the input character otherwise |
| EmailKey.SanitizeKeepsOthers | server.js:43 | a character outside `. # $ [ ]` is unchanged at its position |
| EmailKey.SanitizeClean | server.js:43 | the result contains none of `. # $ [ ]` |
| EmailKey.SanitizeIdempotent | server.js:43 | sanitising twice equals sanitising once |
| EmailKey.SanitizeCollision | server.js:43 | two emails sanitise alike iff they have the same length and, at each position, both hold one of `. # $ [ ] _` or both hold the same other character |
| EmailKey.SanitizeNotInjective | server.js:43 | "a.b", "a#b" and "a_b" are distinct and all sanitise to "a_b" |
| EmailKey.KeyCollision | server.js:87 | two emails get the same `users/` path iff they sanitise alike |
| AccessGate.Gate | server.js:48-56 | grants a page iff validateRole holds of the session role; tenant iff "tenant", landlord iff "landlord" |
| AccessGate.SendDashboard | serverWreCAPTCHA.js:56-65 | status 200 iff the role is valid; "tenant" gets the tenant page, "landlord" the landlord page, any other or unset role 403 with plain text 'Access denied' |
| PlainServer.RegisterStep | server.js:75-97 | 400 "Email, password, and role are required" iff a field is missing or empty, whatever the create and write outcomes, with the state unchanged; 409 "Email is already in use" iff the thrown error has code auth/email-already-in-use; 500 "Error during registration" for any other failure of create or write; 200 iff both succeed, and only then is the path of the sanitised email set to {email, role}; the session never changes |
| PlainServer.LoginStep | server.js:100-129 | 400 "Email and password are required" iff email or password is missing; 401 "Incorrect email or password" iff sign-in or read fails; 404 "User not found" iff no record; on these paths the state is unchanged; 200 iff a record, with its role in the body and in the session; the database never changes |
| PlainServer.RegisterPreservesWellKeyed | server.js:86-88 | registration keeps every record under the path of its own email, with non-empty email and role |
| PlainServer.LoginRecordMatchesEmail | server.js:111-117 | the record found at login belongs to an email that sanitises like the one logging in |
| PlainServer.RegisterThenLogin | server.js:86-121 | after a successful registration, logging in with the same email, when sign-in and the read succeed, answers 200 with the registered role and puts it in the session |
| PlainServer.CollidingEmailsShareRecord | server.js:86-117 | when a second, different email with the same sanitised form registers and both accounts are created and written, the first email's login (sign-in and read succeeding) returns the second account's role |
| PlainServer.CollidingEmailsExist | server.js:43 | "a.b@x.com" and "a_b@x.com" are distinct and share a database path |
| PlainServer.UnvalidatedRoleIsStoredButDenied | server.js:76-90 | a registration with role "admin" succeeds and stores it; login puts it in the session; the dashboard answers 403 |
| PlainServer.App.Register | server.js:75-97 | the response and the new database and session equal RegisterStep's on the old state, and the class invariant is kept |
| PlainServer.App.Login | server.js:100-129 | the response and the new database and session equal LoginStep's on the old state, and the class invariant is kept |
| PlainServer.App.Dashboard | server.js:47-57 | answers 200 iff the session role is valid, with the gate's page or 403, and changes nothing |
| ErrorServer.HandleError | sevrerwerror.js:138-143 | status is err.status if truthy, else 500; the message is err.message if truthy, else 'Internal Server Error'; the body is always {error: message} and never empty |
| ErrorServer.Dispatch | sevrerwerror.js:137-143 | a route's own response is sent as is; a `next(error)` is answered by the error handler |
| ErrorServer.AsyncHandler | sevrerwerror.js:48-52 | a rejected route promise becomes `next(reason)`; a fulfilled one keeps the route's outcome |
| ErrorServer.RejectionReachesHandler | sevrerwerror.js:50 | a rejected route promise is answered by the error handler with a {error} body |
| ErrorServer.DashboardOutcome | sevrerwerror.js:55-65 | tenant and landlord get their pages; any other or unset role goes to `next`, so the client gets 403 with {error: 'Access denied'} |
| ErrorServer.RegisterRoute | sevrerwerror.js:83-104 | a missing field gives next(400 "Email, password, and role are required"); email-in-use gives next(409); any other error is forwarded unchanged; success writes {email, role} and answers 200; the session never changes |
| ErrorServer.LoginRoute | sevrerwerror.js:107-135 | missing field gives next(400); any sign-in or read failure gives next(401 "Incorrect email or password"); no record gives next(404); a record answers 200 with its role and only then sets the session |
| ErrorServer.RegisterAgreesWithPlain | sevrerwerror.js:98-102 | same new state as server.js; the same status, except for a forwarded non-409 error with a truthy status, whose own status is then sent |
| ErrorServer.LoginAgreesWithPlain | sevrerwerror.js:110-134 | same new state and status as server.js; each failure message is sent as {error} instead of {message}; the 200 response is the same |
| ErrorServer.DashboardAgreesWithPlain | sevrerwerror.js:62-64 | same status as server.js's dashboard, and the same page when access is granted |
| ErrorServer.RoleGuardThroughHandler | rolevalidation.js:5 | a rejected role reaches the error handler as 400 with {error: "Role must be either 'tenant' or 'landlord'"} |
| ErrorServer.App.Register | sevrerwerror.js:83-104 | the response is the dispatched outcome, through asyncHandler, of RegisterRoute on the old state, the new state is RegisterRoute's, and the class invariant is kept |
| ErrorServer.App.Login | sevrerwerror.js:107-135 | the response is the dispatched outcome, through asyncHandler, of LoginRoute on the old state, the new state is LoginRoute's, and the class invariant is kept |
| ErrorServer.App.Dashboard | sevrerwerror.js:55-65 | answers 200 iff the session role is valid, otherwise the handler's 403, and changes nothing |
| CaptchaServer.VerifyRecaptcha | serverWreCAPTCHA.js:73-91 | a missing token gives 400 'No reCAPTCHA token provided.'; a truthy `success` gives 200; a falsy one 400 'reCAPTCHA verification failed.'; an exception 500 'Error verifying reCAPTCHA.' with the error; `success` is true iff the status is 200 |
| CaptchaServer.MissingTokenIgnoresVerifier | serverWreCAPTCHA.js:75-78 | without a token the response does not depend on the verifier |
| CaptchaServer.SuccessOnlyWhenVerified | serverWreCAPTCHA.js:83-86 | status 200 iff a token is present and the verifier answered with success |

## Left out

- The identity service and the database API (`createUserWithEmailAndPassword`, `signInWithEmailAndPassword`, `ref`, `set`, `get`) are foreign calls. Each is an outcome parameter. `get` reads the modelled map when it does not fail, and a failed `set` writes nothing.
- Express plumbing is not modelled: middleware setup, body parsing, CORS, session configuration, static pages (`/`, `/register`, `/resetPassword`, `/searchResults`), `app.listen`, environment loading and console logging. `sendFile` paths are the `Page` values.
- The reCAPTCHA HTTP request and its URL (serverWreCAPTCHA.js:79-82) are network I/O. The route receives the fetch-and-parse outcome.
- `./config/*` and `./routes/*`, imported by serverWreCAPTCHA.js, are not part of this model. Any route of theirs that shadows `/dashboard` is not captured.
- property_listing.js is browser DOM code and is not part of this model.
- AsyncHandler: models only "a rejection goes to `next`". Promise scheduling is left out. In the modelled handlers every thrown error is caught inside the route, so no route promise rejects.
- Request-body fields are modelled as absent or a string. Other JSON values (numbers, `null`, objects) are left out, and so is JavaScript's coercion of them.
- `err.status` is modelled as an optional integer. A status Express itself refuses, such as a non-numeric or out-of-range code, is left out.
- CaptchaServer.VerifyRecaptcha: the 500 body carries the whole error value, whereas `JSON.stringify` keeps only an Error's enumerable own properties (often none); the serialised form of `error` is not modelled.
- CaptchaServer.VerifyRecaptcha: the verifier's `success` field is modelled as a boolean, not as an arbitrary JSON value tested for truthiness.
- The model holds one database and one client's session. Several concurrent clients are not modelled.
- The regex engine's search is modelled for this pattern only, not as a general regular-expression matcher.
