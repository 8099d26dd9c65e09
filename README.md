# Energy-management service: sign-in, registration, second factor and usage tips

This project models the decision logic of the energy-management service's
Express routers, and proves what that logic promises.

- **Usage tips** (`generateTips`). The service averages the monthly totals
  of electric consumption, water consumption and cost. It then returns three
  pieces of advice, in the order electric, water, cost. Each tip is a warning
  when its average is strictly above 100, 500 or 50 respectively, and praise
  otherwise.
- **`POST /register`**. Seven body fields must all be truthy. The password is
  hashed with bcrypt at cost 10, the row is inserted, and the new row's id is
  returned. A failure in either call gives a 500.
- **`POST /login`**. Email and password must be truthy. The user is looked up
  by email and the password is compared against the stored hash. On success a
  JWT is signed carrying the row's `userId` and `role`, valid for `1h`.
  A missing account and a wrong password both get the same
  `401 Invalid email or password`.
- **`POST /enable-2fa`**. A fresh 20-byte TOTP secret overwrites the user's
  `twoFASecret`. The handler then renders the `otpauth://` URL as a QR code
  and returns the base32 secret together with the image.
- **`POST /verify-2fa`**. The handler reads the stored secret and asks the
  TOTP verifier about the submitted token. It answers 200, 400 or 500.
- Both second-factor routes sit behind one rate limiter. Its window is
  15·60·1000 = 900000 ms and it admits 5 requests per IP.

How the model is built:

- The calls out of the handlers are parameters, and each can fail.
  - bcrypt, the JWT signer, the secret generator, the TOTP verifier
    (RFC 6238, built on RFC 4226 HOTP), the QR renderer and the database
    queries of `/login` and `/register` are function-typed parameters.
    Each returns `Attempt<T>`, which is either `Done(value)` or
    `Threw(message)`.
  - In the second-factor routes, the database is the `UserTable` object.
    An error from its UPDATE or SELECT is the `storeFault` parameter;
    `VerifySecondFactor` takes the SELECT's outcome as a ready-made
    `Attempt`.
  - So every error path of the handlers is a branch of the model. That
    includes a secret generator that throws in `/enable-2fa`: the handler's
    promise then rejects uncaught and the table is unchanged.
- `Register` and `Login` are pure functions. Each returns the response and
  the ordered list of calls it made into those libraries. This makes "no
  lookup before a 400" and "no insert after a 400" statable facts.
- The `users` table, as the second-factor routes see it, is the class
  `TwoFactor.UserTable`. Its field is `secrets: map<UserId, Option<string>>`,
  and `EnableSecondFactor` overwrites one entry.
- Request fields are JSON values with JavaScript truthiness (`Http.Truthy`).
  So `""`, `0`, `false`, `null` and an absent field all count as missing.
- The 400 message of `/register` is kept as the code spells it:
  `All fiuserelds are required`.
- The proofs expose two ways in which an unknown email and a known one
  still differ.
  - When the password is simply wrong, the responses are identical. But
    bcrypt's compare runs only when the email matched a row
    (`Accounts.PasswordComparedOnlyForKnownEmail`), so the amount of work
    done still depends on whether the account exists.
  - When bcrypt's compare throws (for instance on a password that is not a
    string), a known email gets a 500 while an unknown one gets the 401
    (`Accounts.CompareErrorSeparatesKnownEmail`).
- Every 500 from `/register`, `/login` and `/verify-2fa` sends the thrown
  error's message back to the caller in an `error` field
  (`Accounts.RegisterFailsIff`, `Accounts.LoginFailsIff`,
  `TwoFactor.VerifySecondFactor`), so database and library errors reach
  the client.
- A throttled request gets status 429, and the limiter's message is sent
  as a bare text body, not as a JSON `message` field.

The model covers only what the code does. The code has no session store
and no login rate limit. It has no TOTP
step check of its own and no "second factor not enabled" rejection. It has
no password re-check or caller binding on `/enable-2fa`, and no rollback of
the stored secret when QR rendering fails.

Files:

- `http.dfy`: JSON values, truthiness, `Attempt`, `Response`.
- `usage_tips.dfy`: `generateTips`.
- `accounts.dfy`: the `/register` and `/login` handlers.
- `two_factor.dfy`: the limiter configuration, the `/enable-2fa` and `/verify-2fa` handlers, and the users table.

## Model

| member | source | states |
|---|---|---|
| `UsageTips.Average` | routers/post.js:31-33 | the average is NaN (`None`) exactly for no months; otherwise average × number of months equals the folded total |
| `UsageTips.TotalOfUniform` | routers/post.js:31-33 | folding a column whose every entry is c gives c × number of months |
| `UsageTips.TotalMonotone` | routers/post.js:31-33 | the `reduce` total is monotone in every month's entry |
| `UsageTips.GenerateTips` | routers/post.js:29-54 | exactly three tips, in the order electric, water, cost, each one of its two texts |
| `UsageTips.TipsDiffer` | routers/post.js:35-51 | a metric's warning text and its praise text differ |
| `UsageTips.AboveIffTotalExceeds` | routers/post.js:31-51 | the JavaScript test `avg > threshold` holds iff there is a month and total > threshold × months |
| `UsageTips.TipIsHighIff` | routers/post.js:35-51 | each tip is the warning iff there is data and its average is strictly above 100 / 500 / 50, and the praise tip otherwise |
| `UsageTips.NoDataGivesGoodTips` | routers/post.js:31-51 | no months (every average NaN) gives the three praise tips |
| `UsageTips.UniformAtThresholdIsGood` | routers/post.js:35-51 | months sitting exactly on the threshold (average exactly 100 for electricity) get the praise tip: the comparison is strict |
| `UsageTips.WarningSurvivesIncrease` | routers/post.js:31-51 | raising months' figures for a metric never turns its warning back into praise |
| `UsageTips.TipDependsOnlyOnItsMetric` | routers/post.js:31-51 | two month lists that agree on one metric get the same tip for it, whatever the other columns hold |
| `UsageTips.ElectricTipIgnoresWaterAndCost` | routers/post.js:31-39 | rewriting a month's water and cost leaves the electric tip unchanged |
| `Accounts.Register` | routers/post.js:98-113 | status is 400, 201 or 500; 400 iff some of the seven fields is falsy, and then no hash or insert is attempted; every 500 says "Error registering user" and carries the thrown error |
| `Accounts.RegisterCreatedIff` | routers/post.js:103-109 | 201 iff the body is complete and the hash and the insert both complete; the reply carries the insert's id |
| `Accounts.RegisterInsertsOnlyHashed` | routers/post.js:100-108 | an insert happens only for a complete body, once, right after hashing, with the hasher's digest in place of the password |
| `Accounts.RegisterFailsIff` | routers/post.js:103-112 | 500 iff the body is complete and the hash or the insert throws; the reply is then exactly "Error registering user" with that call's error message as `error` |
| `Accounts.Login` | routers/post.js:115-141 | status is 200, 400, 401 or 500; 400 iff email or password is falsy, with no call made; every 401 is the same "Invalid email or password" response; every 500 says "Internal server error" and carries the thrown error; otherwise the lookup by email is the first call |
| `Accounts.LoginSucceedsIff` | routers/post.js:122-137 | 200 iff both fields are present, a row matches, bcrypt accepts the password against the first row's hash and signing succeeds; the token signs that row's id and role with lifetime 1h |
| `Accounts.UnknownEmailLooksLikeWrongPassword` | routers/post.js:123-132 | an unknown email and a wrong password give identical responses |
| `Accounts.PasswordComparedOnlyForKnownEmail` | routers/post.js:123-129 | bcrypt's compare runs only when a row matched, against that row's hash |
| `Accounts.CompareErrorSeparatesKnownEmail` | routers/post.js:125-139 | when bcrypt's compare throws, a known email gets a 500 while an unknown email with the same body gets the 401 |
| `Accounts.LoginFailsIff` | routers/post.js:122-140 | for a complete body, 500 iff the lookup, the compare (when a row exists) or the signing (when the password is accepted) throws; the reply is then exactly "Internal server error" with that call's error message as `error` |
| `TwoFactor.LimiterOf` | routers/twofa.js:8-12 | the limiter's window is 900000 ms and it admits 5 requests |
| `TwoFactor.RoutesShareLimiter` | routers/twofa.js:15-31 | `/enable-2fa` and `/verify-2fa` use the same limiter |
| `TwoFactor.StoreSecret` | routers/twofa.js:20 | the UPDATE gives the matching row the new secret and leaves the other rows, and the set of rows, unchanged |
| `TwoFactor.StoreSecretOverwrites` | routers/twofa.js:17-20 | storing twice keeps only the second secret |
| `TwoFactor.StoreSecretForUnknownUser` | routers/twofa.js:16-20 | an update naming no existing user changes nothing |
| `TwoFactor.EnableResponse` | routers/twofa.js:22-27 | 200 with exactly the body `{secret, qrCode}` (the stored base32 secret and the data URL, no message) iff rendering succeeds, else 500 "Error generating QR code" |
| `TwoFactor.UserTable.EnableSecondFactor` | routers/twofa.js:15-28 | a throttled request changes nothing; a generator error or an UPDATE error leaves the table as it was and no response is written; otherwise the new secret is stored before the reply, with no check on `userId`, and stays stored even when QR rendering fails |
| `TwoFactor.EnableTwice` | routers/twofa.js:17-20 | after two enables only the second secret is stored for the user and no other user's entry changes |
| `TwoFactor.VerifySecondFactor` | routers/twofa.js:31-57 | throttled gives 429; 200 iff a row exists and the verifier accepts the token; 400 "User not found" iff no row; 400 "Invalid 2FA token" iff the verifier rejects; 500 "Error verifying 2FA" iff the query or the verifier throws, with the thrown error's message as `error` |
| `TwoFactor.UserTable.SelectSecret` | routers/twofa.js:35 | the lookup yields one row iff the user exists, holding that user's stored secret |
| `TwoFactor.UserTable.VerifyRequest` | routers/twofa.js:31-57 | against the table: "User not found" iff the user has no row; 200 iff the verifier accepts the stored secret; a store error gives 500 |
| `TwoFactor.EnableThenVerify` | routers/twofa.js:20-52 | after a successful enable the returned secret is the stored one, and verification then succeeds iff the verifier accepts the token for that secret |

## Left out

- The reporting routes `/yearly-consumption` and `/monthly-consumption`, and the query and 500 path of `/tips`. Their work is SQL grouping and summing inside MySQL.
- The internals of bcrypt, JWT signing, secret generation, TOTP/HMAC-SHA-1 and QR rendering. These are libraries and appear only as parameters. The hard-coded signing key is part of the signer and is not modelled.
- The counting of express-rate-limit. Its per-IP verdict is the `admitted` parameter. The 429 status of a throttled reply is that library's default, not something this code sets.
- RoutesShareLimiter: states only that both routes use the same configuration. The routes share one limiter instance, so a client's five requests per window are one budget across `/enable-2fa` and `/verify-2fa` together. The model cannot express that, because each call takes its own `admitted` verdict.
- Whether `/verify-2fa` accepts a token for a user whose `twoFASecret` is NULL. The verifier receives `None`, and nothing is stated about its verdict.
- Floating point in the averages. They are computed over `real`, and an empty list stands for NaN. The model also assumes the monthly totals arrive as numbers. If the database driver handed them over as decimal strings, JavaScript's `+` would concatenate them; that case is not modelled.
- How the SQL driver treats a `userId` that is absent or not an integer. `UserId` is an integer here, and any driver error is the `storeFault` parameter.
- The `createdAt = NOW()` timestamp of registration. It is a clock reading.
- What Express does after `/enable-2fa`'s promise rejects (`Reply.Unhandled`), whether the generator or the UPDATE threw. This depends on the framework version.
- `app.js` and `models/db.js`, which only wire routes and build the connection pool. `app.js` mounts only the post router, so the second-factor routes are modelled as written, not as reachable.
- Asynchronous sequencing and concurrent requests. Each request is modelled on its own.
- `test/system.test.js`. Its expected `Invalid password` message and `success`/`userId` login body disagree with the code, and the model follows the code.
