# Token-authentication guard of the task/tag REST backend

This project models `restricted`, the Express middleware that gates the
backend's user-scoped routes. It reads the bearer token from the
`authorization` header and the `userId` route parameter. It verifies the token
with `jwt.verify` against the secret `JWT_SECRET`, or `"default"` when that
variable is unset or empty. It then reaches exactly one of four terminal outcomes:

| outcome | condition | effect |
|---|---|---|
| missing token | header absent or empty | `400 {"message": "Bad request, please provide token in authorization headers"}` |
| invalid token | verification reports an error | `400 {"message": "Cannot parse passed in authorization token"}` |
| identity mismatch | payload `id` differs from `userId`, or `userId` is absent | `401 {"message": "You are not authorized to view this information"}` |
| allowed | payload `id` equals `userId` | `next()` is called once, and nothing is written |

Layout:

- `js_values.dfy`: `Option` for a value that may be `undefined`, and JavaScript truthiness of a `string | undefined`.
- `express.dfy`: the Express `Response` (`status`, `json`) and the `next` continuation. Both are classes that record what the guard did to them, in the way the unit tests' `jest.fn()` recorders do. `Json` also records the status in effect when the body is sent.
- `auth.dfy`: the payload shape, the verification result, the rejection taxonomy and its status codes and messages, `Secret`, the pure decision `Decide`, and the imperative `Restricted`, whose effects are tied to `Decide`. It also holds the lemmas that characterise each outcome and what it depends on.
- `jsonwebtoken_mock.dfy`: the test double for `jsonwebtoken.verify`, as a concrete verifier.
- `auth_test.dfy`: the five unit tests of the guard, as methods that run `Restricted` with the mock on fresh objects, plus a repeated-request method.

`jwt.verify` is a parameter of type `(string, string) -> VerifyResult`. The
environment variable is a parameter `jwtSecret: Option<string>`.

`Auth.VerifiedId` and `Auth.Observation` are helpers with no contract of their
own. They name what of one call the guard reads: whether a token is present,
whether verification failed or which payload id it produced, and `userId`.

## Model

| member | source | states |
|---|---|---|
| `Auth.Secret` | src/middleware/auth.ts:26 | the secret is never empty; it is `JWT_SECRET` exactly when that is set and non-empty, and `"default"` otherwise |
| `Auth.Rejection.Status` | src/middleware/auth.ts:33-42 | the rejections answer 400 or 401, and 401 only for the identity mismatch |
| `Auth.Rejection.Message` | src/middleware/auth.ts:33-42 | each rejection kind has its own non-empty message, the three literals of the source |
| `Auth.Decide` | src/middleware/auth.ts:28-40 | a request is allowed only with a token and a `userId`; every outcome other than the missing-token rejection needs a token. The four `*Exactly` lemmas below give the exact condition for each outcome |
| `Auth.Restricted` | src/middleware/auth.ts:20-44 | if `Decide` allows, `next` is called once and the response is untouched; if it rejects, the rejection's status is set before its `{message}` body is sent, and `next` is not called; exactly one of the two effects happens |
| `Auth.MissingTokenExactly` | src/middleware/auth.ts:28-42 | the outcome is the missing-token rejection if and only if the header is absent or empty |
| `Auth.InvalidTokenExactly` | src/middleware/auth.ts:30-33 | the outcome is the cannot-parse rejection if and only if a token is present and verification with the configured secret reports an error |
| `Auth.UnauthorizedExactly` | src/middleware/auth.ts:30-35 | the outcome is the 401 rejection if and only if a token is present, verifies to some payload, and that payload's id is not the `userId` parameter |
| `Auth.AllowedExactly` | src/middleware/auth.ts:30-38 | the request is allowed if and only if a token is present, verifies to some payload, and that payload's id equals the `userId` parameter |
| `Auth.AbsentUserIdNeverAllowed` | src/middleware/auth.ts:23-34 | without a `userId` parameter no request is allowed, and a verified token gives 401 |
| `Auth.MissingTokenIgnoresRest` | src/middleware/auth.ts:28-42 | without a token the outcome is the missing-token rejection whatever the `userId`, the secret and the verifier |
| `Auth.VerifiedTokenAuthorizesOneUser` | src/middleware/auth.ts:30-38 | a token that verifies is accepted on the routes of some `userId`, and of one `userId` only (the payload id) |
| `Auth.UnverifiedTokenAuthorizesNoUser` | src/middleware/auth.ts:30-33 | a token that fails verification is rejected as unparseable whatever the `userId` |
| `Auth.OutcomeDependsOnlyOnObservation` | src/middleware/auth.ts:23-38 | two calls that agree on token presence, on verify error versus payload id, and on `userId` have the same outcome |
| `Auth.VerifiedWithConfiguredSecret` | src/middleware/auth.ts:25-30 | only the verifier's answer for the header's token and `Secret(JWT_SECRET)` affects the outcome |
| `Auth.EmailIrrelevant` | src/middleware/auth.ts:7-34 | verifiers that differ only in the payload email give the same outcome |
| `JsonWebTokenMock.Verify` | __mocks__/jsonwebtoken.ts:10-23 | the mock verifies exactly the token `"valid"`, to the payload `{email: "kaydengr@uw.edu", id: "1"}`; every other token gives an error |
| `JsonWebTokenMock.VerifyIgnoresSecret` | __mocks__/jsonwebtoken.ts:10-23 | the mock's answer does not depend on the secret |
| `JsonWebTokenMock.GuardWithMock` | __mocks__/jsonwebtoken.ts:12-21 | with the mock, the guard allows exactly the token `"valid"` with `userId` `"1"`; any other non-empty token is a cannot-parse rejection; `"valid"` with another or no `userId` is a 401 rejection |
| `JsonWebTokenMock.MockAllowsExactlyOneRequest` | __mocks__/jsonwebtoken.ts:12-21 | with the mock some request is allowed, and the only one is token `"valid"` with `userId` `"1"` |
| `Express.Response.Status` | src/middleware/__tests__/auth.test.ts:39-42 | `status(code)` records the code, leaves the body alone and returns the same response for chaining |
| `Express.Response.Json` | src/middleware/__tests__/auth.test.ts:44-47 | `json(body)` records the body and the status in effect when it was sent, counts one send, and returns the same response |
| `Express.NextFunction.Call` | src/middleware/__tests__/auth.test.ts:34 | each call of `next` adds one to its call count |
| `AuthTest.RunGuard` | src/middleware/__tests__/auth.test.ts:30-49 | on a fresh response and `next`, for any verifier, the recorded status, body and call count are those of `Decide`'s outcome |
| `AuthTest.ShouldCallNext` | src/middleware/__tests__/auth.test.ts:51-61 | token `"valid"` with `userId` `"1"` calls `next` once and writes nothing |
| `AuthTest.ShouldRejectUnparseableToken` | src/middleware/__tests__/auth.test.ts:63-75 | token `"invalid"` with `userId` `"2"` records 400 and the cannot-parse message |
| `AuthTest.ShouldRejectOtherUser` | src/middleware/__tests__/auth.test.ts:77-89 | token `"valid"` with `userId` `"2"` records 401 and the not-authorized message |
| `AuthTest.ShouldRejectMissingUserId` | src/middleware/__tests__/auth.test.ts:91-103 | token `"valid"` with no `userId` records 401 and the not-authorized message |
| `AuthTest.ShouldRejectMissingToken` | src/middleware/__tests__/auth.test.ts:105-117 | no header with `userId` `"2"` records 400 and the provide-token message |
| `AuthTest.RepeatedRequestSameOutcome` | src/middleware/auth.ts:20-44 | for any verifier, calling the guard twice with the same request and secret records the same status, body and call count |

## Left out

- Real JWT cryptography, meaning the signature and expiry checks inside `jsonwebtoken`. The verifier is a function from (token, secret) to error-or-payload. Every lemma about one call holds for every such function.
- The clock. The real `jwt.verify` also checks the `exp` and `nbf` claims against the current time, so its answer for one token can change between calls. `AuthTest.RepeatedRequestSameOutcome` assumes that verification gives the same answer on both calls. A token that expires between two identical requests can change the outcome.
- The callback shape of `jwt.verify`. Each call returns one tagged result, so the callback runs exactly once by construction. No asynchrony or concurrency is modelled.
- Reading `process.env`. The value of `JWT_SECRET` is a parameter.
- The unchecked cast `decoded as jwtPayload`. The model assumes a verified payload always has a string `id`. A real token whose payload has no `id` is not modelled. With an absent `userId`, such a token would compare `undefined !== undefined` and reach `next`.
- `Express.Response` records only what the guard writes. It does not model Express's default status 200, the sending of headers, or the error Express raises when a second body is sent.
- The route handlers (`src/routes/*.ts`), the TypeORM entities, the server bootstrap and the middleware wiring are not part of this model. They are thin layers over the ORM, bcrypt and Express.
