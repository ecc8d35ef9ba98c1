# AWS SSO Manager: a Dafny model of the session store, login driver and status classifiers

AWS SSO Manager is a small web application. An Express backend lets a
browser sign in through AWS IAM Identity Center with the OAuth 2.0 Device
Authorization Grant (RFC 8628). The backend then exchanges the access token
for role credentials and uses them to list EC2 instances and CloudFormation
stacks. A React front end drives the login and shows the results.

This project models the parts of that system that hold state or make
decisions:

- `server.dfy`, module `Server` (from `backend/server.js`):
  - The process-wide session map is a class `SessionStore` over
    `map<string, Session>`. Each HTTP handler is a method that returns the
    status code and body it would send. It also returns `calls`, the list of
    SDK requests it issues. The SDK's answers come in as parameters.
  - The token outcome is the tagged type `TokenOutcome`
    (`Authorized | Pending | SlowDown | Expired | Failed`). This replaces the
    handler's matching on error names with a total case split.
  - `Valid()` is kept by every method. It says a token is recorded together
    with its expiry, and credentials only once a token exists.
  - The periodic sweep is a loop that deletes stale entries one at a time.
  - The EC2 reservation flattening is two nested loops, proved against the
    specification function `Flattened`.
- `app.dfy`, module `App` (from `frontend/src/App.jsx`):
  - The ordered form checks.
  - The account-id sanitiser.
  - The bounded poll loop, a method over the sequence of the backend's
    replies.
  - `handleLogin` as a whole. It returns the list of backend endpoints it
    called.
- `dashboard.dfy`, module `Dashboard` (from `frontend/src/Dashboard.jsx`):
  - The instance-state and stack-status colour classifiers.
  - The region selector's fallback list.
  - The session guard of the two load actions.
- `wrappers.dfy`, module `Wrappers`: `Option`, `Result` (a provider answer
  or the message of a thrown error), and JavaScript truthiness of optional
  strings (`undefined` and `""` are both falsy, as in `x || 'N/A'`).

The clock is a parameter `now`, in milliseconds. Session identifiers are
parameters too: the source builds them from the clock. Where a JavaScript
`||` or `!x` test treats the empty string as missing, the model does the
same.

The stack listing asks the provider only for the sixteen statuses listed at
`backend/server.js:348-365`. That list leaves out every `*_FAILED` status and
`DELETE_COMPLETE`, so failed and deleted stacks never appear in the listing. `Dashboard.ListedStatusesNeverFailed`
proves that the red `FAILED` test can never fire for a listed status.

## Model

| member | source | states |
|---|---|---|
| `Server.SessionStore.CredentialsFollowToken` | backend/server.js:201-223 | In a valid store, a session that holds credentials also holds a token and its expiry. |
| `Server.SessionStore.constructor` | backend/server.js:38 | The store starts empty and valid. |
| `Server.SessionStore.Start` | backend/server.js:46-95 | Registers a public client named `AWS-SSO-Manager`, then starts device authorization for the portal URL. Either provider error gives 500 with its message and leaves the store unchanged. On success, exactly the entry `sessionId` is set: client id and secret, device code, region, `createdAt = now`, and no token or credentials. An existing entry with that id is overwritten. The 200 body carries the user code, the verification URIs, `expiresIn` and `interval`. |
| `Server.SessionStore.Poll` | backend/server.js:98-142 | An unknown id gives 404 `Session not found`, makes no provider call and leaves the store unchanged. Otherwise it sends one token request with the session's client id, secret and device code and the RFC 8628 device-code grant type. `Authorized` sets `accessToken` and `tokenExpiresAt = now + expiresIn*1000` on that session only and returns 200 with the token. `Pending` gives 202 and `SlowDown` gives 429, with the store unchanged. `Expired` removes exactly that session and gives 401. `Failed` gives 500 with the message, with the store unchanged. |
| `Server.PollAfterExpiry` | backend/server.js:101-136 | After a poll that meets an expired device code, a second poll on the same id gives 404, whatever the provider would answer. Only that session is gone. |
| `Server.StartedSessionIsGated` | backend/server.js:73-81 | A session just created by a successful start is refused by the accounts endpoint (401 `Not authenticated`) and by the instances endpoint (401 `Not authenticated or no credentials`). |
| `Server.SessionStore.Accounts` | backend/server.js:145-168 | The status is 401 `Not authenticated` exactly when the session is missing or has no non-empty access token. No provider call is made exactly in that case. Otherwise it lists accounts with that token in the session's region. A missing list becomes `[]`, and a provider error gives 500. |
| `Server.SessionStore.Roles` | backend/server.js:171-195 | The same guard as Accounts. It then lists the roles of the requested account with the session's token. A missing list becomes `[]`, and a provider error gives 500. |
| `Server.SessionStore.Credentials` | backend/server.js:198-236 | The same guard, with the store unchanged when it fails. On success it replaces only that session's `credentials` with the four returned fields. The 200 body equals the stored bundle. A provider error gives 500 and leaves the store unchanged. |
| `Server.SessionStore.Instances` | backend/server.js:239-291 | The status is 401 exactly when the session is missing or holds no credentials. No provider call is made exactly in that case. The EC2 client is built from the access key, secret key and session token. Its region is the requested one, or `us-east-1` when the request's region is absent or empty. The 200 body is `Flattened` of the reservations, or `[]` when there are none. |
| `Server.SessionStore.Regions` | backend/server.js:294-326 | The same credentials guard. Regions are always described from `us-east-1`. |
| `Server.SessionStore.Stacks` | backend/server.js:329-388 | The same credentials guard and region default. The listing asks for the fixed sixteen-status filter. A missing summary list becomes `[]`. |
| `Server.SessionStore.StackDetails` | backend/server.js:391-442 | The same credentials guard and region default. It returns the first stack described, or 404 `Stack not found` when the answer holds none. |
| `Server.SessionStore.Sweep` | backend/server.js:445-454 | Afterwards the store is `Retained(old store, now)`. Exactly the sessions with `now - createdAt > 3600000` are deleted, and every other session is kept unchanged, including one exactly 3600000 ms old. |
| `Server.Retained` | backend/server.js:447-453 | An id survives the sweep if and only if it was present and is not stale, and a surviving entry keeps its value. |
| `Server.ResourceRegion` | backend/server.js:249 | The region of a resource client is never empty. It is the request's region when that is truthy, and `us-east-1` otherwise. |
| `Server.FirstNameTag` | backend/server.js:265 | Gives the position of the first tag whose key is `Name`: every earlier tag has another key. It gives the length of the list when there is no such tag. |
| `Server.ToRecord` | backend/server.js:265-279 | The name is the first `Name` tag's value, or `N/A` when that tag is missing or its value is empty. A missing or empty private IP, public IP, VPC or subnet becomes `N/A`, and a missing or empty platform becomes `Linux`. None of the defaulted fields (name, private and public IP, platform, VPC, subnet) is empty. Id, type, state, zone and launch time are copied. |
| `Server.FlattenedLength` | backend/server.js:262-281 | Flattening emits exactly one record per instance over all reservations. |
| `Server.FlattenedAt` | backend/server.js:262-281 | Instance `j` of reservation `i` becomes the record at position (number of instances in reservations before `i`) + `j`. So the records follow reservation order, then instance order. |
| `Server.FlattenReservations` | backend/server.js:260-282 | The nested loops build exactly `Flattened(reservations)`. Absent reservations give the empty list. |
| `App.CheckLogin` | frontend/src/App.jsx:25-41 | The checks run in a fixed order and the first failure is the one reported. Any empty field gives `All fields are required`. Otherwise an id that is not exactly 12 ASCII digits gives the account-id error. Otherwise a URL without the `https://` prefix gives the URL error. The form passes only when all three hold. |
| `App.AccountIdExamples` | frontend/src/App.jsx:31-35 | `12345` and `12345678901a` are refused, and `123456789012` is accepted. |
| `App.DigitsOf` | frontend/src/App.jsx:178 | The digit filter returns only ASCII digits and is no longer than its input. Every digit keeps its number of occurrences. |
| `App.DigitsOfAppend` | frontend/src/App.jsx:178 | The digit filter distributes over concatenation, so the digits keep their order. |
| `App.DigitsOfDigits` | frontend/src/App.jsx:178 | A string made only of digits passes through the filter unchanged. |
| `App.SanitizeAccountId` | frontend/src/App.jsx:178 | The sanitised id holds only digits and is a prefix of the input's digits. Its length is the number of digits in the input, capped at 12. So it is exactly the first twelve digits, or all of them when there are fewer. |
| `App.SanitizeIdempotent` | frontend/src/App.jsx:178 | Sanitising twice gives the same result as sanitising once. |
| `App.SanitizeKeepsAccountId` | frontend/src/App.jsx:178 | A valid 12-digit account id is left unchanged. |
| `App.SanitizedAccountIdCheck` | frontend/src/App.jsx:178 | A sanitised id passes the 12-digit check exactly when the raw input held at least 12 digits. |
| `App.Decide` | frontend/src/App.jsx:72-80 | A reply that is not a retry authenticates exactly when its status is 200. A 401 fails with `Authentication session expired`. Any other status fails with the reply's `error`, or `Authentication failed` when that is missing or empty. A network error fails with its own message. |
| `App.AwaitAuthorization` | frontend/src/App.jsx:60-85 | Makes between 1 and 60 attempts, and every attempt but the last got 202 or 429. If the last reply is not a retry, it decides the outcome: 200 authenticates, 401 is the expiry error, anything else is a failure. If the last reply is still a retry, all 60 attempts were used and the outcome is the timeout error. The outcome equals `PollResult`, the first non-retry reply's decision within 60 attempts, or the timeout. The number of attempts equals `PollAttempts`, the position of that reply, or 60. |
| `App.PollFromAuthorizes` | frontend/src/App.jsx:60-85 | Given that the earlier attempts were all retries, the loop from attempt `i + 1` on authenticates exactly when some attempt within 60 gets 200 after only retries. |
| `App.PollResultAuthorizes` | frontend/src/App.jsx:60-85 | The poll loop authenticates exactly when some attempt within 60 gets 200 after only retries. |
| `App.HandleLogin` | frontend/src/App.jsx:20-121 | A failed form check is the error, and no request is made. Otherwise `/api/sso/start` is called first, and a failed start stops there. After a successful start the requests are exactly one start, then `PollAttempts` polls, then one credentials request when `PollResult` is `Authenticated`. So the start is sent once and polling stops at the first reply that is not a retry. Credentials are requested if and only if the checks pass, the start succeeds and some attempt within 60 gets 200 after only retries. Equivalently, `PollResult` of the replies is `Authenticated`. The credentials request is last and follows a poll. Sixty retries end in the timeout error. When the poll loop fails, the login fails with that loop's message (`PollResult`) and credentials are not requested. A failed credential exchange fails with the reply's `error`, or `Failed to get credentials`, or the network error's message. The dashboard opens exactly when credentials were requested and returned. |
| `Dashboard.StateColor` | frontend/src/Dashboard.jsx:118-127 | `running`, `stopped`, `stopping`, `pending` and `terminated` map to their fixed classes, and every other state maps to gray. |
| `Dashboard.StackStatusColor` | frontend/src/Dashboard.jsx:129-138 | Contains `COMPLETE` without `ROLLBACK` gives green. Anything else containing `FAILED` or `ROLLBACK` gives red. `IN_PROGRESS` gives blue only when none of the earlier words occurs. Every other status gives gray. |
| `Dashboard.RollbackIsRed` | frontend/src/Dashboard.jsx:130-133 | Any status containing `ROLLBACK` is red, whether or not it also contains `COMPLETE`. |
| `Dashboard.CleanupInProgressIsGreen` | frontend/src/Dashboard.jsx:130-131 | `UPDATE_COMPLETE_CLEANUP_IN_PROGRESS` is green, not blue. |
| `Dashboard.RollbackCompleteIsRed` | frontend/src/Dashboard.jsx:132-133 | `ROLLBACK_COMPLETE` is red. |
| `Dashboard.CreateInProgressIsBlue` | frontend/src/Dashboard.jsx:134-135 | `CREATE_IN_PROGRESS` is blue. |
| `Dashboard.ListedStatusesNeverFailed` | backend/server.js:347-366 | No status in the stack listing's filter contains `FAILED`. |
| `Dashboard.RegionOptions` | frontend/src/Dashboard.jsx:180 | The selector is never empty. It offers the fetched regions when there are any, and otherwise the fixed list of 14 regions. |
| `Dashboard.LoadRequest` | frontend/src/Dashboard.jsx:53-101 | Without a session, a load action sends nothing. With one, it asks for the selected region under the stored session id. |

## Left out

- The AWS SDK calls themselves (RegisterClient, StartDeviceAuthorization, CreateToken, ListAccounts, ListAccountRoles, GetRoleCredentials, DescribeInstances, DescribeRegions, ListStacks, DescribeStacks) are foreign services. Each handler returns the request it would send, and the answer is a parameter.
- The region, stack-summary and stack-detail records are reshaped by copying fields one for one. The model passes the provider's records through.
- An SDK answer that lacks a field the handler dereferences throws a TypeError that the handler turns into a 500. This covers a missing `roleCredentials`, `Regions`, `State`, `Placement` or `Instances`. The model treats those fields as present and folds such answers into the `Err` answer.
- Express routing, CORS, JSON parsing, `GET /api/health` (it answers `{status: 'ok', timestamp}`) and `app.listen` are transport, not logic.
- `setInterval`, `setTimeout` and `Date.now()` are not modelled. The clock is the parameter `now`. The session id is a parameter because the source builds it from the clock. Two starts in the same millisecond would get the same id, so uniqueness is not claimed. `Start`'s contract shows that such a start overwrites the existing entry.
- Handlers running concurrently are not modelled, for example a poll awaiting the provider while the sweep deletes its session. Every handler is one atomic step.
- JavaScript numbers are modelled as unbounded integers, so `now + expiresIn * 1000` has no floating-point rounding.
- The front end's logging, React rendering and `useState` updates are not modelled, and neither are `sessionStorage`, `window.open`, `alert`, the clipboard and the 5-second sleep before each poll.
- A reply body that is not valid JSON makes `response.json()` throw. This is not modelled: a reply carries its `error` field directly.
- App.AwaitAuthorization: its replies are a sequence with one entry for each of the 60 attempts the loop may make (`|replies| >= 60`). A shorter sequence would describe no run of the loop.
- Dashboard.StateColor: in JavaScript, a state that names an inherited object property (such as `constructor`) would return that property, not gray. The model maps every state outside the five to gray.
- The dashboard's mount effect, which reads the stored session and fetches the region names, is not modelled. Only its results, the session and the list, are inputs of `RegionOptions` and `LoadRequest`.
- The EC2 table body in `frontend/src/Dashboard.jsx` refers to an undefined variable. It is rendering code with no logic to model.
- `frontend/src/main.jsx` only picks the page component from the path, so it is not part of this model.
