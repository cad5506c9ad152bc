# Lynx account and link routes, modelled in Dafny

Lynx is a small link shortener with an HTTP API. This project models its two
routers: the account routes in `src/api/auth.js` and the link routes in
`src/api/link.js`. Each route handler is a decision over four things:

- the deployment flags `ENABLE_REGISTRATION` and `DEMO`, as the record
  `Auth.Config`;
- the request's fields;
- the resolved session, either as an `Account` or as a `{code, message}` error;
- what each store call answers. A `[data, error]` pair becomes `Outcome` (`Ok`,
  `Err` or `Throws`). A call that returns a bare value becomes `Awaited`.

Each handler returns `Handled(calls, response)`:

- `calls` lists the store calls the handler makes, in order, with their arguments.
  This is how the model records that a guard answers without asking the store,
  which role reaches `register`, which author reaches `create`, and that update
  and delete pass no account at all.
- `response` is either a JSON envelope `{success, message?, details?, result?}`
  with a status, or a bare text body written with `send`.

Modules:

- `Common` (`common.dfy`): JSON values, store errors, outcomes, the account
  record and the response, plus predicates naming the response shapes:
  - `Delivers`: a 200 success carrying exactly the given result, possibly none;
  - `Conveys` and `ConveysWithDetails`: a store error passed through;
  - `Reports`, `ReportsWithDetails` and `ReportsText`: a store or session error
    passed through when its code is a writable HTTP status (100 to 999), and the
    route's fixed 500 answer otherwise. Node throws when it writes a response
    head with any other status. That throw happens inside the route's `try`, so
    the route's `catch` answers instead;
  - `Refuses`: a fixed status with a fixed message;
  - `SendsText`: a bare-text session error;
  - `WellFormed`: the envelope invariant.
- `Auth` (`auth.dfy`): `/login`, `/register`, `/me`, `/email`, `/password`,
  `/username` and `/newSecret`.
- `Links` (`link.dfy`): `GET /list`, `GET /`, `POST /`, `PATCH /` and `DELETE /`.
  The listing handler is a method. It builds the projected links in a loop, in
  the same order, and replaces the page's `links` field with them. The source
  does the same with one `map` call and one assignment to `data.links`. The
  other link handlers are functions.

## Notes on the source's behaviour

- `/newSecret` is mounted behind the strict session check `requireLogin(true)`
  (src/api/auth.js:210), the same strict check as the three credential updates.
- `/link/list` does stop on a session error (src/api/link.js:11-12). It answers
  with the error as bare text before the page size is examined. The listing is
  not filtered by account.
- Creating a link with a slug that is already taken is not checked by the
  handler. Any such conflict can only come back as a store error, which is passed
  through like any other.

## Model

| member | source | states |
|---|---|---|
| `Auth.Login` | src/api/auth.js:14-40 | the store is asked with the submitted username and password; its data comes back as a 200 result; its error is reported with its code and message and without details; an exception, or an error code that is not a writable status, gives 500 "Internal Server Error when logging in" |
| `Auth.Register` | src/api/auth.js:42-77 | the accounts are always counted first; `register` is called exactly when the policy `MayRegister` allows it (never in demo mode; the first account always; later ones only with open registration); otherwise the answer is 412 "Registration is not enabled"; the role passed is admin exactly when the count is zero; a store error passes through with code, message and details; an exception, or an error code that is not a writable status, gives 500 with the registration message |
| `Auth.Me` | src/api/auth.js:79-100 | no store call; 200 with a result object whose keys are exactly email, id, username, role and secret, each equal to the session account's value |
| `Auth.CredentialUpdate` | src/api/auth.js:102-136 | the part the three credential updates share: in demo mode 406 with the fixed demo message and no store call; otherwise exactly the given update call, with the store's answer passed through; an exception, or an error code that is not a writable status, gives the route's 500 message |
| `Auth.UpdateEmail` | src/api/auth.js:102-136 | in demo mode 406 and no call; otherwise the store gets the session account, the new email and the password; error code and message pass through; an exception, or an error code that is not a writable status, gives 500 "Internal Server Error when updating email" |
| `Auth.UpdatePassword` | src/api/auth.js:138-172 | the same for the password, with the current and the new password passed on, and its own 500 message |
| `Auth.UpdateUsername` | src/api/auth.js:174-208 | the same for the username, with its own 500 message |
| `Auth.NewSecret` | src/api/auth.js:210-218 | one `createSecret` call with the session account; always 200 with a result holding only `secret`; no error branch |
| `Auth.BootstrapException` | src/api/auth.js:43-57 | with no account yet and outside demo mode, registration reaches the store as admin even with open registration disabled; in demo mode even the first registration is refused before the store |
| `Auth.LaterAccountsAreStandard` | src/api/auth.js:44-56 | with at least one account, open registration and no demo mode, the new account is registered as standard |
| `Auth.ClosedRegistrationIgnoresRequest` | src/api/auth.js:43-48 | when the policy refuses, the store calls and the response do not depend on the request's fields or on what the store would have answered |
| `Auth.LoginFailuresIndistinguishable` | src/api/auth.js:23-27 | two login failures with the same code and message give the same response, whatever the credentials and the error's details |
| `Auth.DemoLocksCredentials` | src/api/auth.js:103-107 | in demo mode all three credential updates answer 406 with no store call, whatever passwords and values are supplied |
| `Auth.MeHidesPasswordHash` | src/api/auth.js:81-91 | the current-account response does not depend on the stored password hash |
| `Auth.RegistrationFlagNeedsExactTrue` | src/api/auth.js:44-48 | once an account exists, any value of `ENABLE_REGISTRATION` other than the exact string "true", or none, gives 412 with only the count call |
| `Auth.DemoFlagNeedsExactTrue` | src/api/auth.js:103-113 | for any value of `DEMO` other than the exact string "true", or none, the three credential updates reach the store and the first account registers as admin |
| `Auth.AccountResponsesWellFormed` | src/api/auth.js:14-218 | every account route writes a well-formed envelope: a success has status 200 and no message, and a failure has a message and no result |
| `Links.ListLinks` | src/api/link.js:9-35 | the session is resolved first; its error is sent as bare text with its code, whatever the page size (500 with the listing message when the code is not a writable status); with a session, a page size over 100 gives 400 "Pagesize limit is 100 items" and the store is not asked; otherwise the store is asked with pagesize, page and sort, and the result is its page with each link replaced by its `returnLink` projection, with the same length and order, and every other field of the page kept; a thrown failure gives 500 with the listing message |
| `Links.GetBySlug` | src/api/link.js:37-68 | only the slug lookup is called, with no session; a found link gives 200 with a result holding only its destination; no link gives 404 "invalid link"; an exception gives 500 with the lookup message |
| `Links.CreateLink` | src/api/link.js:70-99 | a session error is sent as bare text; a session exception, or an error code that is not a writable status, gives 500 with the creation message; with a session, the store is asked to create the link with author = the session account's id and the request's slug and destination; success returns `returnLink` of the created link; a store error passes through its code and message, or gives the creation message's 500 when its code is not a writable status |
| `Links.UpdateLink` | src/api/link.js:101-130 | the same session handling; the store receives only id, slug and destination, so no account and no ownership check; success returns `returnLink` of the link; a store error passes through, or gives the update message's 500 when its code is not a writable status |
| `Links.RemoveLink` | src/api/link.js:132-158 | the same session handling; the store receives only the id; success is 200 with no result; a store error passes through; an exception, or an error code that is not a writable status, gives 500 "Internal Server Error when deleting link" |
| `Links.LookupRevealsOnlyDestination` | src/api/link.js:48-54 | two found links with the same destination give the same lookup response, so id, slug and author never reach the client |
| `Links.NoOwnershipCheck` | src/api/link.js:103-140 | update and delete make the same calls and give the same response for any two resolved accounts |
| `Links.CreateDependsOnAccountOnlyThroughId` | src/api/link.js:72-80 | creating a link on behalf of two accounts with the same id is indistinguishable: the account reaches the store only as the author id |
| `Links.LinkResponsesWellFormed` | src/api/link.js:37-158 | lookup, create, update and delete always write a well-formed envelope or a bare-text session error |

## Left out

- Express routing, the `req` and `res` objects, and `console.log` logging. Only
  the response a handler writes is modelled. `/me` writes its object with `send`,
  which Express serialises as JSON, so it is modelled as an envelope.
- The middlewares `requireFields` and `requireLogin`. Their code is not part of
  this model. Their success is assumed: a handler receives the fields it requires
  and, behind `requireLogin`, the session's account. Their own failure responses
  are not modelled.
- The store functions: `login`, `register`, `countAccounts`, the three
  credential updates, `createSecret`, `currentAccount`, `list`, `get`, `create`,
  `update` and `remove`. They become the inputs `Outcome`, `Awaited` and `count`.
  Their behaviour is not part of this model: password checks, hashing, and
  uniqueness of usernames, emails and slugs. For the same reason, the
  end-to-end scenario register, then log in, create, look up and delete cannot
  be stated.
- `returnLink`: a function parameter of the link handlers; its definition is not
  part of this model. A failure inside it is not modelled.
- `Auth.Register`: a failure of `countAccounts()` is not modelled. That call sits
  outside the `try`, so the source does not map such a failure to a 500 response.
- `Auth.NewSecret`: a failure of `createSecret` is not modelled. The handler has
  no `try`, so such a failure produces no response from it.
- `Auth.Me`: the `catch` branch with its 500 message is not modelled. It cannot
  be reached once `requireLogin` has attached an account.
- `Links.ListLinks`: `pagesize` is an integer here. The source compares the
  query string with 100 using JavaScript's coercion, so a non-numeric string is
  never over the limit there.
- `Links.ListLinks`: a store page without a `links` array is not modelled. In the
  source, mapping over it throws, which gives the listing's 500 response.
- Concurrency: the race between counting accounts and registering (two first
  registrations could both become admin), and the suspension at each `await`.
- Reading `process.env`: `Auth.ConfigFromEnv` takes the two variables' values as
  inputs.
- Status codes that are not integers (an error without a `code`, say) are not
  modelled: every error code is an integer here.
- The extra arguments `null, true` passed to `get` in the slug lookup: their
  meaning belongs to the store.
