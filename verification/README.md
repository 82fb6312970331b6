# Referral points service, modelled in Dafny

The service keeps users with point balances. A user earns points by
completing tasks. A user may also name one other user as their referrer, and
the referrer then gets a bonus of 10 points. Four routes under `/users/`
expose this: a user's status, the leaderboard, task completion and referral.
A JWT bearer token guards every route.

The model follows the program's layers:

- `Postgres` (`repository.dfy`) is the PostgreSQL repository.
  - A `Repository` class holds the `users` table as a map keyed by id and the
    `tasks` table as a sequence.
  - `CompleteTask` and `AddReferrer` are methods that change the tables
    statement by statement. On any error they roll back to the state before
    the call.
  - `GetLeaderboard` builds its result in a `rows.Next()` loop.
  - `GetUserByID` is a function over the tables.
  - The ledger invariant ties each balance to its history: the points of
    the user's tasks plus one bonus per user that names them as referrer.
    The lemmas show that both transactions keep it.
- `Handlers` (`handlers.dfy`) covers the four handlers. Each handler is
  split into a *step*, which validates the request and either answers at
  once or names a service call, and a *reply*, which turns the service's
  result into a response. The service layer hands calls and results through
  unchanged, so a service call is the repository call of the same name.
- `Middleware` (`middleware.dfy`) covers `Chain`, the `Authorization` header
  check of `JWTAuth`, and what each middleware does to a request.
- `Router` (`router.dfy`) covers several parts of the router:
  - `matchPath` and the dispatch of `routeRequest`;
  - the stack that `Setup` registers under `/users/`;
  - a `Router` class that carries a request through the mux, the stack and
    the repository.
- `Strings`, `Numbers` and `Uuids` model `strings.Split`/`Join`,
  `strconv.Atoi` and `uuid.Parse`/`String`, as far as the handlers use them.
  `Http` holds statuses, content types and `http.Error`. `Models` holds the
  records.

The outside world is given as parameters:

- An `Env` carries:
  - the id that `uuid.New()` returns;
  - the Go clock and the database clock;
  - the set of SQL statements the database refuses, with each one's error
    text.
- Token validation is a function that returns valid (with its user id),
  expired or invalid.
- A request carries its method and path, the `limit` query parameter, the
  `Authorization` header, and what `json.Decoder` made of the body.

Some behaviours of the code are worth stating outright, because a reader
might expect otherwise:

- `AddReferrer` does not refuse a self-referral. The user then becomes their
  own referrer and receives the bonus (`Postgres.Repository.AddReferrer`
  states this).
- Every repository error, "user not found" and "referrer not found"
  included, reaches the client as a 500 that carries the error's text. No
  error maps to a 404 or a 409.
- `CompleteTask` in the repository does not check the points itself. The
  handler does, and the table's `CHECK (points > 0)` constraint does too.
- `GetUserByID` fails for every user that exists (see Findings).

## Model

| member | source | states |
|---|---|---|
| Strings.Split | internal/router/handlers/user_handler.go:30 | strings.Split always yields at least one piece, and no piece contains the separator |
| Strings.JoinSplit | internal/router/middleware/middleware.go:34 | joining the pieces with the separator gives back the original string |
| Strings.SplitJoin | internal/router/handlers/user_handler.go:30 | splitting a join of separator-free pieces gives back exactly those pieces |
| Numbers.Atoi | internal/router/handlers/user_handler.go:65 | a successful parse is a 64-bit int and the text starts with a digit or a sign |
| Numbers.AtoiSpelling | internal/router/handlers/user_handler.go:65-66 | strconv.Atoi succeeds exactly on an optional sign followed by one or more digits whose value fits in 64 bits, and yields that value |
| Numbers.AtoiRejectsNonDigit | internal/router/handlers/user_handler.go:65-66 | any non-digit after the first character makes the parse fail, so "5x" falls back to the default limit |
| Numbers.AtoiDecimal | internal/router/handlers/user_handler.go:65-67 | the decimal spelling of every int from 0 to 2^63-1 parses back to that int |
| Uuids.ParseUuid | internal/router/handlers/user_handler.go:36-40 | a string parses exactly when it has the hyphenated hex form, and the result is a well-formed id |
| Uuids.ParseFormat | internal/router/handlers/user_handler.go:36 | parsing the canonical spelling of an id gives back that id |
| Uuids.FormatParse | internal/router/handlers/user_handler.go:156-160 | the canonical spelling of a parsed id is the input in lower case |
| Http.NotFound | internal/router/router.go:80 | http.NotFound is a plain-text 404 (built with `Http.Error`, the definition of http.Error: the status, the plain-text content type, and the message plus a newline as the body) |
| Postgres.Row | internal/repository/postgres/repository.go:413-423 | a row read back carries every column but the password, which is empty |
| Postgres.Credit | internal/repository/postgres/repository.go:295-298 | the UPDATE moves only that user's balance, by exactly the amount, and stamps updated_at; every other row is unchanged |
| Postgres.Link | internal/repository/postgres/repository.go:377-380 | the UPDATE sets only that user's referrer_id and updated_at; every other row is unchanged |
| Postgres.BalancesNonNegative | internal/repository/postgres/repository.go:295-298 | while the ledger holds, no balance is negative |
| Postgres.LedgerAfterTask | internal/repository/postgres/repository.go:278-298 | inserting a task and crediting its points to the owner keeps every balance equal to its tasks plus its bonuses |
| Postgres.ReferredAfterReferral | internal/repository/postgres/repository.go:377-398 | after a referral, the referrer is named by exactly one more user, and nobody else's referrals change |
| Postgres.LedgerAfterReferral | internal/repository/postgres/repository.go:377-398 | linking the user and paying the referrer 10 points keeps the ledger balanced |
| Postgres.LedgerAfterNewUser | internal/repository/postgres/repository.go:90-96 | a new user with 0 points and no referrer keeps the ledger balanced |
| Postgres.TaskKeepsTables | internal/repository/postgres/repository.go:278-311 | a committed task keeps the keys, foreign keys, positive task points and the ledger |
| Postgres.ReferralKeepsTables | internal/repository/postgres/repository.go:377-448 | a committed referral keeps the keys, foreign keys and the ledger |
| Postgres.HighestExists | internal/repository/postgres/repository.go:171-176 | every non-empty set of users has one whose balance is the highest |
| Postgres.RankedStep | internal/repository/postgres/repository.go:187-219 | appending the highest pending user keeps the rows distinct, read back from the table, non-increasing, and above every pending user |
| Postgres.RankedComplete | internal/repository/postgres/repository.go:187-229 | when the loop stops at the limit or runs out of users, the rows are the leaderboard |
| Postgres.Repository.AddUser | internal/repository/postgres/repository.go:90-96 | registration adds exactly one row, with 0 points and no referrer, and keeps the invariant |
| Postgres.Repository.GetUserByID | internal/repository/postgres/repository.go:113-165 | intended lookup: an error exactly when the query is refused; otherwise absent exactly when there is no such row, else the row without its password |
| Postgres.Repository.GetUserByIDAsWritten | internal/repository/postgres/repository.go:116-144 | lookup as written: when the query runs, an existing user gives the Scan arity error and only a missing one gives "absent" |
| Postgres.Repository.GetLeaderboard | internal/repository/postgres/repository.go:168-230 | succeeds exactly when the query, the rows read and the iteration succeed and the limit is not negative; the result is min(limit, users) distinct rows by non-increasing points, none ranked below an unlisted user |
| Postgres.Repository.ScanLeaderboard | internal/repository/postgres/repository.go:187-219 | the loop returns the leaderboard unless a row fails to scan, which happens exactly when a row is read while scans are refused |
| Postgres.Repository.CompleteTaskStatements | internal/repository/postgres/repository.go:247-311 | the statements succeed exactly when none is refused, the user exists, the task id is new and the points are positive; then the task is appended and its points credited |
| Postgres.Repository.CompleteTask | internal/repository/postgres/repository.go:233-318 | success exactly when every statement goes through; "user not found" exactly when the existence check finds none; on success the task is recorded and the balance grows by its points; on any error both tables are unchanged; the invariant and every referrer link are kept |
| Postgres.Repository.AddReferrerStatements | internal/repository/postgres/repository.go:334-448 | the statements succeed exactly when the referrer and user exist, the user has no referrer and nothing is refused; each refusal reason is exact |
| Postgres.Repository.AddReferrer | internal/repository/postgres/repository.go:321-454 | "referrer not found", "user not found" and "already has a referrer" each exactly in their case; on success the user is linked, the referrer gains 10 points and the user's row is returned; on any error nothing changes; the invariant and existing links are kept |
| Handlers.UserStatusStep | internal/router/handlers/user_handler.go:30-40 | the service is asked for a user exactly when the path has at least four segments and the third parses as a UUID, and then for that UUID; otherwise a 400 "Invalid URL" when there are too few segments, else "Invalid user ID format" |
| Handlers.LimitOf | internal/router/handlers/user_handler.go:61-69 | the limit is the parameter when it parses as a positive int, and 10 when it is absent, unparsable or not positive |
| Handlers.LimitOfDecimal | internal/router/handlers/user_handler.go:61-69 | every positive int written in decimal is used as the limit unchanged |
| Handlers.LeaderboardStep | internal/router/handlers/user_handler.go:59-71 | the leaderboard handler always calls the service, with the limit `LimitOf` reads from the parameter, which is positive |
| Handlers.CompleteTaskStep | internal/router/handlers/user_handler.go:85-116 | the service is called exactly when the path has at least five segments, the id parses, the body decodes, the task type is non-empty and the points are positive; otherwise a 400 whose message names the first check that failed, in the source's order: "Invalid URL", "Invalid user ID format", "Invalid request body", "Task type is required", "Points must be positive" |
| Handlers.AddReferrerStep | internal/router/handlers/user_handler.go:130-162 | the service is called exactly when the path has at least four segments, the id parses, the body decodes and the referrer id parses; otherwise a 400 whose message names the first check that failed, in the source's order: "Invalid URL", "Invalid user ID format", "Invalid request body", "Referrer ID is required" (empty id), "Invalid referrer ID format" |
| Handlers.UserStatusStepCalls | internal/router/handlers/user_handler.go:30-42 | a path whose third segment is a canonically spelled UUID asks for that user |
| Handlers.CompleteTaskStepCalls | internal/router/handlers/user_handler.go:85-116 | a valid completion for a canonically spelled user reaches the service with that user and the body unchanged |
| Handlers.AddReferrerStepCalls | internal/router/handlers/user_handler.go:130-162 | a referral with canonically spelled ids reaches the service with those two users |
| Handlers.UserStatusReply | internal/router/handlers/user_handler.go:42-55 | a 200 with the user exactly when one was found; a 404 "User not found" when none; on an error a 500 whose text is "Failed to get user: " and then the error's text (the definition `Handlers.ServiceFailure`) |
| Handlers.LeaderboardReply | internal/router/handlers/user_handler.go:71-79 | a 200 with the rows exactly when the service succeeded, else a 500 |
| Handlers.TaskReply | internal/router/handlers/user_handler.go:116-124 | a 200 with the task exactly when the service succeeded, else a 500 |
| Handlers.ReferrerReply | internal/router/handlers/user_handler.go:162-170 | a 200 with the user exactly when the service succeeded, else a 500 |
| Handlers.UserStatusOfExistingUser | internal/repository/postgres/repository.go:116-133 | for every existing user, the lookup as written makes the status route answer 500, while the intended lookup answers with the user |
| Middleware.Reversed | internal/router/middleware/middleware.go:15-20 | the reversal has the same length and mirrors the positions |
| Middleware.LayersDetermine | internal/router/middleware/middleware.go:15-20 | two stacks with the same layers are the same handler |
| Middleware.Chain | internal/router/middleware/middleware.go:15-20 | the stack is the given middlewares in reverse order, the last listed outermost, around the handler; with none it is the handler itself |
| Middleware.BearerToken | internal/router/middleware/middleware.go:34-35 | a token is taken only when the header splits into "Bearer" and one space-free piece |
| Middleware.BearerTokenSound | internal/router/middleware/middleware.go:34-38 | an accepted header is exactly "Bearer " followed by the token |
| Middleware.BearerTokenComplete | internal/router/middleware/middleware.go:34-38 | "Bearer " followed by any space-free token is accepted with that token |
| Middleware.BearerTokenShape | internal/router/middleware/middleware.go:34-38 | a header is accepted exactly when it starts with "Bearer " and the rest has no space, so a lower-case scheme, a doubled space or an extra part is refused |
| Middleware.Authenticate | internal/router/middleware/middleware.go:27-49 | the request passes exactly when a bearer token is present and validates, and then it carries the token's user id; otherwise a missing header, a bad format, an expired token and an invalid token each get their own message |
| Middleware.AuthenticateBearer | internal/router/middleware/middleware.go:41-49 | a well-formed bearer header is judged by the validator's verdict on its token alone |
| Middleware.Apply | internal/router/middleware/middleware.go:22-64 | only JWTAuth stops a request, exactly when authentication fails, and then with a 401; ContentTypeJSON sets the JSON content type; Logger and Recover change nothing |
| Router.MatchPath | internal/router/router.go:84-97 | a match implies the prefix is present and the path is longer than prefix plus suffix |
| Router.MatchPathSound | internal/router/router.go:84-97 | every matching path is prefix + id + suffix with a non-empty, slash-free id |
| Router.MatchPathComplete | internal/router/router.go:84-97 | every prefix + id + suffix with a non-empty, slash-free id matches and carries that id |
| Router.CompleteIsNotReferrer | internal/router/router.go:68-77 | no path matches both the task and the referrer pattern |
| Router.RoutesExclusive | internal/router/router.go:51-81 | each route is taken exactly when its own method and pattern fit, so the order of the checks does not matter |
| Router.RouteStep | internal/router/router.go:51-81 | a 404 exactly when no route fits; every other early answer is a 400; each service call comes from its own route, and a task call carries the decoded body with a type and positive points |
| Router.Run | internal/router/middleware/middleware.go:22-64 | a service call happens only after every JWTAuth layer allowed the request, and it is answered as JSON after ContentTypeJSON; a refused token gives the 401; an early answer is never a 200 |
| Router.RunIgnoresIdentity | internal/router/middleware/middleware.go:51-53 | the user id stored from the token never affects what happens to the request |
| Router.UsersStackCalls | internal/router/router.go:29-45 | through the registered stack, an authenticated request makes exactly the call routeRequest picks, answered as JSON |
| Router.UserRoutePath | internal/router/router.go:56 | "/users/<uuid>" plus a route suffix matches that route, and its segments put the id third |
| Router.StatusRequestCalls | internal/router/handlers/user_handler.go:28-42 | GET /users/<id>/status with a valid token asks the repository for that user |
| Router.LeaderboardRequestCalls | internal/router/handlers/user_handler.go:59-71 | GET /users/leaderboard?limit=n with a valid token asks for the top n |
| Router.CompleteRequestCalls | internal/router/handlers/user_handler.go:83-116 | POST /users/<id>/task/complete with a valid token and body asks to record that task for that user |
| Router.ReferrerRequestCalls | internal/router/handlers/user_handler.go:128-162 | POST /users/<id>/referrer with a valid token and referrer asks to link those two users |
| Router.Lookup | internal/router/router.go:45-47 | the mux picks the longest registered pattern that serves the path, and none exactly when no pattern serves it |
| Router.Router.constructor | internal/router/router.go:20-26 | a new router has an empty mux |
| Router.Router.Setup | internal/router/router.go:29-48 | "/users/" is registered with JWTAuth outermost, then ContentTypeJSON, Recover and Logger around routeRequest |
| Router.Router.ServeUserStatus | internal/router/handlers/user_handler.go:42-55 | the status response is the reply to the corrected lookup `Postgres.Repository.GetUserByID`, so an existing user gets a 200 (the code as written answers 500 instead, see `Handlers.UserStatusOfExistingUser` and Findings), written as http.Error for a failure and as a 200 with the content type the middlewares set for a user (the definition `Router.Render`); nothing changes |
| Router.Router.ServeLeaderboard | internal/router/handlers/user_handler.go:71-79 | a 200 exactly when the query, every row read and the iteration succeed (`Postgres.LeaderboardSucceeds`), and then the ranked rows; otherwise a 500 |
| Router.Router.ServeCompleteTask | internal/router/handlers/user_handler.go:116-124 | a 200 exactly when every statement of the transaction goes through (`Postgres.TaskCommits`: the user exists, the task id is new, the points are positive and nothing is refused), and then the recorded task, which appends it and credits its points; otherwise a 500 and no change |
| Router.Router.ServeAddReferrer | internal/router/handlers/user_handler.go:162-170 | a 200 exactly when every statement of the referral goes through (`Postgres.ReferralCommits`: both users exist, the user has no referrer and nothing is refused), and then the updated user, which links and credits; otherwise a 500 and no change |
| Router.Router.Serve | internal/router/router.go:51-81 | a request answered before the service changes nothing; lookups change nothing; for the leaderboard, a task and a referral, a 200 exactly when the repository call succeeds; a 200 on a task appends exactly that task and credits its points; a 200 on a referral links the user, credits the referrer 10 points and returns the user's row; every non-200 outcome of a write leaves the tables as they were |
| Router.Router.Handle | internal/router/router.go:45 | carrying a request through a stack keeps the repository's invariant |
| Router.Router.ServeHTTP | internal/router/router.go:45-47 | the repository's invariant is kept; a path no pattern serves gets a 404 and changes nothing |

## Left out

- The table constraints come from the database schema, which the migration
  files define: the primary keys, the foreign keys of `tasks.user_id` and
  `users.referrer_id`, and `CHECK (points > 0)` on tasks. The model assumes
  them (`Postgres.Constraints`) rather than deriving them from code.
- Connecting to the database, migrations and `Close` are not modelled. The
  constructor of `Postgres.Repository` starts from empty tables.
- `LoginUser` is not modelled. Its query relies on id generation, username
  uniqueness and the `points = 0` default, which live in migration files
  that are not part of this model. `Postgres.Repository.AddUser` stands in
  for it: it adds a row with a given fresh id, 0 points and no referrer.
- Concurrency between transactions is not modelled, and neither is the
  check-then-act race in `AddReferrer`. Each call is one atomic step.
- Context cancellation, logging (`Logger`, the zap calls) and `Recover`'s
  panic handling are left out. No modelled step panics.
- JSON encoding and decoding are left out. A request carries the decoder's
  result, and a response carries the value the encoder would write. One
  case differs: an empty leaderboard is a nil slice in Go, which the encoder
  writes as `null`; the model carries an empty sequence.
- http.Error's `X-Content-Type-Options` header is left out. So is
  `net/http`'s sniffing of a content type that nobody set, which the model
  keeps as None.
- ServeMux path cleaning, the redirect from `/users` to `/users/`, and
  method patterns are left out. Lookup is longest-pattern matching over
  paths.
- The contents of `pkg/jwt` (HMAC signing and parsing) are left out. The
  validator is a parameter.
- The re-parsing of `referrer_id` read back from the database is left out.
  The column's foreign key makes it always a valid id, so the model stores
  an optional id.
- `Models.Time` is an opaque integer. Clocks come from `Env`.
- Uuids.ParseUuid: accepts only the 36-character hyphenated form.
  `uuid.Parse` also accepts the braced, `urn:uuid:` and 32-digit forms.
  Every route takes ids from one path segment in the form clients send, so
  the other forms are not modelled.
- Postgres.Credit: balances are unbounded integers. The 64-bit overflow of
  `points` in Go and in the database is not modelled.
- Router.Router.Handle: states only that the repository stays consistent.
  What a request does is stated by `Router.Run` for the stack and by
  `Router.Router.Serve` for the plan it produces.
- Router.Router.ServeHTTP: for a path a pattern serves, it states only that
  the repository stays consistent. See `Router.Router.Handle`.
- Router.RunIgnoresIdentity: the user id that `JWTAuth` stores in the
  request context is dropped, because no handler reads it.

## Findings

| source | as written | input that shows it | evidently intended | confidence | as-written member | corrected member |
|---|---|---|---|---|---|---|
| internal/repository/postgres/repository.go:116-133 | the query selects six columns (no `passw`) but `Scan` is given seven destinations, so `database/sql` fails the scan for every row found | GET /users/<id>/status for any existing user, with the database working: the answer is a 500 "Failed to get user: failed to get user: sql: expected 6 destination arguments in Scan, not 7" | scan the six selected columns and return the user; the status route answers 200 with the user | not executed | Postgres.Repository.GetUserByIDAsWritten, Handlers.UserStatusOfExistingUser | Postgres.Repository.GetUserByID |
