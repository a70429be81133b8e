# Task-board server core in Dafny

This project models the server side of a small task-board web application. Users register and log in
with an email address and a password, and the session lives in a `token` cookie. Each user owns
boards, and each board holds tasks. The modelled parts are:

- **The in-memory store** (`lib/db.js`). It is the class `Db.Database`, with three `seq<Record>`
  fields: `users`, `boards` and `tasks`. Each store function is a method with a `modifies` frame.
  The lookups and filters are loops, proved equal to the specification functions `Find`,
  `FindIndex` and `Filter`. Deleting a board also deletes its tasks. The invariant "every task
  names a stored board" (`Consistent`) is kept by every write that meets its condition:
  - `CreateUser`, `CreateBoard`, `DeleteBoard` and `DeleteTask` keep it unconditionally;
  - `UpdateBoard` keeps it when the update does not set `id`;
  - `UpdateTask` keeps it when the update does not set `boardId`;
  - `CreateTask` keeps it when the named board is stored.

  Every caller in the application meets these conditions:
  - `pages/api/boards/[boardId].js:72-74` updates a board with `title` only;
  - `pages/api/tasks/[taskId].js:65-108` builds the task update from `title`, `description`,
    `status` and `dueDate`, never `boardId`;
  - `createNewTask` looks the board up before it creates the task.
- **The middleware** (`lib/middleware.js`).
  - The ownership checks are pure functions returning `Pass` or `Fail(message)`.
  - `authenticate` is the function `Authentication` (the decision) plus the method `Authenticate`,
    which sets `req.user`.
  - `withAuth` appears as the `Endpoint` method of each protected handler module. That method runs
    the handler only when authentication accepted the request.
- **The helpers** (`lib/auth.js`): the email and password validators, token extraction, the cookie
  options, and the `Set-Cookie` text that register and login build from them.
- **The API handlers**: boards, tasks, register, login and current user.
  - Each handler's chain of checks is a pure decision function. It returns either a response
    (`Reply`) or the one record to create (`Insert`).
  - Handlers that write are methods proved against that function through a `Handled` predicate:
    - a `Reply` leaves the collection unchanged;
    - an `Insert` appends exactly one record and answers with it.
  - Login and the current-user handler only read the store, so they are functions.

JavaScript values are the primitives of `Js.Json`. A record is a `map<string, Json>`, object spread is
map union, and `===` is equality. String `length` counts UTF-16 code units. `trim` and `\s` use the
ECMAScript whitespace set. A truthy non-string where the code calls a string method
(`title.trim()`) raises a TypeError, which the handler's catch block turns into a 500.

The foreign and environmental parts are parameters:
- bcrypt and JWT are the uninterpreted functions of `Auth.Crypto` (`hash`, `compare`, `sign`,
  `verify`);
- `uuidv4()` is the `id` argument of the writing methods;
- `new Date().toISOString()` is the `now` argument;
- `new Date(dueDate)` followed by `toISOString()` is `parseDate`, returning `None` for an invalid
  date;
- `process.env.NODE_ENV === 'production'` is `production`.

Three behaviours of the code are easy to misread:
- The session cookie joins the option object as `key=value` pairs:
  `token=<t>; httpOnly=true; secure=<true|false>; sameSite=strict; maxAge=604800000; path=/`.
  The age is therefore written in milliseconds, under the attribute name `maxAge`, and
  `secure=false` is sent outside production. `Auth.SessionCookieText` states this text.
- The title error texts say "less than 100" (boards) and "less than 200" (tasks), but the checks
  accept a trimmed title of exactly 100 (or 200) UTF-16 units.
- The three refusals of `authenticate` share the status 401 but carry different messages:
  "Access denied. No token provided.", "Invalid token." and "Invalid token. User not found.".

## Model

| member | source | states |
|---|---|---|
| Js.Utf16Length | pages/api/boards/index.js:35-39 | `length` counts one or two code units per character, so it lies between the character count and twice that |
| Js.Includes | pages/api/tasks/index.js:70 | `includes` holds when the part occurs at some index; an empty part is always included, and an included part is no longer than the text |
| Js.Trim | pages/api/boards/index.js:35 | `trim` gives the part of the input between a whitespace prefix and a whitespace suffix: it occurs in the input, everything before and after it is whitespace, it starts and ends with non-whitespace, and it is empty exactly when the input is all whitespace |
| Js.TrimEnd | pages/api/boards/index.js:35 | the trailing part it drops is all whitespace and the result does not end in whitespace |
| Js.TrimStart | pages/api/boards/index.js:35 | the leading part it drops is all whitespace and the result does not start in whitespace |
| Js.TrimIdempotent | pages/api/tasks/index.js:59 | trimming an already trimmed title changes nothing |
| Js.ToLowerCase | pages/api/auth/register.js:27 | `toLowerCase` keeps the length and lowers each ASCII capital |
| Js.ToLowerCaseIdempotent | pages/api/auth/register.js:35 | a lowered address lowers to itself, so a stored address is its own lookup key |
| Js.NatToString | pages/api/auth/register.js:43 | a non-negative number renders as a non-empty run of decimal digits |
| Js.NatToStringValue | pages/api/auth/register.js:43 | the rendered digits spell the number back, with no leading zero |
| Db.FindIndex | lib/db.js:50 | `findIndex` gives -1 exactly when nothing matches, and otherwise the first matching position |
| Db.Find | lib/db.js:22-28 | `find` gives nothing exactly when no record matches with `===`, and otherwise the first match |
| Db.FindAppend | lib/db.js:18 | after a push, an existing match is still found first, and the new record is found only when nothing earlier matched |
| Db.Filter | lib/db.js:41-43 | `filter` never grows the collection |
| Db.FilterSnoc | lib/db.js:37-43 | filtering a collection after a push filters the pushed record last, so stored order is kept |
| Db.FilterMembers | lib/db.js:41-43 | a record is kept exactly when it is stored and its match equals the wanted outcome |
| Db.FilterPartition | lib/db.js:66 | the kept tasks and the removed tasks together make up the old collection |
| Db.RejectedLeaveNoMatch | lib/db.js:66 | after keeping the tasks of other boards, no task of the deleted board remains |
| Db.RemoveAt | lib/db.js:67 | `splice(i, 1)` keeps the records before `i` and moves the later ones down by one |
| Db.NewRecord | lib/db.js:13-17 | a created record has the fresh id, every supplied field, defaults for missing fields, and a fresh `createdAt` that overrides the data |
| Db.Merge | lib/db.js:53-57 | an update keeps absent fields, takes supplied ones and sets `updatedAt` |
| Db.CascadePreservesReferences | lib/db.js:61-69 | removing a board with its tasks leaves every remaining task pointing at a stored board |
| Db.RemoveTaskPreservesReferences | lib/db.js:103-109 | removing one task keeps every other task's board |
| Db.IndexOfMatch | lib/db.js:50 | the scan returns exactly `FindIndex` |
| Db.CollectMatches | lib/db.js:42 | the scan returns exactly `Filter` |
| Db.Database.constructor | lib/db.js:5-9 | the store starts with three empty collections |
| Db.Database.CreateUser | lib/db.js:12-20 | appends exactly the new user and returns it; boards and tasks are unchanged |
| Db.Database.FindUserByEmail | lib/db.js:22-24 | the first user whose email is the argument, with no case folding |
| Db.Database.FindUserById | lib/db.js:26-28 | the first user with that id, or nothing |
| Db.Database.CreateBoard | lib/db.js:31-39 | appends exactly the new board and returns it; users and tasks are unchanged; consistency is kept |
| Db.Database.GetBoardsByUserId | lib/db.js:41-43 | exactly the boards of that owner, in stored order |
| Db.Database.GetBoardById | lib/db.js:45-47 | the first board with that id, or nothing |
| Db.Database.UpdateBoard | lib/db.js:49-59 | unknown id: null and no change; otherwise only the first match is replaced by the merge, and length and other records are unchanged; consistency is kept when the update does not set `id` |
| Db.Database.DeleteBoard | lib/db.js:61-69 | true exactly when the id is stored; then the board is spliced out, every task of the board is removed, the other tasks keep their order, and no task of that board remains |
| Db.Database.CreateTask | lib/db.js:72-81 | appends exactly the new task (status pending unless the data sets it); consistency is kept when the named board exists |
| Db.Database.GetTasksByBoardId | lib/db.js:83-85 | exactly the tasks of that board, in stored order |
| Db.Database.GetTaskById | lib/db.js:87-89 | the first task with that id, or nothing |
| Db.Database.UpdateTask | lib/db.js:91-101 | unknown id: null and no change; otherwise only the first match is merged; users and boards are unchanged; consistency is kept when the update does not set `boardId` |
| Db.Database.DeleteTask | lib/db.js:103-109 | true exactly when the id is stored; then only that task is removed; users and boards are never touched |
| Auth.VerifyToken | lib/auth.js:25-31 | success exactly when verification succeeds, with its payload; every failure is the single error "Invalid token" |
| Auth.ValidEmailShape | lib/auth.js:34-37 | the regular expression accepts exactly strings with no whitespace and exactly one `@`, not first, followed by a `.` that is neither first nor last in the domain |
| Auth.IsValidEmail | lib/auth.js:34-37 | the regular expression `^[^\s@]+@[^\s@]+\.[^\s@]+$` as a split into three non-empty runs without whitespace or `@`; an accepted address has at least five characters and contains `@` |
| Auth.EmailExamples | lib/auth.js:34-37 | `a@x.com` is accepted; two `@`s, a space, a dot right after `@` or at the end are rejected |
| Auth.ValidEmailIgnoresCase | lib/auth.js:34-37 | lowering the letters never changes whether an address is accepted |
| Auth.IsValidPassword | lib/auth.js:40-42 | valid exactly when the password is a string of at least 6 UTF-16 units |
| Auth.GetTokenFromCookies | lib/auth.js:45-47 | the `token` cookie, or nothing when there are no cookies, no token, or an empty one |
| Auth.GetCookieOptions | lib/auth.js:50-56 | httpOnly, sameSite strict, maxAge 604800000, path `/`; secure exactly in production |
| Auth.HeaderText | pages/api/auth/register.js:43 | the header is `token=<t>; ` followed by each option as `name=value`, in declaration order, joined by `; ` |
| Auth.SetCookieHeader | pages/api/auth/register.js:43 | the `Set-Cookie` template of register and login: the header starts with `token=<token>; ` and continues with the joined options |
| Auth.JoinCons | pages/api/auth/register.js:43 | joining one more pair in front adds that pair and one separator |
| Auth.SessionCookieText | pages/api/auth/login.js:38 | the concrete cookie text, with `secure` following the environment and the age in milliseconds |
| Auth.MaxAgeText | lib/auth.js:54 | seven days in milliseconds renders as `604800000` |
| Auth.StoredCookieIsToken | pages/api/auth/register.js:40-43 | the cookie a browser keeps from the header is named `token` and holds exactly the signed token |
| Http.PublicUser | pages/api/auth/register.js:46-53 | the returned user has exactly `id`, `email` and `createdAt` from the stored record, and never the password |
| Http.WithoutPassword | pages/api/auth/user.js:25-26 | every field of the stored user except `password` |
| Http.Request.constructor | lib/middleware.js:22 | a request starts with no authenticated user |
| Middleware.CheckBoardOwnership | lib/middleware.js:48-56 | passes exactly when the board exists and is owned by the caller; a missing board gives "Board not found", someone else's board gives the access-denied message |
| Middleware.CheckTaskOwnership | lib/middleware.js:58-69 | checks task, then board, then owner, with the three messages in that order; passes exactly when all three hold |
| Middleware.DenialMessages | lib/middleware.js:50-66 | a failure message mentions "Access denied" exactly when the resource exists but belongs to someone else |
| Middleware.AccessDeniedIn | lib/middleware.js:53 | the ownership messages contain "Access denied" |
| Middleware.NoAccessDenied | lib/middleware.js:50 | the not-found messages do not contain "Access denied" |
| Middleware.Principal | lib/middleware.js:22-25 | `req.user` is exactly `{id, email}` of the stored user, with no password |
| Middleware.Authentication | lib/middleware.js:6-34 | accepted exactly when a token is present, verifies, and its `userId` names a stored user, and then the principal is that user's; otherwise 401 with no cookie and the message of the failing step: "Access denied. No token provided." without a token, "Invalid token." when it does not verify, "Invalid token. User not found." when no stored user has its `userId` |
| Middleware.Authenticate | lib/middleware.js:6-34 | on acceptance sets `req.user` to the principal and reports no denial; otherwise leaves `req.user` and returns the 401 |
| BoardsApi.CheckTitle | pages/api/boards/index.js:32-41 | the title passes exactly when it is a string whose trimmed length is 1 to 100, and the result is the trimmed title; a missing or blank title gives "required", a longer one gives "less than 100", a non-string gives 500 |
| BoardsApi.ListStep | pages/api/boards/index.js:19-27 | GET answers 200 with exactly the list `getBoardsByUserId` returns for the caller (the caller's boards in stored order, each once), and 500 without `req.user` |
| BoardsApi.CreateStep | pages/api/boards/index.js:30-58 | a failed title check is answered with CheckTitle's error (400 required or too long, 500 for a non-string); a valid title without `req.user` gives 500; otherwise it creates the board with owner = caller and title = trimmed input |
| BoardsApi.BoardsStep | pages/api/boards/index.js:5-16 | GET is answered by ListStep, POST exactly by CreateStep, any other method by 405 without writing |
| BoardsApi.BoardRoundTrip | pages/api/boards/index.js:44-52 | a created board is found again by its fresh id with the caller as owner and the trimmed title, and it comes last in the caller's list |
| BoardsApi.GetBoards | pages/api/boards/index.js:19-27 | answers exactly `ListStep` on the current store |
| BoardsApi.CreateNewBoard | pages/api/boards/index.js:30-58 | either answers without writing or appends exactly the decided board and answers 201 with it; users and tasks are unchanged |
| BoardsApi.Handler | pages/api/boards/index.js:5-16 | carries out `BoardsStep`: at most one board created, nothing else written |
| BoardsApi.Endpoint | pages/api/boards/index.js:60 | the handler runs, as the authenticated user, only when authentication accepts; otherwise the 401 is returned and nothing is written |
| TasksApi.CheckFields | pages/api/tasks/index.js:19-36 | checks board id, title, title length (at most 200 once trimmed) and description length (at most 1000 for a string), in that order, before any lookup: a missing board id, a missing or blank title, an over-long trimmed title and an over-long description each get their own 400 once the earlier checks pass, and a truthy non-string title gives 500 |
| TasksApi.ResolveDueDate | pages/api/tasks/index.js:47-54 | no due date gives null; an unparsable one gives 400 "Invalid due date format"; otherwise the normalised date |
| TasksApi.DescriptionValue | pages/api/tasks/index.js:60 | the trimmed description, or `''` when none was given; a truthy non-string gives 500 |
| TasksApi.Caught | pages/api/tasks/index.js:69-75 | a thrown message containing "Access denied" gives 403 with that message, anything else gives 500 |
| TasksApi.CreateStep | pages/api/tasks/index.js:17-76 | creates exactly when the fields pass, the board exists and is the caller's, the due date parses, and the description is usable, with the four decided fields; otherwise the first failing step answers: the field check's error, 404 for an unknown board, 500 without `req.user`, 400 "Invalid due date format" for an unparsable date on an owned board, and 500 for a non-string description |
| TasksApi.TasksStep | pages/api/tasks/index.js:5-14 | only POST is served; anything else gives 405 |
| TasksApi.ForeignBoardIs403 | pages/api/tasks/index.js:44-72 | a valid request on someone else's board gives 403 with the ownership message |
| TasksApi.DueDateCheckedLast | pages/api/tasks/index.js:47-54 | the invalid-date answer comes only after the field checks and the board and ownership checks passed |
| TasksApi.NewTaskFields | lib/db.js:73-78 | the stored task has the fresh id, status pending, `createdAt`, and the four fields as given |
| TasksApi.CreatedTask | pages/api/tasks/index.js:57-67 | a created task has the request's board id, trimmed title, trimmed or empty description, normalised or null due date, status pending, and it names a board of the caller |
| TasksApi.CreateNewTask | pages/api/tasks/index.js:17-76 | carries out `CreateStep`: either answers without writing or appends exactly the decided task and answers 201; users and boards are unchanged; consistency is kept |
| TasksApi.Handler | pages/api/tasks/index.js:5-14 | carries out `TasksStep` |
| TasksApi.Endpoint | pages/api/tasks/index.js:78 | the handler runs only after authentication accepts, as that user |
| RegisterApi.RegisterStep | pages/api/auth/register.js:6-37 | 405 for non-POST, then 400s in order (missing fields, email format, password length, existing lowered address), each answer stated for the requests that passed the earlier checks; creates exactly when all pass, storing the lowered address and the hash of the password, never the plaintext |
| RegisterApi.RegisterKeepsEmailsCanonical | pages/api/auth/register.js:27-37 | registration keeps stored addresses lowercase and pairwise distinct |
| RegisterApi.Handler | pages/api/auth/register.js:5-59 | carries out `RegisterStep`: at most one user created, answering 201 with the public fields and the session cookie for the new id |
| LoginApi.Login | pages/api/auth/login.js:5-54 | 405 for non-POST; 400 for a missing field, then 400 for an invalid address; 200 exactly when the lowered address names a user whose hash matches the password, with the public fields and the session cookie for that user's id; an unknown address and a wrong password both give 401 "Invalid email or password"; a password or stored hash bcrypt cannot compare gives 500 |
| LoginApi.LoginIgnoresCase | pages/api/auth/login.js:23 | two spellings of an address that lower alike get the same answer |
| UserApi.CurrentUser | pages/api/auth/user.js:6-30 | 405 for non-GET, 500 without parsed cookies, 401 without a token; a 200 carries a user record without password |
| UserApi.CurrentUserMatchesAuthenticate | pages/api/auth/user.js:11-29 | with cookies present it refuses exactly as authenticate does, and otherwise returns the stored user authenticate would install, minus the password |
| Scenarios.RegistrantByEmail | pages/api/auth/register.js:33-37 | a registered user is found under the lowered address, with the fresh id and the hashed password |
| Scenarios.RegisterThenLogin | pages/api/auth/login.js:23-48 | right after registering, logging in with the same password and the address in any letter case succeeds for the new user |
| Scenarios.DuplicateRegistration | pages/api/auth/register.js:27-30 | registering the same address again, in any letter case, gives 400 "User with this email already exists" |
| Scenarios.SessionRoundTrip | lib/middleware.js:8-25 | the cookie set at registration, sent back, authenticates the new user and the current-user handler returns that user without the password, for any verifier that returns a payload whose `userId` is the signed one (whatever else it carries, such as `iat` and `exp`) |

## Left out

- The React components and pages, `pages/api/auth/logout.js` and `pages/test.js`: UI and constant
  responses with no server logic.
- The by-id board and task handlers (`pages/api/boards/[boardId].js`, `pages/api/tasks/[taskId].js`,
  `pages/api/tasks/board/[boardId].js`). Only the store operations they call are modelled.
- bcrypt and JWT internals, including the 7-day token expiry and the cost factor 12. They are the
  uninterpreted functions of `Auth.Crypto`, and `hash` is a function of the password alone.
- The asynchronous nature of the handlers, and concurrency. Requests are sequential, so the
  check-then-create race in register is not modelled.
- uuid generation and clocks are parameters. Freshness of an id is a precondition where a lemma
  needs it.
- Date parsing is the `parseDate` parameter. Floating-point time is not modelled.
- Body values are primitives only (no nested objects or arrays), numbers are integers, and
  `req.body` is always an object.
- Js.ToLowerCase: lowers ASCII letters only; the Unicode case mappings of `toLowerCase` are not modelled.
- `getDatabase` and `initializeDatabase` (a debugging accessor and a log line), logging, and the
  optional `next` callback of `authenticate`, which `withAuth` never passes.
- `withAuth` as a higher-order function is not modelled. Each protected module's `Endpoint` method
  is that wrapper applied to the module's handler.
- UserApi.CurrentUser: `pages/api/auth/user.js` reads `JWT_SECRET` without the fallback that
  `lib/auth.js:6` has, and imports a `USERS` export that `lib/db.js` does not define. Both are left
  out: the handler is given the same `verify` as the rest of the model.
- The response for an exception outside any try block (only in `pages/api/auth/user.js`) is the
  framework's own 500 page, modelled as the payload `Crash`.
