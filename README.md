# Task store with ownership scoping — a Dafny model

This project models the core of a small multi-user task service (a FastAPI
application over two SQLAlchemy tables). Users sign up and log in with a
password. A login returns a signed bearer token whose `sub` claim is the user
id. Every task route checks a shared `X-API-Key` header and resolves the bearer
token to a stored user. It then reads or writes only tasks whose owner is that
user.

The model has these parts:

- `Models` (`models.dfy`): the `users` and `tasks` rows as datatypes and the two-value `TaskStatus` enum. The column defaults for a new task are modelled too. `WellFormed` is the store's invariant. Each row is stored under its own id and usernames are unique; the database enforces these. Every task's owner exists; this is declared as a foreign key with `ON DELETE CASCADE`, but SQLite does not enforce it, because no connection issues `PRAGMA foreign_keys=ON`. It holds because the operations keep it: a task is inserted only under the user the gate has just resolved, and deleting a user through the session cascades to the user's tasks at the ORM level. The class `Database` holds the two tables as maps; `Database.DeleteUser` deletes a user and cascades to the user's tasks. `NextRowId` is SQLite's id assignment: one more than the largest id, or 1 in an empty table.
- `Security` (`security.dfy`): the claims `create_access_token` signs. The bcrypt hasher and the JWT codec are foreign code, so they are function-valued fields of `Crypto` and the model takes them as parameters. Two hypothesis predicates state what the model relies on from them. `VerifiesOwnHashes`: a digest verifies against its own password. `JwtContract`: a payload of the shape this program signs (a text `sub` and an integer `exp`, no other claim) decodes back while `exp` is still ahead, and is rejected from `exp` on. It says nothing about payloads with other claims (`nbf`, `iat`, `aud`, a non-text `sub`), which the library treats differently. These predicates are used only as preconditions of lemmas and scenarios.
- `Crud` (`crud.dfy`): looking up a user by username, and inserting a user.
- `Deps` (`deps.dfy`): the API-key check and the bearer-token-to-user resolution.
- `Auth` (`auth.dfy`): signup and login.
- `Tasks` (`tasks.dfy`): the five task routes, their shared gate `Authorize`, and the two owner-filtered queries.
- `Numerals` (`numerals.dfy`): Python's `str(int)` and `int(str)`. The token carries the user id as text, and the gate reads it back with these.
- `Scenarios` (`scenarios.dfy`): the login token round trip through the gate, and request sequences as a client sends them.
- `Http` and `Wrappers`: the `HTTPException` values the handlers raise (status code and detail), `Result`, and `Option`.

The route handlers are module-level methods that take the `Database`, as the
Python handlers take a session. Handlers that write declare `modifies db`.
Login and the two dependencies are functions of the users table, so they cannot
change the store. The clock is an integer parameter `now`, in seconds. A
timedelta is an optional number of seconds.

## Model

| member | source | states |
|---|---|---|
| `Models.StatusName` | app/models.py:12-14 | Each status member's stored name reads back as that same member. |
| `Models.StatusFromName` | app/models.py:12-14 | Only the texts "pending" and "completed" denote a status; anything else is no status. |
| `Models.NewTask` | app/models.py:34-38 | A new task starts `pending` and is stamped with the creation time. A missing description becomes `""`; id, owner and title are as given. |
| `Models.NextRowId` | app/models.py:29 | A new row's id is not yet in the table and exceeds every id in it. In an empty table it is 1. |
| `Models.WithoutOwner` | app/models.py:24 | After the cascade, exactly the tasks of other owners remain, unchanged. |
| `Models.CascadeKeepsWellFormed` | app/models.py:24-32 | Deleting a user together with that user's tasks, as the ORM cascade does, keeps every task's owner present, the unique usernames and the id keys intact. |
| `Models.Database.DeleteUser` | app/models.py:24 | Removes the user and every task the user owned, and nothing else. The store's invariant holds afterwards. |
| `Numerals.ParseIntOfIntToString` | app/deps.py:25 | `int(str(n)) == n` for every integer n. This is the format login writes into `sub` and the gate reads back. |
| `Numerals.ParseIntNeedsDigit` | app/deps.py:23-29 | A `sub` text with no digit in it never parses, so the gate reports an invalid token. |
| `Security.AccessClaims` | app/security.py:22-27 | The payload is the caller's claims plus `exp`; the claims passed in are not changed. `exp` is `now + expires_delta`, or `now + 60 min` when the delta is absent or zero. |
| `Crud.FindByUsername` | app/crud.py:6-7 | Finds a user exactly when some row has that username, and returns such a row. |
| `Crud.FindByUsernameUnique` | app/models.py:20 | With usernames unique, the lookup returns the one row holding the name. |
| `Crud.CreateUser` | app/crud.py:10-15 | Inserts exactly one user under a new id, storing the digest of the password. Other users and all tasks are unchanged. The function checks nothing itself; a duplicate name fails at commit on the unique constraint with a server error and no change. |
| `Deps.RequireApiKey` | app/deps.py:14-16 | Accepts exactly a header equal to the configured key. A missing or empty header is rejected whatever the key is. |
| `Deps.CurrentUser` | app/deps.py:19-35 | No bearer token: "Not authenticated". A token that fails to decode, or has a missing or non-integer `sub`: "Invalid token". An id with no row: "User not found". Otherwise the user stored under `int(sub)`. |
| `Deps.TokenSubjectOfIssued` | app/security.py:22-32 | Under `JwtContract`, a token signed over `sub = str(id)` reads back as `id` before its expiry and fails from the expiry on. |
| `Auth.Signup` | app/routers/auth.py:19-26 | A taken username gives "Username already taken" and adds no user. Otherwise exactly one user with that name and the password's digest is added, under a fresh id. Usernames stay unique. |
| `Auth.Login` | app/routers/auth.py:34-45 | Every failure is the same 401 "Invalid credentials", including an unknown username. Success needs a user with that name whose digest verifies the password. The token is the signed claims `sub = str(id)` with a 60-minute lifetime, of type "bearer". |
| `Auth.LoginSucceedsIff` | app/routers/auth.py:37-41 | For a stored user, login succeeds exactly when the password verifies. A wrong password gives the same error as an unknown name. |
| `Tasks.Authorize` | app/routers/tasks.py:18-19 | A task request passes exactly when the token resolves to a user and the API key matches. A wrong or missing key, or a missing token, always rejects. |
| `Tasks.GetAgreesWithList` | app/routers/tasks.py:53-57 | The by-id query finds a task exactly when a task with that id is in the caller's list, and it returns that listed row. |
| `Tasks.OwnedTasks` | app/routers/tasks.py:39 | Holds every task of the caller and no other task, each once, in ascending id order. |
| `Tasks.CreateTask` | app/routers/tasks.py:16-28 | After the gate passes: exactly one new task under a fresh id, owned by the caller, with the given title and description and status pending. All existing tasks are unchanged. A rejected request changes nothing. |
| `Tasks.ListTasks` | app/routers/tasks.py:34-39 | After the gate passes, returns exactly the caller's tasks (`OwnedTasks`); it never writes. |
| `Tasks.GetTask` | app/routers/tasks.py:47-60 | Returns the caller's task with that id. "Task not found" is returned alike when no task has the id and when another user owns it. |
| `Tasks.UpdateTaskStatus` | app/routers/tasks.py:68-85 | On the caller's task only `status` changes, and all other tasks are untouched. A missing or foreign task gives "Task not found" and no change. |
| `Tasks.DeleteTask` | app/routers/tasks.py:89-104 | Removes exactly the caller's task with that id. A missing or foreign task gives "Task not found" and no change. |
| `Scenarios.LoginTokenIdentifiesUser` | app/routers/auth.py:42-45 | Under `JwtContract`, the token from a login resolves to the user who logged in for 60 minutes. From then on it is "Invalid token". |
| `Scenarios.TaskCrudFlow` | tests/test_tasks.py:18-50 | With the default key "123456": bob signs up and logs in, creates "t1" with description "d" and gets a pending task. The list holds just that task, a read by id returns it, the update completes it and the delete succeeds. One step beyond the test: a read after the delete gives "Task not found". |
| `Scenarios.RequiresApiKeyAndToken` | tests/test_tasks.py:53-62 | With a valid token and no API key the request gets 401 "Invalid or missing API Key"; with the default key and no token it gets 401 "Not authenticated". |
| `Scenarios.OtherUsersTaskIsHidden` | app/routers/tasks.py:53-59 | The owner reads the task. Another user gets "Task not found", the same answer as for an id no task has. |
| `Scenarios.SignupTwice` | app/routers/auth.py:20-24 | A second signup under the same name gives "Username already taken", and one row holds the name. |
| `Scenarios.DeletedUserLosesTasks` | app/models.py:24 | After a user is deleted, the user's tasks are gone and the old token gets "User not found". |

## Notes on the code's behaviour

- The `create_task` handler (app/routers/tasks.py:22-24) does not check the title itself. Whether the payload schema refuses an empty title is not part of this model.
- A token naming a missing user is rejected with its own detail, "User not found", not the same detail as an invalid token.
- The API key is compared with `!=`, not in constant time.
- The foreign key `tasks.user_id -> users.id` with `ON DELETE CASCADE` (app/models.py:30-32) is declared but not enforced: the store is SQLite (app/database.py:6) and the engine (app/database.py:11-14) never turns on `PRAGMA foreign_keys`. Tasks disappear with their user only through the ORM relationship's cascade (app/models.py:24).
- The `X-API-Key` header is optional in `require_api_key` (app/deps.py:14-16), so a request without it gets 401 "Invalid or missing API Key", not a 422 validation error.
- The dependencies run in declaration order: the token first, then the API key. A request with a bad token and no key is rejected with the token's error. The model only claims that such a request is rejected.
- `signup` checks the name and then inserts. The unique constraint on `users.username` is what rejects a duplicate at commit. In `Crud.CreateUser` that is a server error; `Auth.Signup` reports "Username already taken" before it gets there.

## Left out

- Process startup, table creation, the `/health` endpoint and the per-request session are not modelled. A `Database` object stands for the committed tables.
- bcrypt and JWT: hashing, verifying, encoding and decoding are parameters, not implementations. The random salt of a bcrypt digest is not modelled (`hash` is a function). The PyJWT behaviour the lemmas rely on is the stated hypothesis `JwtContract`; it is not proved.
- `Security.CreateAccessToken` has no contract of its own: it is the encoder applied to `Security.AccessClaims`, which carries the properties.
- The clock is an integer number of seconds. Sub-second precision is not modelled, nor is timezone handling.
- Request-body validation is done by FastAPI and is not modelled. This covers rejecting a status outside the enum and the schemas for task payloads, which the model does not include. A task payload without a description is modelled as taking the column default `""`.
- `Numerals.ParseInt` covers ASCII whitespace and ASCII digits. Python's `int()` also accepts other Unicode spaces and digits, and refuses texts over 4300 digits; neither is modelled.
- Claim values other than text and integers (floats, booleans, null, arrays, objects) are not modelled.
- SQLite's 64-bit limits are not modelled. This covers the random id chosen when the largest id is 2^63-1, and the overflow error when a token's `sub` lies outside the 64-bit range.
- The listing query has no ORDER BY. The model returns the rows in ascending id order, the order a table scan yields.
- HTTP status codes on success (201, 204) and response serialisation are not modelled.
- Concurrency: two simultaneous signups racing between the check and the insert are outside this sequential model.
- No route deletes a user. `Database.DeleteUser` models the session-level delete and its cascade.
- Column length limits (`String(50)`, `String(255)`) are not modelled; SQLite does not enforce them.
