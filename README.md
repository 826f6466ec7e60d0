# goedd chat service — Dafny model of the request handlers

The service lets users sign up and log in, keeps a server-side session per
cookie, and lets logged-in users append to a shared chat log. This project
models the handlers of `main.go` as one sequential state machine over three
pieces of state, held as fields of the class `Service.Server`:

- `users`: the `users` table, username ↦ bcrypt digest;
- `sessions`: the cookie session store, token ↦ the session's `"userName"`
  value (a missing key is Go's `nil`; logout writes the one-byte string `"a"`,
  `Types.LoggedOut`);
- `chat`: the `chat` table, a sequence of rows (id, author, contents, time).

Go strings are byte strings, so names, passwords and chat bodies are
`seq<byte>` and every length limit counts bytes. bcrypt is kept
uninterpreted (`Hashing.Hasher`: a generating function that may fail and a
comparing function with three outcomes); the only law assumed is that a
generated digest matches its own password (`Hashing.Sound`). What MySQL and
the session store answer during one request (a driver error on a SELECT or
an INSERT, an error from `session.Get`, a failed `sess.Save`) is the
parameter `Types.Env`.

Modules: `Types` (records, status codes), `Hashing` (bcrypt), `Validation`
(the pure field checks, the gate's test, whoami's own logic), `ChatLog`
(largest id, next id, the density invariant), `Service` (the class and the
session invariants), `Scenarios` (clients chaining requests).

Main results:

- The sentinel `"a"` can never be registered (signup needs more than two
  bytes), so, with names compared byte for byte, the gate admits a token
  exactly when its session holds a registered name
  (`Service.GateAdmitsExactlyRegistered`, `Service.Server.Gate`); see the
  collation line under "## Left out" for what MySQL's default comparison changes.
- Whatever the `chat` table holds, when the max-id query answers, the id a
  post computes exceeds every id already in it (`ChatLog.NextId`); when the
  query fails the handler as written repeats id 1 (`ChatLog.IdAsWritten`).
- Every handler keeps `Server.Valid()`: registered names are longer than two
  bytes, every session holds the sentinel or a registered name, and the i-th
  chat row has id i + 1 (`ChatLog.Dense`). `Dense` describes a table this
  service built from empty, which is where the constructor starts; it is not
  a claim about a table filled by other means. Under it, for posts served one
  at a time, ids are unique, strictly increasing, gap-free and start at 1
  (`ChatLog.DenseAppend`, `ChatLog.DenseIdsIncrease`). This holds for the
  corrected chat post only: the handler as written can repeat id 1 when its
  max-id query fails (see `Service.Server.PostChat` under "## Left out" and
  "## Findings").

Notes on what the code does: an unknown username at login answers 500 (the
`sql.ErrNoRows` of `db.Get`), the same status as a database error, and not
403; duplicate signups are found by a `SELECT COUNT(*)` before the insert,
not by a uniqueness constraint; the logged-out state is the string `"a"`
written into the identity field, not a separate state; the chat limit is
200 bytes, not 200 characters; the next id is the largest id plus one, read
and then inserted. The model follows the code on every branch except one:
a failed max-id query in the chat post answers 500 in `Service.Server.PostChat`,
where the code goes on with id 0 (see "## Left out" and "## Findings").

## Model

| member | source | states |
|---|---|---|
| `Validation.SignUpFieldsValidMeans` | main.go:101-107 | signup's two field checks pass exactly when both fields are at least three bytes long; an empty field is always also a short one |
| `Validation.SentinelNeverSignsUp` | main.go:105 | no username that passes signup validation equals the logout sentinel "a" |
| `Validation.ContentsValidMeans` | main.go:213 | the chat body check accepts exactly bodies of 1 to 200 bytes |
| `Validation.WhoAmIHandler` | main.go:191-199 | whoami's own logic reports the name exactly when the gate would admit the value, and panics exactly when the value is nil |
| `ChatLog.MaxIdIsMaximum` | main.go:217 | the largest-id query's answer bounds every id and, on a non-empty table, is one of them |
| `ChatLog.NextId` | main.go:216-218 | the id of a post is at least 1, exceeds every existing id, is 1 on an empty table and otherwise follows an existing id |
| `ChatLog.DenseMaxId` | main.go:217 | on a log whose i-th row has id i + 1, the largest id is the number of rows |
| `ChatLog.DenseAppend` | main.go:216-218 | appending a row with the next id to a dense log gives id \|log\| + 1 and keeps the log dense |
| `ChatLog.DenseIdsIncrease` | main.go:218 | ids in a dense log are strictly increasing in log order and pairwise distinct |
| `ChatLog.IdAsWritten` | main.go:216-218 | the id the handler as written inserts exceeds every existing id when the max-id query answers, but when the query's error is ignored it equals the first row's id on any non-empty table this service built, a duplicate |
| `ChatLog.FailedQueryRepeatsId` | main.go:216-218 | on any non-empty dense log, a failed max-id query makes the as-written handler insert a second row with id 1 |
| `Service.GateAdmitsExactlyRegistered` | main.go:170-173 | under the session invariants the sentinel is not a registered name and the gate's test holds exactly when the session holds a registered name |
| `Service.Server.constructor` | main.go:39-46 | the service starts on empty tables and an empty session store, satisfying the invariant; starting empty is an assumption of the model, since these lines attach to tables that already exist |
| `Service.Server.SignUp` | main.go:96-130 | 400 exactly when a field is empty or at most two bytes; 409 exactly when the name exists after hashing and the count query succeed; 201 exactly when everything succeeds, adding exactly the name ↦ generated digest; otherwise 500; no other table or session changes |
| `Service.Server.LogIn` | main.go:132-160 | 200 exactly when the name exists, the digest matches and the session is read; 403 exactly on a mismatch; 500 otherwise (including an unknown name); only a 200 with a successful save changes the store, binding exactly this token to the name |
| `Service.Server.Gate` | main.go:162-177 | 500 on a session read error; otherwise admits exactly the tokens whose session holds a registered name, passing that name on; nil and "a" are refused with 403 |
| `Service.Server.WhoAmI` | main.go:61 | the gated whoami route answers 200 with the session's name exactly when the gate admits, 403 or 500 with no name otherwise |
| `Service.Server.LogOut` | main.go:200-207 | always 200; a successful save sets exactly this token's value to "a" and changes nothing else |
| `Service.Server.PostChat` | main.go:208-223 | 403 or 500 from the gate leave the log unchanged; 400 exactly for a body that is empty or over 200 bytes; 200 exactly when the gate admits, the body is valid and the query and insert succeed, appending exactly one row with id = largest id + 1 = row count + 1, author = session name; the invariant keeps ids unique and increasing |
| `Scenarios.SignUpTwice` | main.go:114-123 | a second signup for a name the first one registered answers 409 |
| `Scenarios.SignUpThenLogIn` | main.go:125-159 | after a successful signup, logging in with the same password answers 200 and binds the token to the name |
| `Scenarios.LogOutThenGated` | main.go:170-175 | after logout, whoami and a chat post with that token both answer 403 and the log is unchanged |
| `Scenarios.PostTwice` | main.go:216-218 | two successful posts in a row get the two ids following the previous largest id |
| `Scenarios.EndToEnd` | main.go:96-223 | signup alice, login, whoami, post "hello", logout, whoami on a fresh service answer 201, 200, 200, 200, 200, 403; whoami reports alice; the first post has id 1 |

## Left out

- Startup and routing (`main`, main.go:27-64): connecting to MySQL from environment variables, the echo router and middleware. Routes appear only as the composition of `Gate` with the handler in `WhoAmI` and `PostChat`.
- `getAllChatHandler` (main.go:224-227): it uses an undefined `id` and has no return statement, so it has no behaviour to model; reading a message or the thread is therefore not modelled.
- `getCityInfoHandler` (main.go:179-189) and the `City` record: a pass-through query of an unrelated table.
- dbAdd.go and haha.go: command-line scripts doing one insert or one select on the `city` table.
- bcrypt internals, its random salt and its 72-byte limit: kept inside the uninterpreted `Hashing.Hasher`.
- Session TTL expiry, cookie encoding and the generation of new session ids: the token is taken as given; a client without a cookie is a token with no session.
- Concurrency: requests are served one at a time, so the race between the max-id read and the insert (main.go:217-218) and between the signup count and insert (main.go:116-125) cannot appear; uniqueness of ids is proved for serialized posts only.
- MySQL collation: name comparisons in the queries are modelled as exact byte equality, not MySQL's case-insensitive, trailing-space-insensitive default. Under that default: signing up "ALICE" after "alice" answers 409 (main.go:116-123) where the model answers 201; logging in as "ALICE" stores in the session (main.go:156) a spelling that is not registered, and the gate (main.go:170) admits it; a user registered as "a  " who logs in as "a" gets the sentinel written as their name and is refused by the gate. The gate results therefore hold for byte-exact comparison only.
- Response bodies and error messages: handlers return the status code only (and whoami the name).
- Session read errors that whoami, logout and the chat handler ignore (main.go:192, 201, 209): behind the gate the store returns the session the gate already read; logout's write is modelled on the request's token.
- The nil type-assertion panic in getWhoAmIHandler and postChatHandler (main.go:197, 210) is only reachable without the gate; it is modelled as the `Panic` reply of `Validation.WhoAmIHandler`, and not for the chat handler.
- Go's 64-bit `int` for ids: ids are unbounded naturals; wrap-around after 2^63 - 1 posts is not modelled.
- Service.Server.PostChat: answers 500 when the max-id query fails, where the code goes on with id 0 (see Findings).

## Findings

| source | as written | input that shows it | evidently intended | confidence | as-written member | corrected member |
|---|---|---|---|---|---|---|
| main.go:216-218 | the error of the max-id `db.Get` is discarded, `id` stays 0 and the row is inserted with ID 1 | a chat table with rows 1..n (n ≥ 1), the max-id SELECT fails with a driver error, the INSERT succeeds: a second row with ID 1 | a failed read answers 500 and leaves the table unchanged; only the empty table (no row) starts at id 1 | medium, not executed; a primary key on chat.ID (the schema is not part of this model) would turn the duplicate into a 500 from the INSERT | `ChatLog.FailedQueryRepeatsId` | `Service.Server.PostChat` |
