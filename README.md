# meetup-maker: sessions, users and the client's request protocol, in Dafny

meetup-maker is a small event-scheduling application: a Python websocket
backend over an sqlite database, and a React client. This project models the
parts of both that carry logic of their own:

- **Backend session table** (`server.dfy`, module `Server`): `g_sessions`, a
  dictionary from session token to the time it was last seen, with
  `validate_token`/`heartbeat` (refuse, evict or refresh), `_handle_signup`
  (issue a fresh token on success), `signup`, `login`, and one turn of the
  `_server` message loop. The class `SessionServer` holds the table as a
  `map<string, int>` and updates it in place; the pure function `Validate`
  states what one validation does, and the method is proved against it.
- **Users relation** (`database.dfy`, module `Database`): the `users` table,
  unique by email, as a `map<string, User>` inside the class `Connection`,
  with `create_tables`, `user_exists`, `credentials_valid` and `add_user`.
  Password verification is a parameter `verify(storedHash, password)`.
- **Wire vocabulary** (`api.dfy`, module `Api`): the `Message` enumeration
  and its integer codec, the dataclass records with their defaults, and
  `serialize` as an ordered list of JSON members, with a reader that inverts it.
- **Client** (`front_api.dfy`, `cookies.dfy`, `store.dfy`, `home.dfy`,
  `login.dfy`): the token store with its three setters; the root page's
  reconnecting socket (the retry delay doubles from 1000 ms up to 10000 ms),
  its choice of screen, and the "log in again?" prompt with its token check;
  the login form's submit buttons, the uuid-and-type filter that pairs a
  response with the request in flight, and the `sending`/error cells. Socket
  and timer events are method calls. JavaScript truthiness is explicit: an
  empty string counts as absent.

Time is an integer number of seconds passed as `now`. Fresh uuids and tokens
are arguments, with a freshness precondition where the code relies on it.

Quirks of the code that the model keeps:

- The root page assigns `onclose` twice, so only the second handler exists
  and an `error` event has no handler of its own there. `SocketClosed` is
  the only reconnect path.
- The backend's responses carry no `uuid`, and the dispatcher reads a
  `"message"` key where the client sends `"type"`. Nothing here claims the
  two ends agree.
- The login form's handlers stay registered after a match. The model proves
  only that an answer delivered twice in a row leaves the same state as one
  (`ReceiveIdempotent`). A duplicated failure that arrives after the alert was
  dismissed opens the alert again. Nothing here claims at-most-once settlement.
- The root page's token-check listener is added to the socket of the moment.
  After a reconnect it stays on the old socket and never hears an answer, so
  the prompt stays open (`StaleCheckIgnored`, `ReconnectOrphansTokenCheck`).

## Model

| member | source | states |
|---|---|---|
| `Api.Code` | back/meetup_maker/api.py:31-37 | every `Message` member's value lies in -1..4 |
| `Api.FromCode` | back/meetup_maker/api.py:31-37 | `Message(c)` succeeds exactly for c in -1..4, and then yields the member whose value is c |
| `Api.FromCodeOfCode` | back/meetup_maker/api.py:31-37 | decoding a member's value gives back that member |
| `Api.CodeInjective` | back/meetup_maker/api.py:31-37 | distinct members have distinct values |
| `Api.Defaults` | back/meetup_maker/api.py:44-77 | `ServerResponse(t, reason=…)` has `ok = false` and `reason` defaults to None; `ServerSignup()` is (SIGNUP, true, None, ""); `ClientSignup` defaults to type SIGNUP and the placeholder name and email |
| `Api.Keys` | back/meetup_maker/api.py:56-57 | the member names of a JSON object, one per member, in order |
| `Api.Serialize` | back/meetup_maker/api.py:50-57 | `serialize` emits `type`, `ok`, `reason`, and `token` for `ServerSignup`, in declaration order |
| `Api.SerializeRoundTrip` | back/meetup_maker/api.py:50-77 | reading back a serialized response gives the same response |
| `Database.WithSchema` | back/meetup_maker/database.py:30-74 | after `create_tables` all three tables exist, no existing table is lost and no other table appears |
| `Database.CreateTablesIdempotent` | back/meetup_maker/database.py:36-59 | running `create_tables` twice is the same as running it once (`IF NOT EXISTS`) |
| `Database.InsertUser` | back/meetup_maker/database.py:115-130 | the insert commits iff no fault is raised and the email is new; on commit exactly that row is added and every other row is kept; otherwise the table is unchanged; rows stay keyed by email |
| `Database.Connection.constructor` | back/meetup_maker/database.py:18-27 | a connection to a new database file has no tables and no users |
| `Database.Connection.CreateTables` | back/meetup_maker/database.py:30-74 | the tables become `WithSchema` of the old ones; the users are untouched |
| `Database.Connection.UserExists` | back/meetup_maker/database.py:77-88 | true iff a row with that email exists |
| `Database.Connection.CredentialsValid` | back/meetup_maker/database.py:91-112 | false when no row has the email; otherwise true iff the stored hash verifies the password |
| `Database.Connection.AddUser` | back/meetup_maker/database.py:115-130 | the answer and the new table are those of `InsertUser`; the UNIQUE key is preserved |
| `Server.Validate` | back/meetup_maker/server.py:56-66 | valid iff the token is known and its age is at most `session_length`; an unknown token changes nothing; an expired token alone is removed; a valid one is refreshed to `now`; every other entry is unchanged |
| `Server.ValidAtExactSessionLength` | back/meetup_maker/server.py:61 | a token exactly `session_length` seconds old is still valid (strict `>`) |
| `Server.ValidateIdempotent` | back/meetup_maker/server.py:56-66 | a second validation at the same instant answers the same and changes nothing |
| `Server.RefreshExtendsSession` | back/meetup_maker/server.py:60-66 | after a successful validation the token stays valid for `session_length` more seconds |
| `Server.Applicant` | back/meetup_maker/server.py:74 | the `User` built for signup carries the request's names, email and password hash |
| `Server.MessageKind` | back/meetup_maker/server.py:94 | `Message(d["message"])` decodes integers in -1..4, reads JSON `false`/`true` as SIGNUP/LOGIN, and fails on anything else |
| `Server.SessionServer.constructor` | back/meetup_maker/server.py:116-117 | the session table starts empty |
| `Server.SessionServer.Signup` | back/meetup_maker/server.py:37-42 | an existing email gives false and no insert; otherwise the outcome is `add_user`'s, which the existence check never contradicts |
| `Server.SessionServer.Login` | back/meetup_maker/server.py:45-53 | true iff the user exists and the password verifies against the stored hash |
| `Server.SessionServer.ValidateToken` | back/meetup_maker/server.py:56-66 | answer and new session table are exactly `Validate` of the old table |
| `Server.SessionServer.Heartbeat` | back/meetup_maker/server.py:69-70 | answer and effect are exactly those of `validate_token` |
| `Server.SessionServer.HandleSignup` | back/meetup_maker/server.py:73-81 | failure: a response of the request's type, `ok = false`, reason "Could not sign up user", no session added; success: the fresh token is mapped to `now` (one session more) and returned in a `ServerSignup` |
| `Server.SessionServer.Dispatch` | back/meetup_maker/server.py:84-100 | only a SIGNUP message with a castable body gets a reply, which is `_handle_signup`'s; a missing key, an undecodable kind or a failed cast ends the loop without sending; other kinds are dropped; nothing changes unless there is a reply; the tables are never changed |
| `FrontApi.Answers` | front/app/pages/login.tsx:45 | a message answers a request iff it carries the request's uuid and its `type` decodes to the request's kind |
| `FrontApi.AnswersOnlyItsKind` | front/app/api.tsx:10-29 | a response answers a request of one type only |
| `Cookies.CookieText` | front/app/pages/login.tsx:50 | a present value is stored as it is; `undefined` is stored as its string form |
| `Cookies.CookieJar.constructor` | front/app/page.tsx:30-32 | the cookies the page starts with |
| `Store.WithEmail` | front/state.tsx:16 | `setEmail` replaces `email` and keeps the other fields |
| `Store.WithFirstName` | front/state.tsx:17 | `setFirstName` replaces `first_name` and keeps the other fields |
| `Store.WithToken` | front/state.tsx:18 | `setToken` replaces `token` and keeps the other fields |
| `Store.SettersIdempotent` | front/state.tsx:16-18 | applying a setter twice with one value equals applying it once |
| `Store.SettersCommute` | front/state.tsx:16-18 | setters of different fields commute |
| `Store.TokenStore.constructor` | front/state.tsx:13-15 | the store starts with email, first name and token all undefined |
| `Store.TokenStore.SetEmail` | front/state.tsx:16 | the store's new state is `WithEmail` of the old one |
| `Store.TokenStore.SetFirstName` | front/state.tsx:17 | the store's new state is `WithFirstName` of the old one |
| `Store.TokenStore.SetToken` | front/state.tsx:18 | the store's new state is `WithToken` of the old one |
| `Home.NextRetry` | front/app/page.tsx:48-55 | the next delay doubles the current one unless that passes MAX_RETRY_MS, which caps it |
| `Home.Delay` | front/app/page.tsx:17-18 | every retry delay lies between MIN_RETRY_MS (1000) and MAX_RETRY_MS (10000) |
| `Home.DelayClosedForm` | front/app/page.tsx:48-61 | the n-th delay is min(10000, 1000 * 2^n) |
| `Home.DelayMonotone` | front/app/page.tsx:48-55 | delays never decrease |
| `Home.DelaySaturates` | front/app/page.tsx:48-55 | the delay is below 10000 for the first four connects and exactly 10000 from the fifth on |
| `Home.SelectScreen` | front/app/page.tsx:64-141 | no socket shows "connecting"; the re-login prompt shows iff a socket, `promptLogin` and truthy email and token; the dashboard needs a truthy token; the login form shows iff a socket and no truthy token |
| `Home.AnsweredCheck` | front/app/page.tsx:110-124 | picks the listener, among those added to the socket the message arrives on, whose uuid the message carries with type TOKEN; none when no such listener is answered |
| `Home.StaleCheckIgnored` | front/app/page.tsx:122-124 | a listener added to another socket is never the one a message answers |
| `Home.Home.constructor` | front/app/page.tsx:21-27 | before any effect: no socket, no prompt, no listener |
| `Home.Home.Mount` | front/app/page.tsx:29-35 | the store takes the cookies' email and token; `promptLogin` becomes true only when both are truthy; the first connect uses MIN_RETRY_MS and shows "connecting"; the new socket's number is one no listener is tagged with |
| `Home.Home.Connect` | front/app/page.tsx:37-43 | every connect attempt clears the socket (so "connecting" is shown) and records the new socket and its delay; the new socket is a new object, so its number is one no listener is tagged with |
| `Home.Home.SocketOpened` | front/app/page.tsx:40-43 | `onopen` sets the socket to the latest one and changes nothing else |
| `Home.Home.SocketClosed` | front/app/page.tsx:51-57 | the only close handler schedules a reconnect after the current delay and keeps the socket |
| `Home.Home.ReconnectTimerFired` | front/app/page.tsx:54-56 | the next connect uses min(MAX_RETRY_MS, 2 * retry), which is the next delay of the sequence, on a new socket whose number no listener is tagged with |
| `Home.Home.ChooseNo` | front/app/page.tsx:96-102 | "No" removes both cookies, clears email and token, clears `promptLogin` and leads to the login form; the connection state is untouched |
| `Home.Home.ChooseYes` | front/app/page.tsx:108-126 | "Yes" adds a listener for the fresh uuid to the page's socket and sends a token check carrying the stored email and token; the connection state is untouched |
| `Home.Home.OnMessage` | front/app/page.tsx:110-124 | a message arrives only on the latest socket while it is open (after `onopen`, before `onclose`); one that answers none of its listeners changes nothing; an answered one clears `promptLogin`, sets the first name on `ok` or clears email and token otherwise, and removes its listener; the connection state is untouched |
| `Home.FailedCheckShowsLogin` | front/app/page.tsx:117-120 | after a failed token check the page shows the login form |
| `Home.PassedCheckShowsDashboard` | front/app/page.tsx:114-116 | after a passed token check with a truthy token the page shows the dashboard |
| `LoginPage.OnSignupResponse` | front/app/pages/login.tsx:43-56 | `handleSignup` ignores all but the current request's SIGNUP answer, which ends `sending` and stores the token on success, or sets `error` to the reason and opens the alert on failure |
| `LoginPage.OnLoginResponse` | front/app/pages/login.tsx:62-76 | `handleLogin` does the same for LOGIN, and a success also stores the first name |
| `LoginPage.Receive` | front/app/pages/login.tsx:43-79 | a message with another uuid or a type other than SIGNUP/LOGIN changes nothing; a match ends `sending`; success stores the token (and, for LOGIN, the first name); failure sets `error` to the reason, opens the alert and keeps the token |
| `LoginPage.SubmitLogin` | front/app/pages/login.tsx:161-177 | disabled while sending; otherwise sending, the new uuid, and the form's email and first name in the store |
| `LoginPage.SubmitSignup` | front/app/pages/login.tsx:182-202 | disabled while sending; otherwise sending, the new uuid, and the form's email in the store |
| `LoginPage.Step` | front/app/pages/login.tsx:81-110 | close and error end `sending` only; dismissing the alert only closes it; no event changes the uuid |
| `LoginPage.UnrelatedMessagesIgnored` | front/app/pages/login.tsx:45-64 | any run of messages that do not answer the current request leaves the form and store unchanged |
| `LoginPage.PendingUntilEnded` | front/app/pages/login.tsx:43-96 | `sending`, the uuid and the store stay as they are until a matching answer, a close or an error arrives |
| `LoginPage.ReceiveIdempotent` | front/app/pages/login.tsx:43-79 | an answer delivered twice in a row leaves the same state as once |
| `LoginPage.LoginCorrelation` | front/app/pages/login.tsx:64-70 | after a Login submit its answer ends `sending` and stores the token; an answer to the previous uuid is ignored |
| `LoginPage.SignupCorrelation` | front/app/pages/login.tsx:45-50 | after a Signup submit its answer ends `sending` and stores the token; an answer to the previous uuid is ignored |
| `LoginPage.LoginForm.constructor` | front/app/pages/login.tsx:25-36 | empty fields, login mode, not sending, uuid "", no error |
| `LoginPage.LoginForm.Edit` | front/app/pages/login.tsx:118-156 | the text fields take the typed values; nothing else changes |
| `LoginPage.LoginForm.SetMode` | front/app/pages/login.tsx:160-181 | the mode switches and nothing else changes |
| `LoginPage.LoginForm.ClickLogin` | front/app/pages/login.tsx:161-177 | follows `SubmitLogin`; sends a login request and writes the email cookie unless sending |
| `LoginPage.LoginForm.ClickSignup` | front/app/pages/login.tsx:182-202 | follows `SubmitSignup`; sends a signup request and writes the email cookie unless sending |
| `LoginPage.LoginForm.OnMessage` | front/app/pages/login.tsx:43-79 | follows `Receive`; a settled success also writes the token cookie |
| `LoginPage.LoginForm.OnClose` | front/app/pages/login.tsx:82-84 | a socket close sets `sending` to false |
| `LoginPage.LoginForm.OnError` | front/app/pages/login.tsx:85-87 | a socket error sets `sending` to false |
| `LoginPage.LoginForm.DismissAlert` | front/app/pages/login.tsx:108-110 | closing the alert clears `errorOpen` and nothing else |

## Left out

- back/meetup_maker/configuration.py (reading the YAML file, logging setup): file-system and parsing plumbing; the session length is a constructor argument.
- The websocket server's lifecycle, logging and `main` beyond the empty session table: asyncio and network plumbing.
- The frame handling of `_server` before `loads`: a frame that is neither text nor bytes returns at once (server.py:86-88), and a binary frame is decoded and then handled like text (server.py:89-90), raising outside the `try` if it is not valid UTF-8. The model starts from the decoded text's dictionary. Text that is not JSON, JSON that is not an object, and an object without `"message"` all raise inside the `try` (server.py:93-94) and end the loop; `Incoming.message` is `None` for all three.
- The `ClientRequest` base dataclass: its two fields, `type` and `uuid`, are folded into `ClientSignup`, its only subclass the server uses.
- `ClientSignup.cast` (dacite): its result is an input of `Dispatch` (`None` when it raises).
- JSON floats in the `"message"` field: the model has integers, booleans, strings and null only.
- sqlite itself, row ids, and the contents of the `events` and `participants` tables: only the users relation and the tables' existence are modelled.
- `connect_db`'s reconnect per call and the `exit(1)` paths of `connect_db` and `create_tables`: process exit is not modelled; every call works on one `Connection`.
- argon2: `kdf` and `verify` are a parameter. A malformed stored hash makes `ph.verify` (database.py:108) raise `InvalidHashError`, which `except VerificationError` does not catch, so it propagates out of `credentials_valid`; the model does not represent that exception.
- Database.Connection.AddUser: the source hashes `signup.password`, which the server's `User` does not have; that `AttributeError`, like any other exception before the commit, is the input `fault`, and the stored hash is taken from the record.
- `datetime.now()` and `total_seconds()`: whole seconds passed as `now`; sub-second ages are not modelled.
- `uuid4()`: fresh uuids and tokens are arguments.
- React rendering, MUI layout, `console.log`, cookie expiry and the timing of `setTimeout`: only their effect on state is modelled.
- Events of sockets other than the latest one: an earlier socket is closed and delivers nothing more. Listeners added to it are kept, tagged with its number, and never answered: every later socket gets a number no listener carries (`Mount`, `Connect` and `ReconnectTimerFired` require it), and messages are delivered only while the latest socket is open (`OnMessage` requires it).
- `JSON.parse` throwing on a non-JSON message: the handler throws before changing any state, so such a message is not modelled.
- The login form's handlers read the `uuid` of the latest render; the model assumes React re-registers them before the next message arrives.
- front/app/pages/Login.tsx, front/app/pages/Code.tsx, front/app/layout.tsx: markup only. front/app/pages/dashboard.tsx's logout is two store setters, covered by `Store`.
